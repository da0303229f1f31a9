/** Keyboard keys and the logical edges derived from them. Shared by the
    key-combination detector of main.py and by ui/hotkey_listener.py. */
module Keys {

  /** A key as the global keyboard listener reports it. Only the two keys of
      the recording combination are named; every other key is an opaque code. */
  datatype Key = ShiftR | AltR | Other(code: nat)

  /** A raw event delivered by the keyboard listener. */
  datatype KeyEvent = Press(key: Key) | Release(key: Key)

  /** The two callbacks a detector can fire: `on_start` and `on_stop`. */
  datatype Edge = Start | Stop

  /** The callbacks fired so far alternate Start, Stop, Start, ...,
      beginning with Start. */
  ghost predicate Alternating(log: seq<Edge>)
  {
    forall i :: 0 <= i < |log| ==> log[i] == (if i % 2 == 0 then Start else Stop)
  }

  /** True when an odd number of callbacks has fired, i.e. the last one was
      a Start that no Stop has answered yet. */
  ghost predicate Open(log: seq<Edge>)
  {
    |log| % 2 == 1
  }
}
