/** ui/hotkey_listener.py: `HotkeyListener` watches one `record_key` and
    toggles its `_pressed` field, calling `on_start` on the first press and
    `on_stop` on the matching release. */
module SingleKeyHotkey {
  import opened Keys
  import ComboHotkey

  /** The `_pressed` flag after one handler, and the callbacks it fired. */
  datatype Step = Step(pressed: bool, fired: seq<Edge>)

  /** `_on_press(key)` of a listener for `recordKey`. */
  function PressStep(recordKey: Key, pressed: bool, key: Key): (r: Step)
    // other keys change nothing and call nothing
    ensures key != recordKey ==> r == Step(pressed, [])
    // a press of the record key while already pressed changes nothing
    ensures pressed ==> r == Step(pressed, [])
    // a first press of the record key sets the flag and calls on_start once
    ensures key == recordKey && !pressed ==> r == Step(true, [Start])
  {
    if key == recordKey && !pressed then Step(true, [Start]) else Step(pressed, [])
  }

  /** `_on_release(key)` of a listener for `recordKey`. */
  function ReleaseStep(recordKey: Key, pressed: bool, key: Key): (r: Step)
    ensures key != recordKey ==> r == Step(pressed, [])
    // a release while not pressed is a no-op
    ensures !pressed ==> r == Step(pressed, [])
    // a release of the held record key clears the flag and calls on_stop once
    ensures key == recordKey && pressed ==> r == Step(false, [Stop])
  {
    if key == recordKey && pressed then Step(false, [Stop]) else Step(pressed, [])
  }

  function Apply(recordKey: Key, pressed: bool, ev: KeyEvent): Step
  {
    match ev
    case Press(k) => PressStep(recordKey, pressed, k)
    case Release(k) => ReleaseStep(recordKey, pressed, k)
  }

  /** The flag and the callbacks fired, in order, for a sequence of events. */
  function Run(recordKey: Key, pressed: bool, events: seq<KeyEvent>): (r: Step)
    // each event fires at most one callback
    ensures |r.fired| <= |events|
    // `_pressed` changes only together with a callback
    ensures r.fired == [] ==> r.pressed == pressed
    // events of other keys never change `_pressed` or call anything
    ensures (forall i :: 0 <= i < |events| ==> events[i].key != recordKey) ==> r == Step(pressed, [])
    decreases |events|
  {
    if events == [] then Step(pressed, [])
    else
      var first := Apply(recordKey, pressed, events[0]);
      var rest := Run(recordKey, first.pressed, events[1..]);
      Step(rest.pressed, first.fired + rest.fired)
  }

  /** The single-key listener is the combination detector of main.py with
      the one-key combination {recordKey}: from any pair of states that agree
      (flag equal, and the flag set exactly while the key is held), both fire
      the same callbacks on every event sequence and keep agreeing. */
  lemma {:induction false} RunIsComboOfOne(recordKey: Key, pressed: bool, s: ComboHotkey.ComboState, events: seq<KeyEvent>)
    requires ComboHotkey.Inv({recordKey}, s) && s.engaged == pressed
    ensures var single := Run(recordKey, pressed, events);
            var combo := ComboHotkey.Run({recordKey}, s, events);
            single.fired == combo.fired && single.pressed == combo.state.engaged
    decreases |events|
  {
    if events != [] {
      var c := ComboHotkey.Apply({recordKey}, s, events[0]);
      RunIsComboOfOne(recordKey, Apply(recordKey, pressed, events[0]).pressed, c.state, events[1..]);
    }
  }

  /** From construction (`_pressed = False`), on_start and on_stop calls
      strictly alternate beginning with on_start, and `_pressed` is set
      exactly when the last call was on_start. */
  lemma RunFromConstruction(recordKey: Key, events: seq<KeyEvent>)
    ensures var r := Run(recordKey, false, events);
            Alternating(r.fired) && (r.pressed <==> Open(r.fired))
  {
    var s := ComboHotkey.ComboState({}, false);
    RunIsComboOfOne(recordKey, false, s, events);
    ComboHotkey.RunAlternates({recordKey}, s, [], events);
    assert [] + Run(recordKey, false, events).fired == Run(recordKey, false, events).fired;
  }

  /** `HotkeyListener`: the record key, the `_pressed` field, and a ghost log
      of the callbacks fired so far. The `pynput` listener thread is not
      modelled; its events arrive as calls of OnPress and OnRelease. */
  class HotkeyListener {
    const recordKey: Key
    var pressed: bool
    ghost var fired: seq<Edge>

    ghost predicate Valid()
      reads this
    {
      Alternating(fired) && (pressed <==> Open(fired))
    }

    constructor (recordKey: Key)
      ensures Valid()
      ensures this.recordKey == recordKey && !pressed && fired == []
    {
      this.recordKey := recordKey;
      pressed := false;
      fired := [];
    }

    /** `_on_press(key)`; `started` tells whether `on_start` was called. */
    method OnPress(key: Key) returns (started: bool)
      requires Valid()
      modifies this`pressed, this`fired
      ensures Valid()
      ensures var step := PressStep(recordKey, old(pressed), key);
              pressed == step.pressed && fired == old(fired) + step.fired
              && (started <==> step.fired == [Start])
    {
      started := key == recordKey && !pressed;
      if started {
        pressed := true;
        fired := fired + [Start];
      }
    }

    /** `_on_release(key)`; `stopped` tells whether `on_stop` was called. */
    method OnRelease(key: Key) returns (stopped: bool)
      requires Valid()
      modifies this`pressed, this`fired
      ensures Valid()
      ensures var step := ReleaseStep(recordKey, old(pressed), key);
              pressed == step.pressed && fired == old(fired) + step.fired
              && (stopped <==> step.fired == [Stop])
    {
      stopped := key == recordKey && pressed;
      if stopped {
        pressed := false;
        fired := fired + [Stop];
      }
    }
  }
}
