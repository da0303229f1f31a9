/** The key-combination edge detector of main.py: `on_press` / `on_release`
    keep the set of held keys (`pressed_keys`) and an engaged flag (the
    `pressed` attribute stored on the `on_press` function object), and turn
    raw key events into exactly one `on_start` per hold of the combination
    and exactly one `on_stop` when a release breaks it. */
module ComboHotkey {
  import opened Keys

  /** RECORD_KEYS: right shift together with right option/alt. */
  const RecordKeys: set<Key> := {ShiftR, AltR}

  /** The detector's state: the held keys and whether the flag is set. */
  datatype ComboState = ComboState(held: set<Key>, engaged: bool)

  /** The state after one handler, and the callbacks it fired (none or one). */
  datatype Step = Step(state: ComboState, fired: seq<Edge>)

  /** State before any key event: nothing held, flag absent. */
  const Initial: ComboState := ComboState({}, false)

  /** The flag is set exactly while the whole combination is held. */
  ghost predicate Inv(combo: set<Key>, s: ComboState)
  {
    s.engaged <==> combo <= s.held
  }

  /** `on_press(key)` for the combination `combo`. */
  function PressStep(combo: set<Key>, s: ComboState, key: Key): (r: Step)
    // every press is recorded, combination key or not
    ensures r.state.held == s.held + {key}
    ensures r.fired == [] || r.fired == [Start]
    // a press can only engage, and fires on_start only from the disengaged state
    ensures r.fired == [Start] ==> !s.engaged && r.state.engaged
    ensures s.engaged ==> r.state.engaged
    // repeated presses while engaged (auto-repeat included) never re-fire
    ensures s.engaged ==> r.fired == []
    ensures Inv(combo, s) ==> Inv(combo, r.state)
    // on_start fires exactly on the rising edge of "combination held"
    ensures Inv(combo, s) ==>
              (r.fired == [Start] <==> !(combo <= s.held) && combo <= r.state.held)
  {
    var held := s.held + {key};
    if combo <= held && !s.engaged then
      Step(ComboState(held, true), [Start])
    else
      Step(ComboState(held, s.engaged), [])
  }

  /** `on_release(key)` for the combination `combo`. */
  function ReleaseStep(combo: set<Key>, s: ComboState, key: Key): (r: Step)
    // a release of a key that is not held leaves the set as it was
    ensures key !in s.held ==> r.state.held == s.held
    ensures r.state.held == s.held - {key}
    ensures r.fired == [] || r.fired == [Stop]
    ensures r.fired == [Stop] ==> s.engaged && !r.state.engaged
    ensures !s.engaged ==> !r.state.engaged && r.fired == []
    // releasing a key outside the combination while it is held fires nothing
    ensures key !in combo && combo <= s.held ==> r.fired == [] && r.state.engaged == s.engaged
    ensures Inv(combo, s) ==> Inv(combo, r.state)
    // on_stop fires exactly on the falling edge of "combination held"
    ensures Inv(combo, s) ==>
              (r.fired == [Stop] <==> combo <= s.held && !(combo <= r.state.held))
  {
    var held := if key in s.held then s.held - {key} else s.held;
    if s.engaged && !(combo <= held) then
      Step(ComboState(held, false), [Stop])
    else
      Step(ComboState(held, s.engaged), [])
  }

  /** One raw event handled by the matching handler. */
  function Apply(combo: set<Key>, s: ComboState, ev: KeyEvent): Step
  {
    match ev
    case Press(k) => PressStep(combo, s, k)
    case Release(k) => ReleaseStep(combo, s, k)
  }

  /** The handlers run one after another on the listener thread: the final
      state and the callbacks fired, in order, for a sequence of events. */
  function Run(combo: set<Key>, s: ComboState, events: seq<KeyEvent>): (r: Step)
    // each event fires at most one callback
    ensures |r.fired| <= |events|
    // the flag changes only together with a callback
    ensures r.fired == [] ==> r.state.engaged == s.engaged
    decreases |events|
  {
    if events == [] then Step(s, [])
    else
      var first := Apply(combo, s, events[0]);
      var rest := Run(combo, first.state, events[1..]);
      Step(rest.state, first.fired + rest.fired)
  }

  /** Whatever the event sequence, the invariant is kept, the callbacks
      continue an alternating Start/Stop log, and the flag is set exactly
      when that log is open (ends with a Start). */
  lemma {:induction false} RunAlternates(combo: set<Key>, s: ComboState, log: seq<Edge>, events: seq<KeyEvent>)
    requires Inv(combo, s) && Alternating(log) && (s.engaged <==> Open(log))
    ensures var r := Run(combo, s, events);
            Inv(combo, r.state) && Alternating(log + r.fired) && (r.state.engaged <==> Open(log + r.fired))
    decreases |events|
  {
    if events != [] {
      var first := Apply(combo, s, events[0]);
      var log' := log + first.fired;
      assert Alternating(log') by {
        if first.fired != [] {
          forall i | 0 <= i < |log'|
            ensures log'[i] == (if i % 2 == 0 then Start else Stop)
          {
            if i < |log| { assert log'[i] == log[i]; }
          }
        }
      }
      RunAlternates(combo, first.state, log', events[1..]);
      assert log' + Run(combo, first.state, events[1..]).fired == log + Run(combo, s, events).fired;
    }
  }

  /** From start-up, on_start and on_stop strictly alternate beginning with
      on_start, and the flag is set exactly while the combination is held. */
  lemma RunFromInitial(events: seq<KeyEvent>)
    ensures var r := Run(RecordKeys, Initial, events);
            Alternating(r.fired) && (r.state.engaged <==> RecordKeys <= r.state.held)
            && (r.state.engaged <==> Open(r.fired))
  {
    RunAlternates(RecordKeys, Initial, [], events);
    assert [] + Run(RecordKeys, Initial, events).fired == Run(RecordKeys, Initial, events).fired;
  }

  /** The closure state of main(): `pressed_keys` and the engaged flag, with
      a ghost log of the callbacks `on_start` / `on_stop` fired so far. */
  class ComboListener {
    var pressedKeys: set<Key>
    var engaged: bool
    ghost var fired: seq<Edge>

    function State(): ComboState
      reads this
    {
      ComboState(pressedKeys, engaged)
    }

    ghost predicate Valid()
      reads this
    {
      Inv(RecordKeys, State()) && Alternating(fired) && (engaged <==> Open(fired))
    }

    /** `pressed_keys = set()`, and `on_press` has no `pressed` attribute. */
    constructor ()
      ensures Valid()
      ensures State() == Initial && fired == []
    {
      pressedKeys := {};
      engaged := false;
      fired := [];
    }

    /** `on_press(key)`; `started` tells whether `on_start` was called. */
    method OnPress(key: Key) returns (started: bool)
      requires Valid()
      modifies this
      ensures Valid()
      ensures var step := PressStep(RecordKeys, old(State()), key);
              State() == step.state && fired == old(fired) + step.fired
              && (started <==> step.fired == [Start])
    {
      pressedKeys := pressedKeys + {key};
      started := RecordKeys <= pressedKeys && !engaged;
      if started {
        engaged := true;
        fired := fired + [Start];
      }
    }

    /** `on_release(key)`; `stopped` tells whether `on_stop` was called. */
    method OnRelease(key: Key) returns (stopped: bool)
      requires Valid()
      modifies this
      ensures Valid()
      ensures var step := ReleaseStep(RecordKeys, old(State()), key);
              State() == step.state && fired == old(fired) + step.fired
              && (stopped <==> step.fired == [Stop])
    {
      if key in pressedKeys {
        pressedKeys := pressedKeys - {key};
      }
      stopped := engaged && !(RecordKeys <= pressedKeys);
      if stopped {
        engaged := false;
        fired := fired + [Stop];
      }
    }
  }

  /** A typical session: hold both keys (with auto-repeat), let go of one. */
  method ComboScenario()
  {
    var l := new ComboListener();
    var s := l.OnPress(ShiftR);
    assert !s;
    s := l.OnPress(AltR);
    assert s;
    s := l.OnPress(AltR);
    assert !s;
    var t := l.OnRelease(Other(7));
    assert !t;
    t := l.OnRelease(ShiftR);
    assert t;
    t := l.OnRelease(AltR);
    assert !t;
    assert l.fired == [Start, Stop];
  }
}
