/**
  main.py: the earlier entry point. Its own `ChordedKeyboard` only holds the
  tuple of pins it was given, the pressed keys and the last token; its
  `monitor_keys` is the flat-table accumulator.
 */
module MainApp {
  import opened Events
  import opened FlatChord

  /** The argument given to the constructor: a tuple of pins, or any other value. */
  datatype KeysArg = TupleValue(pins: seq<Pin>) | OtherValue(typeRepr: string)

  class ChordedKeyboard {
    const keys: seq<Pin>
    var pressed: seq<int>
    var lastChorded: Token

    constructor (keys: seq<Pin>)
      ensures this.keys == keys && pressed == [] && lastChorded == ""
    {
      this.keys := keys;
      pressed := [];
      lastChorded := "";
    }

    /** `ChordedKeyboard(keys)`: a TypeError unless the argument is a tuple. */
    static method New(arg: KeysArg) returns (r: Result<ChordedKeyboard, Error>)
      ensures r.Success? <==> arg.TupleValue?
      ensures r.Failure? ==> r.error == TypeError("keys should be of type tuple")
      ensures r.Success? ==> fresh(r.value) && r.value.keys == arg.pins &&
                             r.value.pressed == [] && r.value.lastChorded == ""
    {
      match arg
      case TupleValue(pins) =>
        var kb := new ChordedKeyboard(pins);
        r := Success(kb);
      case OtherValue(_) =>
        r := Failure(TypeError("keys should be of type tuple"));
    }

    function Flat(): FlatState
      reads this
    {
      FlatState(pressed, lastChorded)
    }
  }

  /** The loop body of `monitor_keys` for one poll of the keypad queue. */
  method MonitorKeysStep(kb: ChordedKeyboard, poll: Option<KeyEvent>, hot: bool, chordMap: FlatMap)
    returns (outcome: Outcome)
    modifies kb
    ensures var r := Step(old(kb.Flat()), hot, poll, chordMap);
            kb.Flat() == r.state && outcome == r.outcome
  {
    if poll.None? {
      return Continue(hot);
    }
    var ev := poll.value;
    if hot && ev.Released() {
      kb.lastChorded := Lookup(chordMap, kb.pressed);
      if ev.keyNumber !in kb.pressed {
        return Crash(ValueError(ev.keyNumber));
      }
      kb.pressed := Lists.Remove(kb.pressed, ev.keyNumber);
      outcome := Continue(false);
    } else if ev.pressed {
      kb.pressed := kb.pressed + [ev.keyNumber];
      outcome := Continue(true);
    } else {
      if ev.keyNumber !in kb.pressed {
        return Crash(ValueError(ev.keyNumber));
      }
      kb.pressed := Lists.Remove(kb.pressed, ev.keyNumber);
      outcome := Continue(hot);
    }
  }

  /**
    `monitor_keys` over a finite queue of polls: `hot` starts false, and the
    loop ends when the queue is drained or an exception escapes the body.
   */
  method MonitorKeys(kb: ChordedKeyboard, polls: seq<Option<KeyEvent>>, chordMap: FlatMap)
    returns (outcome: Outcome)
    modifies kb
    ensures var r := Run(Stepper(chordMap), old(kb.Flat()), false, polls);
            kb.Flat() == r.state && outcome == r.outcome
  {
    ghost var whole := Run(Stepper(chordMap), kb.Flat(), false, polls);
    var hot := false;
    var i := 0;
    while i < |polls|
      invariant 0 <= i <= |polls|
      invariant whole.state == Run(Stepper(chordMap), kb.Flat(), hot, polls[i..]).state
      invariant whole.outcome == Run(Stepper(chordMap), kb.Flat(), hot, polls[i..]).outcome
    {
      ghost var before := kb.Flat();
      ghost var rest := polls[i..];
      assert rest != [] && rest[0] == polls[i] && rest[1..] == polls[i + 1..];
      var stepOutcome := MonitorKeysStep(kb, polls[i], hot, chordMap);
      ghost var r := Stepper(chordMap)(before, hot, rest[0]);
      assert r.state == kb.Flat() && r.outcome == stepOutcome;
      if stepOutcome.Crash? {
        RunStopsOnCrash(Stepper(chordMap), before, hot, rest);
        return stepOutcome;
      }
      RunUnfold(Stepper(chordMap), before, hot, rest);
      hot := stepOutcome.hot;
      i := i + 1;
    }
    outcome := Continue(hot);
  }

  /** A keyboard fresh from the constructor, given one chord, ends idle showing that chord's token. */
  method FirstChord(pins: seq<Pin>, ks: seq<int>, rs: seq<int>, chordMap: FlatMap) returns (shown: Token)
    requires |ks| > 0 && multiset(rs) == multiset(ks)
    ensures shown == Lookup(chordMap, ks)
  {
    var kb := new ChordedKeyboard(pins);
    var outcome := MonitorKeys(kb, Presses(ks) + Releases(rs), chordMap);
    ChordWindow(FlatState([], ""), ks, rs, chordMap);
    assert kb.pressed == [];
    shown := kb.lastChorded;
  }
}
