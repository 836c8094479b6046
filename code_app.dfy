/**
  code.py, `monitor_keys`: the flat-table accumulator run against the
  `pressed` and `last_chorded` fields of a keyboard.py `ChordedKeyboard`. It
  touches no other field of the keyboard: not its mode, not its subscribers.
 */
module CodeApp {
  import opened Events
  import opened FlatChord
  import Keyboard

  /** The part of the keyboard this loop reads and writes. */
  function FlatOf(kb: Keyboard.ChordedKeyboard): FlatState
    reads kb
  {
    FlatState(kb.pressed, kb.lastChorded)
  }

  /** The loop body of `monitor_keys` for one poll of the keypad queue. */
  method MonitorKeysStep(kb: Keyboard.ChordedKeyboard, poll: Option<KeyEvent>, hot: bool, chordMap: FlatMap)
    returns (outcome: Outcome)
    modifies kb`pressed, kb`lastChorded
    ensures var r := Step(old(FlatOf(kb)), hot, poll, chordMap);
            FlatOf(kb) == r.state && outcome == r.outcome
  {
    if poll.None? {
      return Continue(hot);
    }
    var ev := poll.value;
    if hot && ev.Released() {
      kb.lastChorded := Lookup(chordMap, kb.pressed);
      if ev.keyNumber !in kb.pressed {
        return Crash(ValueError(ev.keyNumber));
      }
      kb.pressed := Lists.Remove(kb.pressed, ev.keyNumber);
      outcome := Continue(false);
    } else if ev.pressed {
      kb.pressed := kb.pressed + [ev.keyNumber];
      outcome := Continue(true);
    } else {
      if ev.keyNumber !in kb.pressed {
        return Crash(ValueError(ev.keyNumber));
      }
      kb.pressed := Lists.Remove(kb.pressed, ev.keyNumber);
      outcome := Continue(hot);
    }
  }

  /**
    `monitor_keys` over a finite queue of polls: `hot` starts false, and the
    loop ends when the queue is drained or an exception escapes the body.
   */
  method MonitorKeys(kb: Keyboard.ChordedKeyboard, polls: seq<Option<KeyEvent>>, chordMap: FlatMap)
    returns (outcome: Outcome)
    modifies kb`pressed, kb`lastChorded
    ensures var r := Run(Stepper(chordMap), old(FlatOf(kb)), false, polls);
            FlatOf(kb) == r.state && outcome == r.outcome
  {
    ghost var whole := Run(Stepper(chordMap), FlatOf(kb), false, polls);
    var hot := false;
    var i := 0;
    while i < |polls|
      invariant 0 <= i <= |polls|
      invariant whole.state == Run(Stepper(chordMap), FlatOf(kb), hot, polls[i..]).state
      invariant whole.outcome == Run(Stepper(chordMap), FlatOf(kb), hot, polls[i..]).outcome
    {
      ghost var before := FlatOf(kb);
      ghost var rest := polls[i..];
      assert rest != [] && rest[0] == polls[i] && rest[1..] == polls[i + 1..];
      var stepOutcome := MonitorKeysStep(kb, polls[i], hot, chordMap);
      ghost var r := Stepper(chordMap)(before, hot, rest[0]);
      assert r.state == FlatOf(kb) && r.outcome == stepOutcome;
      if stepOutcome.Crash? {
        RunStopsOnCrash(Stepper(chordMap), before, hot, rest);
        return stepOutcome;
      }
      RunUnfold(Stepper(chordMap), before, hot, rest);
      hot := stepOutcome.hot;
      i := i + 1;
    }
    outcome := Continue(hot);
  }
}
