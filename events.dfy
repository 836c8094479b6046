/**
  What every chord engine's `monitor_keys` loop has in common: the keypad
  events it reads, the Python exceptions it can raise, the outcome of one pass
  through the loop body, and the semantics of running that body over a queue
  of events until the queue is drained or an uncaught exception ends the loop.
 */
module Events {

  /** A board pin; opaque to the chord engines. */
  type Pin = string

  /** What `last_chorded` holds: the output of the last chord. */
  type Token = string

  /** What `last_chorded` shows after a chord that could not be resolved. */
  const ErrorToken: Token := "err"

  datatype Option<+T> = None | Some(value: T)

  datatype Result<+T, +E> = Success(value: T) | Failure(error: E)

  /** A keypad event: which key, and whether it went down or up. */
  datatype KeyEvent = KeyEvent(keyNumber: int, pressed: bool)
  {
    /** keypad events are either pressed or released, never neither. */
    predicate Released() { !pressed }
  }

  /** The exceptions the modelled code raises. */
  datatype Error =
    | TypeError(message: string)
      /** raised by switches_to_key_tuple for an unknown mode or combination */
    | KeyError(mode: string, switches: seq<int>)
      /** list.remove of a key that is not in the list */
    | ValueError(key: int)
      /** subscriber without an on_key attribute */
    | AttributeError(name: string)
      /** raised by widget_sub for a subscriber whose on_key is not callable */
    | SubscribeError(subscriber: string)
      /** an exception other than a KeyError raised inside a subscriber's on_key */
    | SubscriberException(subscriber: string)

  /** How one pass of the loop body ends: with the new `hot` flag, or with an exception. */
  datatype Outcome = Continue(hot: bool) | Crash(error: Error)

  /**
    One pass of the loop body over engine state `S`. `lookup` is the sorted
    combination looked up in the chord table during this pass, if any.
   */
  datatype StepResult<S> = StepResult(state: S, outcome: Outcome, lookup: Option<seq<int>>)

  /** A whole run: final state, how it ended, and every combination looked up, in order. */
  datatype RunResult<S> = RunResult(state: S, outcome: Outcome, lookups: seq<seq<int>>)

  function Trace(lookup: Option<seq<int>>): seq<seq<int>>
  {
    match lookup
    case None => []
    case Some(c) => [c]
  }

  /**
    The `while True` loop of monitor_keys over a finite queue of polls (`None`
    is an empty poll): apply the body to each poll in arrival order, stopping at
    the first uncaught exception.
   */
  function Run<S>(step: (S, bool, Option<KeyEvent>) -> StepResult<S>, s: S, hot: bool,
                  polls: seq<Option<KeyEvent>>): RunResult<S>
    decreases |polls|
  {
    if polls == [] then RunResult(s, Continue(hot), [])
    else
      var r := step(s, hot, polls[0]);
      match r.outcome
      case Crash(_) => RunResult(r.state, r.outcome, Trace(r.lookup))
      case Continue(h) =>
        var rest := Run(step, r.state, h, polls[1..]);
        RunResult(rest.state, rest.outcome, Trace(r.lookup) + rest.lookups)
  }

  /** Running two queues back to back is running the first, then the second from where it stopped. */
  lemma {:induction false} RunAppend<S>(step: (S, bool, Option<KeyEvent>) -> StepResult<S>, s: S, hot: bool,
                                        p1: seq<Option<KeyEvent>>, p2: seq<Option<KeyEvent>>)
    requires Run(step, s, hot, p1).outcome.Continue?
    ensures var r1 := Run(step, s, hot, p1);
            var r2 := Run(step, r1.state, r1.outcome.hot, p2);
            Run(step, s, hot, p1 + p2) == RunResult(r2.state, r2.outcome, r1.lookups + r2.lookups)
    decreases |p1|
  {
    if p1 == [] {
      assert p1 + p2 == p2;
    } else {
      RunFirstContinues(step, s, hot, p1);
      var r := step(s, hot, p1[0]);
      RunAppend(step, r.state, r.outcome.hot, p1[1..], p2);
      RunAppendCons(step, s, hot, p1, p2);
    }
  }

  /** The inductive step of `RunAppend`: from the rest of `p1` to all of it. */
  lemma RunAppendCons<S>(step: (S, bool, Option<KeyEvent>) -> StepResult<S>, s: S, hot: bool,
                         p1: seq<Option<KeyEvent>>, p2: seq<Option<KeyEvent>>)
    requires p1 != [] && Run(step, s, hot, p1).outcome.Continue?
    requires step(s, hot, p1[0]).outcome.Continue?
    requires var r := step(s, hot, p1[0]);
             var t1 := Run(step, r.state, r.outcome.hot, p1[1..]);
             var t2 := Run(step, t1.state, t1.outcome.hot, p2);
             Run(step, r.state, r.outcome.hot, p1[1..] + p2) == RunResult(t2.state, t2.outcome, t1.lookups + t2.lookups)
    ensures var r1 := Run(step, s, hot, p1);
            var r2 := Run(step, r1.state, r1.outcome.hot, p2);
            Run(step, s, hot, p1 + p2) == RunResult(r2.state, r2.outcome, r1.lookups + r2.lookups)
  {
    var r := step(s, hot, p1[0]);
    var t1 := Run(step, r.state, r.outcome.hot, p1[1..]);
    var t12 := Run(step, r.state, r.outcome.hot, p1[1..] + p2);
    var t2 := Run(step, t1.state, t1.outcome.hot, p2);
    RunConsBoth(step, s, hot, p1, p2, r, t1, t12);
    var r1 := Run(step, s, hot, p1);
    assert r1.state == t1.state && r1.outcome == t1.outcome && r1.lookups == Trace(r.lookup) + t1.lookups;
    assert Run(step, r1.state, r1.outcome.hot, p2) == t2;
    assert Run(step, s, hot, p1 + p2) == RunResult(t2.state, t2.outcome, Trace(r.lookup) + (t1.lookups + t2.lookups));
    ConcatAssoc(Trace(r.lookup), t1.lookups, t2.lookups);
  }

  lemma ConcatAssoc<T>(a: seq<T>, b: seq<T>, c: seq<T>)
    ensures a + (b + c) == (a + b) + c
  {
  }

  /** A run that does not raise did not raise on its first pass. */
  lemma RunFirstContinues<S>(step: (S, bool, Option<KeyEvent>) -> StepResult<S>, s: S, hot: bool,
                             polls: seq<Option<KeyEvent>>)
    requires polls != [] && Run(step, s, hot, polls).outcome.Continue?
    ensures step(s, hot, polls[0]).outcome.Continue?
  {
  }

  /** The first pass of `p1` is also the first pass of `p1 + p2`. */
  lemma RunConsBoth<S>(step: (S, bool, Option<KeyEvent>) -> StepResult<S>, s: S, hot: bool,
                       p1: seq<Option<KeyEvent>>, p2: seq<Option<KeyEvent>>,
                       r: StepResult<S>, t1: RunResult<S>, t12: RunResult<S>)
    requires p1 != [] && r == step(s, hot, p1[0]) && r.outcome.Continue?
    requires t1 == Run(step, r.state, r.outcome.hot, p1[1..])
    requires t12 == Run(step, r.state, r.outcome.hot, p1[1..] + p2)
    ensures Run(step, s, hot, p1) == RunResult(t1.state, t1.outcome, Trace(r.lookup) + t1.lookups)
    ensures Run(step, s, hot, p1 + p2) == RunResult(t12.state, t12.outcome, Trace(r.lookup) + t12.lookups)
  {
    var q := p1 + p2;
    assert q[0] == p1[0] && q[1..] == p1[1..] + p2;
    RunUnfold(step, s, hot, p1);
    RunUnfold(step, s, hot, q);
  }

  /** `RunAppend` for two runs whose results are already known. */
  lemma RunAppendKnown<S>(step: (S, bool, Option<KeyEvent>) -> StepResult<S>, s: S, hot: bool,
                          p1: seq<Option<KeyEvent>>, p2: seq<Option<KeyEvent>>, r1: RunResult<S>, r2: RunResult<S>)
    requires Run(step, s, hot, p1) == r1 && r1.outcome.Continue?
    requires Run(step, r1.state, r1.outcome.hot, p2) == r2
    ensures Run(step, s, hot, p1 + p2) == RunResult(r2.state, r2.outcome, r1.lookups + r2.lookups)
  {
    RunAppend(step, s, hot, p1, p2);
  }

  /** One pass of the loop that does not raise hands what is left of the queue to the next pass. */
  lemma RunUnfold<S>(step: (S, bool, Option<KeyEvent>) -> StepResult<S>, s: S, hot: bool,
                     polls: seq<Option<KeyEvent>>)
    requires polls != [] && step(s, hot, polls[0]).outcome.Continue?
    ensures var r := step(s, hot, polls[0]);
            var rest := Run(step, r.state, r.outcome.hot, polls[1..]);
            Run(step, s, hot, polls) == RunResult(rest.state, rest.outcome, Trace(r.lookup) + rest.lookups)
  {
  }

  /** A pass of the loop that raises ends the run there. */
  lemma RunStopsOnCrash<S>(step: (S, bool, Option<KeyEvent>) -> StepResult<S>, s: S, hot: bool,
                           polls: seq<Option<KeyEvent>>)
    requires polls != [] && step(s, hot, polls[0]).outcome.Crash?
    ensures var r := step(s, hot, polls[0]);
            Run(step, s, hot, polls) == RunResult(r.state, r.outcome, Trace(r.lookup))
  {
  }

  /** The same, for a first pass and a rest of the run already known. */
  lemma RunThen<S>(step: (S, bool, Option<KeyEvent>) -> StepResult<S>, s: S, hot: bool,
                   polls: seq<Option<KeyEvent>>, first: StepResult<S>, rest: RunResult<S>)
    requires polls != [] && step(s, hot, polls[0]) == first && first.outcome.Continue?
    requires Run(step, first.state, first.outcome.hot, polls[1..]) == rest
    ensures Run(step, s, hot, polls) == RunResult(rest.state, rest.outcome, Trace(first.lookup) + rest.lookups)
  {
  }

  /** The polls that press each key of `ks`, in order. */
  function Presses(ks: seq<int>): (p: seq<Option<KeyEvent>>)
    ensures |p| == |ks|
    ensures forall i :: 0 <= i < |ks| ==> p[i] == Some(KeyEvent(ks[i], true))
  {
    seq(|ks|, i requires 0 <= i < |ks| => Some(KeyEvent(ks[i], true)))
  }

  /** The polls that release each key of `rs`, in order. */
  function Releases(rs: seq<int>): (p: seq<Option<KeyEvent>>)
    ensures |p| == |rs|
    ensures forall i :: 0 <= i < |rs| ==> p[i] == Some(KeyEvent(rs[i], false))
  {
    seq(|rs|, i requires 0 <= i < |rs| => Some(KeyEvent(rs[i], false)))
  }

  // ---------------------------------------------------------------------------
  // Arbitrary event streams

  /** The keys held after one poll: a press adds its key, a release takes one occurrence away. */
  function HeldAfter(m: multiset<int>, poll: Option<KeyEvent>): multiset<int>
  {
    match poll
    case None => m
    case Some(ev) => if ev.pressed then m + multiset{ev.keyNumber} else m - multiset{ev.keyNumber}
  }

  /** The keys held after a queue of polls, starting with `m` held. */
  function Held(m: multiset<int>, polls: seq<Option<KeyEvent>>): multiset<int>
    decreases |polls|
  {
    if polls == [] then m else Held(HeldAfter(m, polls[0]), polls[1..])
  }

  /** Starting with `m` held, every release in the queue is of a key held at that point. */
  predicate ReleasesHeld(m: multiset<int>, polls: seq<Option<KeyEvent>>)
    decreases |polls|
  {
    polls == [] ||
    ((polls[0].Some? && !polls[0].value.pressed ==> polls[0].value.keyNumber in m) &&
     ReleasesHeld(HeldAfter(m, polls[0]), polls[1..]))
  }

  /** The number of press events in a queue of polls. */
  function PressCount(polls: seq<Option<KeyEvent>>): nat
    decreases |polls|
  {
    if polls == [] then 0
    else (if polls[0].Some? && polls[0].value.pressed then 1 else 0) + PressCount(polls[1..])
  }
}
