/**
  The flat-table accumulator that code.py and main.py each run in their own
  `monitor_keys` loop: the same press/release state machine as keyboard.py, but
  the sampled combination is looked up in a single table with no mode, the
  result is written straight into `last_chorded`, and there are no subscribers.
 */
module FlatChord {
  import opened Lists
  import opened Events

  /** `chord_map` as these two loops index it: sorted combination to token. */
  type FlatMap = map<seq<int>, Token>

  /** The two keyboard fields these loops write. */
  datatype FlatState = FlatState(pressed: seq<int>, lastChorded: Token)

  /** The token of the sorted held keys in the table, or "err" when the table has no such combination. */
  function Lookup(chordMap: FlatMap, pressed: seq<int>): Token
  {
    var combo := SortedSeq(pressed);
    if combo in chordMap then chordMap[combo] else ErrorToken
  }

  /** One pass of the loop body of `monitor_keys`, with `hot` its loop-local flag. */
  function Step(s: FlatState, hot: bool, poll: Option<KeyEvent>, chordMap: FlatMap): StepResult<FlatState>
  {
    match poll
    case None => StepResult(s, Continue(hot), None)
    case Some(ev) =>
      if hot && ev.Released() then
        var looked := s.(lastChorded := Lookup(chordMap, s.pressed));
        var lookup := Some(SortedSeq(s.pressed));
        if ev.keyNumber in looked.pressed then
          StepResult(looked.(pressed := Remove(looked.pressed, ev.keyNumber)), Continue(false), lookup)
        else StepResult(looked, Crash(ValueError(ev.keyNumber)), lookup)
      else if ev.pressed then
        StepResult(s.(pressed := s.pressed + [ev.keyNumber]), Continue(true), None)
      else if ev.keyNumber in s.pressed then
        StepResult(s.(pressed := Remove(s.pressed, ev.keyNumber)), Continue(hot), None)
      else
        StepResult(s, Crash(ValueError(ev.keyNumber)), None)
  }

  function Stepper(chordMap: FlatMap): (FlatState, bool, Option<KeyEvent>) -> StepResult<FlatState>
  {
    (s: FlatState, hot: bool, poll: Option<KeyEvent>) => Step(s, hot, poll, chordMap)
  }

  // ---------------------------------------------------------------------------
  // The lookup

  /** Every arrangement of a combination in the table finds that combination's token. */
  lemma LookupFindsEveryArrangement(chordMap: FlatMap, combo: seq<int>, pressed: seq<int>)
    requires combo in chordMap && Sorted(combo)
    requires multiset(pressed) == multiset(combo)
    ensures Lookup(chordMap, pressed) == chordMap[combo]
  {
    SortedSeqOfArrangement(combo, pressed);
  }

  /** When no (sorted) combination of the table is an arrangement of the held keys, the lookup gives "err". */
  lemma LookupMissGivesErr(chordMap: FlatMap, pressed: seq<int>)
    requires forall c :: c in chordMap && Sorted(c) ==> multiset(c) != multiset(pressed)
    ensures Lookup(chordMap, pressed) == ErrorToken
  {
    assert SortedSeq(pressed) !in chordMap;
  }

  /** The lookup depends only on which keys are held. */
  lemma LookupOrderIndependent(chordMap: FlatMap, a: seq<int>, b: seq<int>)
    requires multiset(a) == multiset(b)
    ensures Lookup(chordMap, a) == Lookup(chordMap, b)
  {
    SortedSeqOrderIndependent(a, b);
  }

  // ---------------------------------------------------------------------------
  // Properties of one event

  /** A press appends its key and makes the window hot. */
  lemma PressAppends(s: FlatState, hot: bool, k: int, chordMap: FlatMap)
    ensures Step(s, hot, Some(KeyEvent(k, true)), chordMap) ==
            StepResult(s.(pressed := s.pressed + [k]), Continue(true), None)
  {
  }

  /**
    The first release of a hot window looks up the sorted keys held before
    the release (so including the released key), stores the token or "err",
    then removes the key and clears `hot`.
   */
  lemma HotReleaseSamples(s: FlatState, k: int, chordMap: FlatMap)
    requires k in s.pressed
    ensures var r := Step(s, true, Some(KeyEvent(k, false)), chordMap);
            r.lookup == Some(SortedSeq(s.pressed)) && k in r.lookup.value &&
            r.outcome == Continue(false) &&
            r.state == FlatState(Remove(s.pressed, k), Lookup(chordMap, s.pressed))
  {
    assert k in multiset(s.pressed);
  }

  /** A hot release whose combination is absent writes "err" and changes nothing but `pressed`. */
  lemma MissWritesErr(s: FlatState, k: int, chordMap: FlatMap)
    requires SortedSeq(s.pressed) !in chordMap
    ensures var r := Step(s, true, Some(KeyEvent(k, false)), chordMap);
            r.state.lastChorded == ErrorToken &&
            r.state.pressed == (if k in s.pressed then Remove(s.pressed, k) else s.pressed) &&
            r.outcome == (if k in s.pressed then Continue(false) else Crash(ValueError(k)))
  {
  }

  /** A release that is not the first of its window does no lookup and only removes the key. */
  lemma ColdReleaseOnlyRemoves(s: FlatState, k: int, chordMap: FlatMap)
    ensures var r := Step(s, false, Some(KeyEvent(k, false)), chordMap);
            r.lookup == None && r.state.lastChorded == s.lastChorded &&
            (k in s.pressed ==> r.outcome == Continue(false) && r.state.pressed == Remove(s.pressed, k)) &&
            (k !in s.pressed ==> r.outcome == Crash(ValueError(k)) && r.state == s)
  {
  }

  /** No release ever sets `hot`: the hot test comes before the press test. */
  lemma ReleaseNeverHeats(s: FlatState, hot: bool, k: int, chordMap: FlatMap)
    ensures Step(s, hot, Some(KeyEvent(k, false)), chordMap).outcome != Continue(true)
  {
  }

  // ---------------------------------------------------------------------------
  // Properties of a whole chord

  /** Pressing keys appends them in order, makes no lookup and leaves the window hot. */
  lemma {:induction false} PressesAccumulate(s: FlatState, hot: bool, ks: seq<int>, chordMap: FlatMap)
    ensures Run(Stepper(chordMap), s, hot, Presses(ks)) ==
            RunResult(s.(pressed := s.pressed + ks), Continue(hot || |ks| > 0), [])
    decreases |ks|
  {
    if ks == [] {
      assert s.pressed + ks == s.pressed;
    } else {
      var s1 := s.(pressed := s.pressed + [ks[0]]);
      assert Presses(ks)[1..] == Presses(ks[1..]);
      PressesAccumulate(s1, true, ks[1..], chordMap);
      assert ks == [ks[0]] + ks[1..];
      ConcatAssoc(s.pressed, [ks[0]], ks[1..]);
      RunUnfold(Stepper(chordMap), s, hot, Presses(ks));
    }
  }

  /** Releasing the held keys while not hot, in any order, drains `pressed` and looks up nothing. */
  lemma {:induction false} ColdReleasesDrain(s: FlatState, rs: seq<int>, chordMap: FlatMap)
    requires multiset(rs) == multiset(s.pressed)
    ensures Run(Stepper(chordMap), s, false, Releases(rs)) ==
            RunResult(s.(pressed := []), Continue(false), [])
    decreases |rs|, 1
  {
    if rs == [] {
      assert |s.pressed| == |multiset(s.pressed)| == 0;
      assert s.(pressed := []) == s;
    } else {
      RemoveFirstOfArrangement(s.pressed, rs);
      var s1 := s.(pressed := Remove(s.pressed, rs[0]));
      ColdReleasesAfterFirst(s1, rs, chordMap);
      RunThen(Stepper(chordMap), s, false, Releases(rs), StepResult(s1, Continue(false), None),
              RunResult(s.(pressed := []), Continue(false), []));
    }
  }

  /** What the releases after the first of a window do: drain what is left. */
  lemma ColdReleasesAfterFirst(s: FlatState, rs: seq<int>, chordMap: FlatMap)
    requires |rs| > 0 && multiset(rs[1..]) == multiset(s.pressed)
    ensures Run(Stepper(chordMap), s, false, Releases(rs)[1..]) == RunResult(s.(pressed := []), Continue(false), [])
    decreases |rs|, 0
  {
    assert Releases(rs)[1..] == Releases(rs[1..]);
    ColdReleasesDrain(s, rs[1..], chordMap);
  }

  /**
    The releases of a hot window, in any order: the first one samples all the
    held keys once, the others only drain them.
   */
  lemma ReleasesSampleOnce(held: FlatState, rs: seq<int>, chordMap: FlatMap)
    requires |held.pressed| > 0
    requires multiset(rs) == multiset(held.pressed)
    ensures Run(Stepper(chordMap), held, true, Releases(rs)) ==
            RunResult(FlatState([], Lookup(chordMap, held.pressed)), Continue(false), [SortedSeq(held.pressed)])
  {
    RemoveFirstOfArrangement(held.pressed, rs);
    FirstReleaseThenDrain(held, rs, chordMap);
  }

  /** The first release of the window samples; the releases after it drain what it left. */
  lemma FirstReleaseThenDrain(held: FlatState, rs: seq<int>, chordMap: FlatMap)
    requires |rs| > 0 && rs[0] in held.pressed
    requires multiset(rs[1..]) == multiset(Remove(held.pressed, rs[0]))
    ensures Run(Stepper(chordMap), held, true, Releases(rs)) ==
            RunResult(FlatState([], Lookup(chordMap, held.pressed)), Continue(false), [SortedSeq(held.pressed)])
  {
    var after := FlatState(Remove(held.pressed, rs[0]), Lookup(chordMap, held.pressed));
    HotReleaseSamples(held, rs[0], chordMap);
    ColdReleasesAfterFirst(after, rs, chordMap);
    RunThen(Stepper(chordMap), held, true, Releases(rs), StepResult(after, Continue(false), Some(SortedSeq(held.pressed))),
            RunResult(after.(pressed := []), Continue(false), []));
  }

  /**
    One chord from idle: whatever keys go down and in whatever order they come
    up, exactly one lookup happens, with all the keys, at the first release,
    and `pressed` ends empty with `last_chorded` holding that lookup's token.
   */
  lemma ChordWindow(s: FlatState, ks: seq<int>, rs: seq<int>, chordMap: FlatMap)
    requires s.pressed == [] && |ks| > 0
    requires multiset(rs) == multiset(ks)
    ensures var r := Run(Stepper(chordMap), s, false, Presses(ks) + Releases(rs));
            r.outcome == Continue(false) &&
            r.lookups == [SortedSeq(ks)] &&
            r.state == FlatState([], Lookup(chordMap, ks))
  {
    var held := s.(pressed := ks);
    var r1 := Run(Stepper(chordMap), s, false, Presses(ks));
    assert r1 == RunResult(held, Continue(true), []) by {
      PressesAccumulate(s, false, ks, chordMap);
      assert s.pressed + ks == ks;
    }
    var r2 := Run(Stepper(chordMap), held, true, Releases(rs));
    assert r2 == RunResult(FlatState([], Lookup(chordMap, ks)), Continue(false), [SortedSeq(ks)]) by {
      ReleasesSampleOnce(held, rs, chordMap);
    }
    assert Run(Stepper(chordMap), s, false, Presses(ks) + Releases(rs)) ==
           RunResult(r2.state, r2.outcome, r1.lookups + r2.lookups) by {
      RunAppend(Stepper(chordMap), s, false, Presses(ks), Releases(rs));
    }
    assert r1.lookups + r2.lookups == [SortedSeq(ks)];
  }

  /** The outcome of a chord depends only on which keys it holds. */
  lemma ChordOrderIndependent(s: FlatState, ks1: seq<int>, rs1: seq<int>, ks2: seq<int>, rs2: seq<int>,
                              chordMap: FlatMap)
    requires s.pressed == [] && |ks1| > 0
    requires multiset(ks1) == multiset(ks2)
    requires multiset(rs1) == multiset(ks1) && multiset(rs2) == multiset(ks2)
    ensures Run(Stepper(chordMap), s, false, Presses(ks1) + Releases(rs1)) ==
            Run(Stepper(chordMap), s, false, Presses(ks2) + Releases(rs2))
  {
    assert |ks2| == |multiset(ks2)| == |multiset(ks1)| == |ks1|;
    ChordWindow(s, ks1, rs1, chordMap);
    ChordWindow(s, ks2, rs2, chordMap);
    SortedSeqOrderIndependent(ks1, ks2);
  }

  // ---------------------------------------------------------------------------
  // Any event stream

  /**
    One poll whose release, if any, is of a held key: the loop goes on,
    `pressed` follows the held keys, and a lookup spends the `hot` flag.
   */
  lemma StepTracksHeld(s: FlatState, hot: bool, poll: Option<KeyEvent>, chordMap: FlatMap)
    requires poll.Some? && !poll.value.pressed ==> poll.value.keyNumber in s.pressed
    ensures var r := Step(s, hot, poll, chordMap);
            r.outcome.Continue? && multiset(r.state.pressed) == HeldAfter(multiset(s.pressed), poll) &&
            |Trace(r.lookup)| + (if r.outcome.hot then 1 else 0) <=
              (if poll.Some? && poll.value.pressed then 1 else 0) + (if hot then 1 else 0)
  {
  }

  /**
    For any stream in which every release is of a held key, overlapping
    ("rolling") chords included: the loop never raises, `pressed` holds exactly
    the keys still down, and there is at most one lookup per press (plus one for
    a window already hot at the start).
   */
  lemma {:induction false} PressedIsHeld(s: FlatState, hot: bool, polls: seq<Option<KeyEvent>>, chordMap: FlatMap)
    requires ReleasesHeld(multiset(s.pressed), polls)
    ensures var r := Run(Stepper(chordMap), s, hot, polls);
            r.outcome.Continue? && multiset(r.state.pressed) == Held(multiset(s.pressed), polls) &&
            (Held(multiset(s.pressed), polls) == multiset{} ==> r.state.pressed == []) &&
            |r.lookups| <= PressCount(polls) + (if hot then 1 else 0)
    decreases |polls|
  {
    if polls != [] {
      var r := Step(s, hot, polls[0], chordMap);
      StepTracksHeld(s, hot, polls[0], chordMap);
      PressedIsHeld(r.state, r.outcome.hot, polls[1..], chordMap);
      RunUnfold(Stepper(chordMap), s, hot, polls);
    }
  }
}
