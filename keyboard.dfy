/**
  keyboard.py: the key registry (`Key`, `Keys`), and `ChordedKeyboard`, which
  resolves chords against a mode-dependent two-level chord table, fans every
  resolved entry out to its subscribers in registration order, and keeps the
  current mode and the last token for the display.

  The `ChordedKeyboard` fields that the source declares at class level
  (`pressed`, `last_chorded`, `key_subs`) are per-instance fields here. The field
  `log` is not in the source: it records every call attempted on a
  subscriber's `on_key` (one on an `on_key` that is not callable raises before
  any call is made), which is the only effect the engine has on its subscribers.
 */
module Keyboard {
  import opened Lists
  import opened Events

  type Mode = string

  /** A chord table entry, `key_tuple`: the output token (`[0]`) and the next mode (`[1]`). */
  type KeyTuple = (Token, Mode)

  /** `chord_map`: mode, then sorted combination of key numbers, to an entry. */
  type ChordMap = map<Mode, map<seq<int>, KeyTuple>>

  /** The mode a new keyboard starts in. */
  const NormalMode: Mode := "<NORM>"

  // ---------------------------------------------------------------------------
  // Key registry

  datatype Key = Key(pin: Pin, charAbbrev: string, description: string)

  /** `Keys`: an append-only list of keys. */
  class Keys {
    var items: seq<Key>

    constructor ()
      ensures items == []
    {
      items := [];
    }

    /** `add_key`: the key goes at the end; the pin list grows by its pin. */
    method AddKey(key: Key)
      modifies this
      ensures items == old(items) + [key]
      ensures Keymap() == old(Keymap()) + [key.pin]
    {
      items := items + [key];
    }

    /** `keymap`: the pins of the keys, in the order they were added. */
    function Keymap(): (pins: seq<Pin>)
      reads this
      ensures |pins| == |items|
      ensures forall i :: 0 <= i < |items| ==> pins[i] == items[i].pin
    {
      var keys := items;
      seq(|keys|, i requires 0 <= i < |keys| => keys[i].pin)
    }
  }

  // ---------------------------------------------------------------------------
  // Subscribers

  /** What a subscriber's `on_key` does when called. */
  datatype Reaction = Returns | RaisesKeyError | RaisesOther

  /** The subscriber's `on_key` attribute. */
  datatype OnKeyAttr = Method(reaction: Reaction) | NotCallable | Missing

  datatype Subscriber = Subscriber(name: string, onKey: OnKeyAttr)

  /** One attempted call of a subscriber's `on_key` with a chord entry. */
  datatype Notification = Notification(subscriber: Subscriber, keyTuple: KeyTuple)

  /** Calling a non-callable or missing `on_key` raises TypeError or AttributeError, not KeyError. */
  function ReactionOf(sub: Subscriber): Reaction
  {
    match sub.onKey
    case Method(r) => r
    case NotCallable => RaisesOther
    case Missing => RaisesOther
  }

  predicate AllCallable(subs: seq<Subscriber>)
  {
    forall i :: 0 <= i < |subs| ==> subs[i].onKey.Method?
  }

  predicate AllReturn(subs: seq<Subscriber>)
  {
    forall i :: 0 <= i < |subs| ==> ReactionOf(subs[i]) == Returns
  }

  /** No subscriber raises anything that monitor_keys does not catch. */
  predicate NoneRaisesOther(subs: seq<Subscriber>)
  {
    forall i :: 0 <= i < |subs| ==> ReactionOf(subs[i]) != RaisesOther
  }

  /** The calls made by the loop of `on_key`, and the exception that ended it (`Returns` if none). */
  datatype FanOutResult = FanOutResult(notified: seq<Notification>, raised: Reaction)

  /** The loop of `on_key`: each subscriber in turn is called with the entry, until one raises. */
  function FanOut(subs: seq<Subscriber>, t: KeyTuple): FanOutResult
    decreases |subs|
  {
    if subs == [] then FanOutResult([], Returns)
    else
      var prev := FanOut(subs[..|subs| - 1], t);
      if prev.raised != Returns then prev
      else FanOutResult(prev.notified + [Notification(subs[|subs| - 1], t)], ReactionOf(subs[|subs| - 1]))
  }

  /** When every subscriber returns, each is called exactly once, in registration order, with the same entry. */
  lemma {:induction false} FanOutAllReturn(subs: seq<Subscriber>, t: KeyTuple)
    requires AllReturn(subs)
    ensures FanOut(subs, t).raised == Returns
    ensures |FanOut(subs, t).notified| == |subs|
    ensures forall i :: 0 <= i < |subs| ==> FanOut(subs, t).notified[i] == Notification(subs[i], t)
    decreases |subs|
  {
    if subs != [] {
      var init := subs[..|subs| - 1];
      assert forall i :: 0 <= i < |init| ==> init[i] == subs[i];
      FanOutAllReturn(init, t);
    }
  }

  /** A raising subscriber ends the fan-out: the ones after it are never called. */
  lemma {:induction false} FanOutStopsAtFirstRaise(subs: seq<Subscriber>, t: KeyTuple, j: nat)
    requires j < |subs|
    requires AllReturn(subs[..j])
    requires ReactionOf(subs[j]) != Returns
    ensures FanOut(subs, t).raised == ReactionOf(subs[j])
    ensures |FanOut(subs, t).notified| == j + 1
    ensures forall i :: 0 <= i <= j ==> FanOut(subs, t).notified[i] == Notification(subs[i], t)
    decreases |subs|
  {
    var init := subs[..|subs| - 1];
    if |subs| == j + 1 {
      assert init == subs[..j];
      FanOutAllReturn(init, t);
    } else {
      assert init[..j] == subs[..j];
      FanOutStopsAtFirstRaise(init, t, j);
    }
  }

  /** Once some prefix of the subscribers has raised, the rest of the list changes nothing. */
  lemma {:induction false} FanOutAfterRaise(subs: seq<Subscriber>, k: nat, t: KeyTuple)
    requires k <= |subs|
    requires FanOut(subs[..k], t).raised != Returns
    ensures FanOut(subs, t) == FanOut(subs[..k], t)
    decreases |subs|
  {
    if k < |subs| {
      var init := subs[..|subs| - 1];
      assert init[..k] == subs[..k];
      FanOutAfterRaise(init, k, t);
    } else {
      assert subs[..k] == subs;
    }
  }

  /** If no subscriber raises an uncaught exception, neither does the fan-out. */
  lemma {:induction false} FanOutNoneRaisesOther(subs: seq<Subscriber>, t: KeyTuple)
    requires NoneRaisesOther(subs)
    ensures FanOut(subs, t).raised != RaisesOther
    decreases |subs|
  {
    if subs != [] {
      var init := subs[..|subs| - 1];
      assert forall i :: 0 <= i < |init| ==> init[i] == subs[i];
      FanOutNoneRaisesOther(init, t);
    }
  }

  // ---------------------------------------------------------------------------
  // Chord resolution

  /** The state of one ChordedKeyboard that the chord engine reads and writes. */
  datatype Engine = Engine(mode: Mode, pressed: seq<int>, lastChorded: Token,
                           keySubs: seq<Subscriber>, log: seq<Notification>)

  /**
    `switches_to_key_tuple`: the entry for the sorted switches in the current
    mode's table; any failure of the lookup is reported as a KeyError.
   */
  function SwitchesToKeyTuple(chordMap: ChordMap, mode: Mode, switches: seq<int>): Result<KeyTuple, Error>
  {
    var combo := SortedSeq(switches);
    if mode in chordMap && combo in chordMap[mode] then Success(chordMap[mode][combo])
    else Failure(KeyError(mode, combo))
  }

  /** Every arrangement of a combination in the mode's table finds that combination's entry. */
  lemma LookupFindsEveryArrangement(chordMap: ChordMap, mode: Mode, combo: seq<int>, switches: seq<int>)
    requires mode in chordMap && combo in chordMap[mode] && Sorted(combo)
    requires multiset(switches) == multiset(combo)
    ensures SwitchesToKeyTuple(chordMap, mode, switches) == Success(chordMap[mode][combo])
  {
    SortedSeqOfArrangement(combo, switches);
  }

  /**
    A lookup fails exactly when the mode is missing or no (sorted) combination
    of its table is an arrangement of the switches, and then it is a KeyError
    naming the mode and the sorted switches.
   */
  lemma LookupMissIsKeyError(chordMap: ChordMap, mode: Mode, switches: seq<int>)
    ensures SwitchesToKeyTuple(chordMap, mode, switches).Failure? <==>
            (mode !in chordMap ||
             forall c :: c in chordMap[mode] && Sorted(c) ==> multiset(c) != multiset(switches))
    ensures SwitchesToKeyTuple(chordMap, mode, switches).Failure? ==>
            SwitchesToKeyTuple(chordMap, mode, switches).error == KeyError(mode, SortedSeq(switches))
  {
    if mode in chordMap && !(forall c :: c in chordMap[mode] && Sorted(c) ==> multiset(c) != multiset(switches)) {
      var c :| c in chordMap[mode] && Sorted(c) && multiset(c) == multiset(switches);
      LookupFindsEveryArrangement(chordMap, mode, c, switches);
    }
  }

  /** The lookup depends only on the mode and the keys held, not on the order they went down. */
  lemma LookupOrderIndependent(chordMap: ChordMap, mode: Mode, a: seq<int>, b: seq<int>)
    requires multiset(a) == multiset(b)
    ensures SwitchesToKeyTuple(chordMap, mode, a) == SwitchesToKeyTuple(chordMap, mode, b)
  {
    SortedSeqOrderIndependent(a, b);
  }

  /** `on_key`: fan the entry out, then, if no subscriber raised, take its mode and token. */
  function OnKeyEffect(e: Engine, t: KeyTuple): (Engine, Reaction)
  {
    var f := FanOut(e.keySubs, t);
    var notified := e.(log := e.log + f.notified);
    if f.raised == Returns then (notified.(mode := t.1, lastChorded := t.0), Returns)
    else (notified, f.raised)
  }

  /** The result of the `try` block of a sampling edge: the new state, and an exception that escaped it. */
  datatype Dispatched = Dispatched(state: Engine, escaped: Option<Error>)

  /**
    The `try` block of a sampling edge: resolve the held keys and hand the entry
    to `on_key`; a KeyError from either shows "err", any other exception escapes.
   */
  function Dispatch(e: Engine, chordMap: ChordMap): Dispatched
  {
    match SwitchesToKeyTuple(chordMap, e.mode, e.pressed)
    case Failure(_) => Dispatched(e.(lastChorded := ErrorToken), None)
    case Success(t) =>
      var (s, reaction) := OnKeyEffect(e, t);
      match reaction
      case Returns => Dispatched(s, None)
      case RaisesKeyError => Dispatched(s.(lastChorded := ErrorToken), None)
      case RaisesOther => Dispatched(s, Some(SubscriberException("on_key")))
  }

  /** One pass of the loop body of `monitor_keys`, with `hot` its loop-local flag. */
  function Step(e: Engine, hot: bool, poll: Option<KeyEvent>, chordMap: ChordMap): StepResult<Engine>
  {
    match poll
    case None => StepResult(e, Continue(hot), None)
    case Some(ev) =>
      if hot && ev.Released() then
        var d := Dispatch(e, chordMap);
        var lookup := Some(SortedSeq(e.pressed));
        if d.escaped.Some? then StepResult(d.state, Crash(d.escaped.value), lookup)
        else if ev.keyNumber !in d.state.pressed then StepResult(d.state, Crash(ValueError(ev.keyNumber)), lookup)
        else StepResult(d.state.(pressed := Remove(d.state.pressed, ev.keyNumber)), Continue(false), lookup)
      else if ev.pressed then
        StepResult(e.(pressed := e.pressed + [ev.keyNumber]), Continue(true), None)
      else if ev.keyNumber in e.pressed then
        StepResult(e.(pressed := Remove(e.pressed, ev.keyNumber)), Continue(hot), None)
      else
        StepResult(e, Crash(ValueError(ev.keyNumber)), None)
  }

  function Stepper(chordMap: ChordMap): (Engine, bool, Option<KeyEvent>) -> StepResult<Engine>
  {
    (e: Engine, hot: bool, poll: Option<KeyEvent>) => Step(e, hot, poll, chordMap)
  }

  // ---------------------------------------------------------------------------
  // Properties of one event

  /** A press appends its key and makes the window hot, whatever `hot` was. */
  lemma PressAppends(e: Engine, hot: bool, k: int, chordMap: ChordMap)
    ensures Step(e, hot, Some(KeyEvent(k, true)), chordMap) ==
            StepResult(e.(pressed := e.pressed + [k]), Continue(true), None)
  {
  }

  /** A release that is not the first of its window does no lookup and only removes the key. */
  lemma ColdReleaseOnlyRemoves(e: Engine, k: int, chordMap: ChordMap)
    ensures var r := Step(e, false, Some(KeyEvent(k, false)), chordMap);
            r.lookup == None &&
            r.state.mode == e.mode && r.state.lastChorded == e.lastChorded &&
            r.state.keySubs == e.keySubs && r.state.log == e.log &&
            (k in e.pressed ==> r.outcome == Continue(false) && r.state.pressed == Remove(e.pressed, k)) &&
            (k !in e.pressed ==> r.outcome == Crash(ValueError(k)) && r.state == e)
  {
  }

  /**
    The first release of a hot window looks up exactly once, with the sorted
    keys held before the release, so the snapshot holds the released key; it
    then removes that key and clears `hot`.
   */
  lemma HotReleaseSamples(e: Engine, k: int, chordMap: ChordMap)
    requires k in e.pressed
    requires NoneRaisesOther(e.keySubs)
    ensures var r := Step(e, true, Some(KeyEvent(k, false)), chordMap);
            r.lookup == Some(SortedSeq(e.pressed)) && k in r.lookup.value &&
            r.outcome == Continue(false) &&
            r.state == Dispatch(e, chordMap).state.(pressed := Remove(e.pressed, k))
  {
    DispatchKeepsPressed(e, chordMap);
    assert k in multiset(SortedSeq(e.pressed));
  }

  /**
    The `try` block of a sampling edge leaves the held keys and the subscriber
    list alone, and lets nothing escape when no subscriber raises past it.
   */
  lemma DispatchKeepsPressed(e: Engine, chordMap: ChordMap)
    requires NoneRaisesOther(e.keySubs)
    ensures var d := Dispatch(e, chordMap);
            d.escaped == None && d.state.pressed == e.pressed && d.state.keySubs == e.keySubs
  {
    var t := SwitchesToKeyTuple(chordMap, e.mode, e.pressed);
    if t.Success? {
      FanOutNoneRaisesOther(e.keySubs, t.value);
    }
  }

  /** A miss writes "err" and changes neither the mode nor anything the subscribers see. */
  lemma MissLeavesModeAndSubscribers(e: Engine, k: int, chordMap: ChordMap)
    requires SwitchesToKeyTuple(chordMap, e.mode, e.pressed).Failure?
    ensures var r := Step(e, true, Some(KeyEvent(k, false)), chordMap);
            r.state.mode == e.mode && r.state.log == e.log && r.state.lastChorded == ErrorToken &&
            r.state.keySubs == e.keySubs &&
            r.state.pressed == (if k in e.pressed then Remove(e.pressed, k) else e.pressed) &&
            r.lookup == Some(SortedSeq(e.pressed)) &&
            r.outcome == (if k in e.pressed then Continue(false) else Crash(ValueError(k)))
  {
  }

  /**
    A hit notifies every subscriber once, in registration order, with the
    entry, and then moves to the entry's mode and shows its token.
   */
  lemma HitNotifiesInOrder(e: Engine, k: int, chordMap: ChordMap, t: KeyTuple)
    requires SwitchesToKeyTuple(chordMap, e.mode, e.pressed) == Success(t)
    requires AllReturn(e.keySubs)
    requires k in e.pressed
    ensures var r := Step(e, true, Some(KeyEvent(k, false)), chordMap);
            r.outcome == Continue(false) &&
            r.state.mode == t.1 && r.state.lastChorded == t.0 &&
            r.state.pressed == Remove(e.pressed, k) && r.state.keySubs == e.keySubs &&
            |r.state.log| == |e.log| + |e.keySubs| && r.state.log[..|e.log|] == e.log &&
            forall i :: 0 <= i < |e.keySubs| ==> r.state.log[|e.log| + i] == Notification(e.keySubs[i], t)
  {
    FanOutAllReturn(e.keySubs, t);
  }

  /**
    A subscriber that raises KeyError is reported like a miss, after the
    subscribers before it (and it) were called; the mode stays.
   */
  lemma SubscriberKeyErrorReportsErr(e: Engine, chordMap: ChordMap, t: KeyTuple, j: nat)
    requires SwitchesToKeyTuple(chordMap, e.mode, e.pressed) == Success(t)
    requires j < |e.keySubs| && AllReturn(e.keySubs[..j]) && ReactionOf(e.keySubs[j]) == RaisesKeyError
    ensures var d := Dispatch(e, chordMap);
            d.escaped == None && d.state.mode == e.mode && d.state.lastChorded == ErrorToken &&
            d.state.log == e.log + FanOut(e.keySubs, t).notified &&
            |d.state.log| == |e.log| + j + 1
  {
    FanOutStopsAtFirstRaise(e.keySubs, t, j);
  }

  /** No release ever sets `hot`. */
  lemma ReleaseNeverHeats(e: Engine, hot: bool, k: int, chordMap: ChordMap)
    ensures Step(e, hot, Some(KeyEvent(k, false)), chordMap).outcome != Continue(true)
  {
  }

  // ---------------------------------------------------------------------------
  // Properties of a whole chord

  /** Pressing keys appends them in order, makes no lookup and leaves the window hot. */
  lemma {:induction false} PressesAccumulate(e: Engine, hot: bool, ks: seq<int>, chordMap: ChordMap)
    ensures Run(Stepper(chordMap), e, hot, Presses(ks)) ==
            RunResult(e.(pressed := e.pressed + ks), Continue(hot || |ks| > 0), [])
    decreases |ks|
  {
    if ks == [] {
      assert e.pressed + ks == e.pressed;
    } else {
      var e1 := e.(pressed := e.pressed + [ks[0]]);
      assert Presses(ks)[1..] == Presses(ks[1..]);
      PressesAccumulate(e1, true, ks[1..], chordMap);
      assert ks == [ks[0]] + ks[1..];
      ConcatAssoc(e.pressed, [ks[0]], ks[1..]);
      RunUnfold(Stepper(chordMap), e, hot, Presses(ks));
    }
  }

  /** Releasing the held keys while not hot, in any order, drains `pressed` and looks up nothing. */
  lemma {:induction false} ColdReleasesDrain(e: Engine, rs: seq<int>, chordMap: ChordMap)
    requires multiset(rs) == multiset(e.pressed)
    ensures Run(Stepper(chordMap), e, false, Releases(rs)) ==
            RunResult(e.(pressed := []), Continue(false), [])
    decreases |rs|, 1
  {
    if rs == [] {
      assert |e.pressed| == |multiset(e.pressed)| == 0;
      assert e.(pressed := []) == e;
    } else {
      RemoveFirstOfArrangement(e.pressed, rs);
      var e1 := e.(pressed := Remove(e.pressed, rs[0]));
      ColdReleasesAfterFirst(e1, rs, chordMap);
      RunThen(Stepper(chordMap), e, false, Releases(rs), StepResult(e1, Continue(false), None),
              RunResult(e.(pressed := []), Continue(false), []));
    }
  }

  /** The first release of the window, as the loop sees it. */
  lemma FirstReleaseOfWindow(held: Engine, rs: seq<int>, chordMap: ChordMap)
    requires |rs| > 0 && rs[0] in held.pressed
    requires NoneRaisesOther(held.keySubs)
    ensures Stepper(chordMap)(held, true, Releases(rs)[0]) ==
            StepResult(Dispatch(held, chordMap).state.(pressed := Remove(held.pressed, rs[0])),
                       Continue(false), Some(SortedSeq(held.pressed)))
  {
    HotReleaseSamples(held, rs[0], chordMap);
  }

  /**
    The releases of a hot window, in any order: the first one samples all the
    held keys once, the others only drain them.
   */
  lemma ReleasesSampleOnce(held: Engine, rs: seq<int>, chordMap: ChordMap)
    requires |held.pressed| > 0
    requires multiset(rs) == multiset(held.pressed)
    requires NoneRaisesOther(held.keySubs)
    ensures Run(Stepper(chordMap), held, true, Releases(rs)) ==
            RunResult(Dispatch(held, chordMap).state.(pressed := []), Continue(false), [SortedSeq(held.pressed)])
  {
    RemoveFirstOfArrangement(held.pressed, rs);
    FirstReleaseThenDrain(held, rs, chordMap);
  }

  /** The first release of the window samples; the releases after it drain what it left. */
  lemma FirstReleaseThenDrain(held: Engine, rs: seq<int>, chordMap: ChordMap)
    requires |rs| > 0 && rs[0] in held.pressed
    requires multiset(rs[1..]) == multiset(Remove(held.pressed, rs[0]))
    requires NoneRaisesOther(held.keySubs)
    ensures Run(Stepper(chordMap), held, true, Releases(rs)) ==
            RunResult(Dispatch(held, chordMap).state.(pressed := []), Continue(false), [SortedSeq(held.pressed)])
  {
    var d := Dispatch(held, chordMap).state;
    var after := d.(pressed := Remove(held.pressed, rs[0]));
    var first := StepResult(after, Continue(false), Some(SortedSeq(held.pressed)));
    assert Run(Stepper(chordMap), held, true, Releases(rs)) ==
           RunResult(after.(pressed := []), Continue(false), Trace(first.lookup) + []) by {
      FirstReleaseOfWindow(held, rs, chordMap);
      ColdReleasesAfterFirst(after, rs, chordMap);
      RunThen(Stepper(chordMap), held, true, Releases(rs), first, RunResult(after.(pressed := []), Continue(false), []));
    }
    assert after.(pressed := []) == d.(pressed := []);
    assert Trace(first.lookup) + [] == [SortedSeq(held.pressed)];
  }

  /** What the releases after the first of a window do: drain what is left. */
  lemma ColdReleasesAfterFirst(e: Engine, rs: seq<int>, chordMap: ChordMap)
    requires |rs| > 0 && multiset(rs[1..]) == multiset(e.pressed)
    ensures Run(Stepper(chordMap), e, false, Releases(rs)[1..]) == RunResult(e.(pressed := []), Continue(false), [])
    decreases |rs|, 0
  {
    assert Releases(rs)[1..] == Releases(rs[1..]);
    ColdReleasesDrain(e, rs[1..], chordMap);
  }

  /**
    One chord from idle: whatever keys go down and in whatever order they come
    up, exactly one lookup happens, with all the keys, at the first release;
    the chord engine ends idle with the effect of that one resolution.
   */
  lemma ChordWindow(e: Engine, ks: seq<int>, rs: seq<int>, chordMap: ChordMap)
    requires e.pressed == [] && |ks| > 0
    requires multiset(rs) == multiset(ks)
    requires NoneRaisesOther(e.keySubs)
    ensures Run(Stepper(chordMap), e, false, Presses(ks) + Releases(rs)) ==
            RunResult(Dispatch(e.(pressed := ks), chordMap).state.(pressed := []), Continue(false), [SortedSeq(ks)])
  {
    var held := e.(pressed := ks);
    var r1 := Run(Stepper(chordMap), e, false, Presses(ks));
    assert r1 == RunResult(held, Continue(true), []) by {
      PressesAccumulate(e, false, ks, chordMap);
      assert e.pressed + ks == ks;
    }
    var r2 := Run(Stepper(chordMap), held, true, Releases(rs));
    assert r2 == RunResult(Dispatch(held, chordMap).state.(pressed := []), Continue(false), [SortedSeq(ks)]) by {
      ReleasesSampleOnce(held, rs, chordMap);
    }
    assert Run(Stepper(chordMap), e, false, Presses(ks) + Releases(rs)) ==
           RunResult(r2.state, r2.outcome, r1.lookups + r2.lookups) by {
      RunAppend(Stepper(chordMap), e, false, Presses(ks), Releases(rs));
    }
    assert r1.lookups + r2.lookups == [SortedSeq(ks)];
  }

  /** The `try` block of a sampling edge depends only on which keys are held, not on their order. */
  lemma DispatchOrderIndependent(e: Engine, a: seq<int>, b: seq<int>, chordMap: ChordMap)
    requires multiset(a) == multiset(b)
    ensures Dispatch(e.(pressed := a), chordMap).state.(pressed := []) ==
            Dispatch(e.(pressed := b), chordMap).state.(pressed := [])
    ensures Dispatch(e.(pressed := a), chordMap).escaped == Dispatch(e.(pressed := b), chordMap).escaped
  {
    LookupOrderIndependent(chordMap, e.mode, a, b);
  }

  /** The outcome of a chord depends only on which keys it holds. */
  lemma ChordOrderIndependent(e: Engine, ks1: seq<int>, rs1: seq<int>, ks2: seq<int>, rs2: seq<int>,
                              chordMap: ChordMap)
    requires e.pressed == [] && |ks1| > 0
    requires multiset(ks1) == multiset(ks2)
    requires multiset(rs1) == multiset(ks1) && multiset(rs2) == multiset(ks2)
    requires NoneRaisesOther(e.keySubs)
    ensures Run(Stepper(chordMap), e, false, Presses(ks1) + Releases(rs1)) ==
            Run(Stepper(chordMap), e, false, Presses(ks2) + Releases(rs2))
  {
    assert |ks2| == |multiset(ks2)| == |multiset(ks1)| == |ks1|;
    var r1 := Run(Stepper(chordMap), e, false, Presses(ks1) + Releases(rs1));
    var r2 := Run(Stepper(chordMap), e, false, Presses(ks2) + Releases(rs2));
    assert r1 == RunResult(Dispatch(e.(pressed := ks1), chordMap).state.(pressed := []), Continue(false),
                           [SortedSeq(ks1)]) by {
      ChordWindow(e, ks1, rs1, chordMap);
    }
    assert r2 == RunResult(Dispatch(e.(pressed := ks2), chordMap).state.(pressed := []), Continue(false),
                           [SortedSeq(ks2)]) by {
      ChordWindow(e, ks2, rs2, chordMap);
    }
    SortedSeqOrderIndependent(ks1, ks2);
    DispatchOrderIndependent(e, ks1, ks2, chordMap);
  }

  /**
    Two chords back to back: the first resolves as on its own, and the second
    runs from the state it left, so in the mode and with the subscribers the
    first one left.
   */
  lemma TwoChords(e: Engine, ks1: seq<int>, rs1: seq<int>, w2: seq<Option<KeyEvent>>, chordMap: ChordMap)
    requires e.pressed == [] && |ks1| > 0
    requires multiset(rs1) == multiset(ks1)
    requires NoneRaisesOther(e.keySubs)
    ensures var mid := Dispatch(e.(pressed := ks1), chordMap).state.(pressed := []);
            var r2 := Run(Stepper(chordMap), mid, false, w2);
            mid.pressed == [] && mid.keySubs == e.keySubs &&
            Run(Stepper(chordMap), e, false, (Presses(ks1) + Releases(rs1)) + w2) ==
            RunResult(r2.state, r2.outcome, [SortedSeq(ks1)] + r2.lookups)
  {
    var mid := Dispatch(e.(pressed := ks1), chordMap).state.(pressed := []);
    DispatchKeepsPressed(e.(pressed := ks1), chordMap);
    ChordWindow(e, ks1, rs1, chordMap);
    RunAppendKnown(Stepper(chordMap), e, false, Presses(ks1) + Releases(rs1), w2,
                   RunResult(mid, Continue(false), [SortedSeq(ks1)]), Run(Stepper(chordMap), mid, false, w2));
  }

  /** The resolution of a table hit when every subscriber returns. */
  lemma HitResolves(e: Engine, chordMap: ChordMap, t: KeyTuple)
    requires SwitchesToKeyTuple(chordMap, e.mode, e.pressed) == Success(t)
    requires AllReturn(e.keySubs)
    ensures Dispatch(e, chordMap) ==
            Dispatched(e.(mode := t.1, lastChorded := t.0, log := e.log + FanOut(e.keySubs, t).notified), None)
  {
    FanOutAllReturn(e.keySubs, t);
  }

  /**
    Press `a`, press `b`, release `a`, release `b`, with `{a,b}` mapped to a
    token and the current mode: one lookup of `[a, b]`, the token is shown,
    the mode stays, and every subscriber is told once.
   */
  lemma ScenarioHit(e: Engine, chordMap: ChordMap, a: int, b: int, token: Token)
    requires e.pressed == [] && AllReturn(e.keySubs) && a < b
    requires e.mode in chordMap && [a, b] in chordMap[e.mode] && chordMap[e.mode][[a, b]] == (token, e.mode)
    ensures var r := Run(Stepper(chordMap), e, false, Presses([a, b]) + Releases([a, b]));
            r.outcome == Continue(false) && r.lookups == [[a, b]] &&
            r.state.pressed == [] && r.state.mode == e.mode && r.state.lastChorded == token &&
            r.state.log == e.log + FanOut(e.keySubs, (token, e.mode)).notified
  {
    assert Sorted([a, b]);
    SortedSeqOfArrangement([a, b], [a, b]);
    assert NoneRaisesOther(e.keySubs);
    ChordWindow(e, [a, b], [a, b], chordMap);
    HitResolves(e.(pressed := [a, b]), chordMap, (token, e.mode));
  }

  /** Press `k`, release `k`, with no entry for `{k}`: "err" is shown, the mode stays, no subscriber is told. */
  lemma ScenarioMiss(e: Engine, chordMap: ChordMap, k: int)
    requires e.pressed == [] && NoneRaisesOther(e.keySubs)
    requires e.mode !in chordMap || [k] !in chordMap[e.mode]
    ensures var r := Run(Stepper(chordMap), e, false, Presses([k]) + Releases([k]));
            r.outcome == Continue(false) && r.lookups == [[k]] &&
            r.state == e.(lastChorded := ErrorToken)
  {
    assert Sorted([k]);
    SortedSeqOfArrangement([k], [k]);
    ChordWindow(e, [k], [k], chordMap);
  }

  /**
    After a chord that hits an entry (with every subscriber returning), the
    engine is idle in the entry's mode showing the entry's token, and whatever
    comes next runs from there: the next chord is looked up in the new mode's table.
   */
  lemma HitSwitchesMode(e: Engine, ks: seq<int>, rs: seq<int>, t: KeyTuple, rest: seq<Option<KeyEvent>>,
                        chordMap: ChordMap)
    requires e.pressed == [] && |ks| > 0 && multiset(rs) == multiset(ks)
    requires AllReturn(e.keySubs)
    requires SwitchesToKeyTuple(chordMap, e.mode, ks) == Success(t)
    ensures var mid := e.(mode := t.1, lastChorded := t.0, log := e.log + FanOut(e.keySubs, t).notified);
            var r2 := Run(Stepper(chordMap), mid, false, rest);
            Run(Stepper(chordMap), e, false, (Presses(ks) + Releases(rs)) + rest) ==
            RunResult(r2.state, r2.outcome, [SortedSeq(ks)] + r2.lookups)
  {
    assert NoneRaisesOther(e.keySubs);
    TwoChords(e, ks, rs, rest, chordMap);
    HitResolves(e.(pressed := ks), chordMap, t);
  }

  // ---------------------------------------------------------------------------
  // Any event stream

  /**
    One poll whose release, if any, is of a held key, with no subscriber
    raising anything but KeyError: the loop goes on, `pressed` follows the held
    keys, the subscribers stay, and a lookup spends the `hot` flag.
   */
  lemma StepTracksHeld(e: Engine, hot: bool, poll: Option<KeyEvent>, chordMap: ChordMap)
    requires poll.Some? && !poll.value.pressed ==> poll.value.keyNumber in e.pressed
    requires NoneRaisesOther(e.keySubs)
    ensures var r := Step(e, hot, poll, chordMap);
            r.outcome.Continue? && multiset(r.state.pressed) == HeldAfter(multiset(e.pressed), poll) &&
            r.state.keySubs == e.keySubs &&
            |Trace(r.lookup)| + (if r.outcome.hot then 1 else 0) <=
              (if poll.Some? && poll.value.pressed then 1 else 0) + (if hot then 1 else 0)
  {
    DispatchKeepsPressed(e, chordMap);
  }

  /**
    For any stream in which every release is of a held key, overlapping
    ("rolling") chords included, and with no subscriber raising anything but
    KeyError: the loop never raises, `pressed` holds exactly the keys still
    down, the subscribers are kept, and there is at most one lookup per press
    (plus one for a window already hot at the start).
   */
  lemma {:induction false} PressedIsHeld(e: Engine, hot: bool, polls: seq<Option<KeyEvent>>, chordMap: ChordMap)
    requires ReleasesHeld(multiset(e.pressed), polls)
    requires NoneRaisesOther(e.keySubs)
    ensures var r := Run(Stepper(chordMap), e, hot, polls);
            r.outcome.Continue? && multiset(r.state.pressed) == Held(multiset(e.pressed), polls) &&
            (Held(multiset(e.pressed), polls) == multiset{} ==> r.state.pressed == []) &&
            r.state.keySubs == e.keySubs &&
            |r.lookups| <= PressCount(polls) + (if hot then 1 else 0)
    decreases |polls|
  {
    if polls != [] {
      var r := Step(e, hot, polls[0], chordMap);
      StepTracksHeld(e, hot, polls[0], chordMap);
      PressedIsHeld(r.state, r.outcome.hot, polls[1..], chordMap);
      RunUnfold(Stepper(chordMap), e, hot, polls);
    }
  }

  // ---------------------------------------------------------------------------
  // The keyboard object

  /** The argument given to the constructor: a `Keys` registry, or any other value. */
  datatype KeysArg = KeysValue(keys: Keys) | OtherValue(typeRepr: string)

  class ChordedKeyboard {
    const keys: Keys
    var mode: Mode
    var pressed: seq<int>
    var lastChorded: Token
    var keySubs: seq<Subscriber>
    var log: seq<Notification>

    function State(): Engine
      reads this
    {
      Engine(mode, pressed, lastChorded, keySubs, log)
    }

    constructor (keys: Keys)
      ensures this.keys == keys
      ensures State() == Engine(NormalMode, [], "", [], [])
    {
      this.keys := keys;
      mode := NormalMode;
      pressed := [];
      lastChorded := "";
      keySubs := [];
      log := [];
    }

    /** `ChordedKeyboard(keys)`: a TypeError unless the argument is a `Keys`. */
    static method New(arg: KeysArg) returns (r: Result<ChordedKeyboard, Error>)
      ensures r.Success? <==> arg.KeysValue?
      ensures r.Failure? ==> r.error == TypeError("keys should be of type Keys\n\ttype was " + arg.typeRepr)
      ensures r.Success? ==> fresh(r.value) && r.value.keys == arg.keys &&
                             r.value.State() == Engine(NormalMode, [], "", [], [])
    {
      match arg
      case KeysValue(keys) =>
        var kb := new ChordedKeyboard(keys);
        r := Success(kb);
      case OtherValue(typeRepr) =>
        r := Failure(TypeError("keys should be of type Keys\n\ttype was " + typeRepr));
    }

    /** `on_key`: returns the reaction that ended the fan-out, `Returns` if it ran to the end. */
    method OnKey(t: KeyTuple) returns (reaction: Reaction)
      modifies this
      ensures (State(), reaction) == OnKeyEffect(old(State()), t)
    {
      var i := 0;
      while i < |keySubs|
        invariant 0 <= i <= |keySubs|
        invariant keySubs == old(keySubs) && pressed == old(pressed)
        invariant mode == old(mode) && lastChorded == old(lastChorded)
        invariant FanOut(keySubs[..i], t).raised == Returns
        invariant log == old(log) + FanOut(keySubs[..i], t).notified
      {
        var sub := keySubs[i];
        log := log + [Notification(sub, t)];
        assert keySubs[..i + 1][..i] == keySubs[..i];
        assert FanOut(keySubs[..i + 1], t) ==
               FanOutResult(FanOut(keySubs[..i], t).notified + [Notification(sub, t)], ReactionOf(sub));
        if ReactionOf(sub) != Returns {
          FanOutAfterRaise(keySubs, i + 1, t);
          assert log == old(log) + FanOut(keySubs, t).notified;
          return ReactionOf(sub);
        }
        i := i + 1;
      }
      assert keySubs[..i] == keySubs;
      mode := t.1;
      lastChorded := t.0;
      reaction := Returns;
    }

    /** `widget_sub`: appends a subscriber whose `on_key` is callable; duplicates are kept. */
    method WidgetSub(sub: Subscriber) returns (err: Option<Error>)
      modifies this`keySubs
      ensures sub.onKey.Method? ==> err == None && keySubs == old(keySubs) + [sub]
      ensures sub.onKey.NotCallable? ==> err == Some(SubscribeError(sub.name)) && keySubs == old(keySubs)
      ensures sub.onKey.Missing? ==> err == Some(AttributeError("on_key")) && keySubs == old(keySubs)
      ensures AllCallable(old(keySubs)) ==> AllCallable(keySubs)
    {
      match sub.onKey
      case Missing =>
        err := Some(AttributeError("on_key"));
      case NotCallable =>
        err := Some(SubscribeError(sub.name));
      case Method(_) =>
        keySubs := keySubs + [sub];
        err := None;
    }

    /** The loop body of `monitor_keys` for one poll of the keypad queue. */
    method MonitorKeysStep(poll: Option<KeyEvent>, hot: bool, chordMap: ChordMap) returns (outcome: Outcome)
      modifies this
      ensures var r := Step(old(State()), hot, poll, chordMap);
              State() == r.state && outcome == r.outcome
    {
      if poll.None? {
        return Continue(hot);
      }
      var ev := poll.value;
      if hot && ev.Released() {
        var found := SwitchesToKeyTuple(chordMap, mode, pressed);
        match found {
          case Failure(_) =>
            lastChorded := ErrorToken;
          case Success(t) =>
            var reaction := OnKey(t);
            if reaction == RaisesKeyError {
              lastChorded := ErrorToken;
            } else if reaction == RaisesOther {
              return Crash(SubscriberException("on_key"));
            }
        }
        if ev.keyNumber !in pressed {
          return Crash(ValueError(ev.keyNumber));
        }
        pressed := Remove(pressed, ev.keyNumber);
        outcome := Continue(false);
      } else if ev.pressed {
        pressed := pressed + [ev.keyNumber];
        outcome := Continue(true);
      } else {
        if ev.keyNumber !in pressed {
          return Crash(ValueError(ev.keyNumber));
        }
        pressed := Remove(pressed, ev.keyNumber);
        outcome := Continue(hot);
      }
    }

    /**
      `monitor_keys` over a finite queue of polls: `hot` starts false, and the
      loop ends when the queue is drained or an exception escapes the body.
     */
    method MonitorKeys(polls: seq<Option<KeyEvent>>, chordMap: ChordMap) returns (outcome: Outcome)
      modifies this
      ensures var r := Run(Stepper(chordMap), old(State()), false, polls);
              State() == r.state && outcome == r.outcome
    {
      ghost var whole := Run(Stepper(chordMap), State(), false, polls);
      var hot := false;
      var i := 0;
      while i < |polls|
        invariant 0 <= i <= |polls|
        invariant whole.state == Run(Stepper(chordMap), State(), hot, polls[i..]).state
        invariant whole.outcome == Run(Stepper(chordMap), State(), hot, polls[i..]).outcome
      {
        ghost var before := State();
        ghost var rest := polls[i..];
        assert rest != [] && rest[0] == polls[i] && rest[1..] == polls[i + 1..];
        var stepOutcome := MonitorKeysStep(polls[i], hot, chordMap);
        ghost var r := Stepper(chordMap)(before, hot, rest[0]);
        assert r.state == State() && r.outcome == stepOutcome;
        if stepOutcome.Crash? {
          RunStopsOnCrash(Stepper(chordMap), before, hot, rest);
          return stepOutcome;
        }
        RunUnfold(Stepper(chordMap), before, hot, rest);
        hot := stepOutcome.hot;
        i := i + 1;
      }
      outcome := Continue(hot);
    }
  }
}
