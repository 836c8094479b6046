/**
  code.py, `display_ui`: page navigation. Each page has three links, `onD0`,
  `onD1` and `onD2`, any of which may be absent. The inner loop polls the
  front keypad `k0` and then the keypad `k12` once per tick, and follows at
  most one link before it breaks out to show the new page.
 */
module Navigation {
  import opened Events

  /** The navigation part of a `PageBase`: its name and its three links. */
  class Page {
    const name: string
    var onD0: Page?
    var onD1: Page?
    var onD2: Page?

    /** A new page has no links. */
    constructor (name: string)
      ensures this.name == name && onD0 == null && onD1 == null && onD2 == null
    {
      this.name := name;
      onD0 := null;
      onD1 := null;
      onD2 := null;
    }

    /** `p` is this page or the target of one of its links. */
    predicate OneHop(p: Page)
      reads this
    {
      p == this || p == onD0 || p == onD1 || p == onD2
    }
  }

  /** `keys.events.get()`: the oldest event of a queue, or `None` when it is empty. */
  function Get(queue: seq<KeyEvent>): (Option<KeyEvent>, seq<KeyEvent>)
  {
    if queue == [] then (None, []) else (Some(queue[0]), queue[1..])
  }

  /** Where one or more ticks of the inner loop leave the page and the two queues. */
  datatype NavResult = NavResult(page: Page, k0: seq<KeyEvent>, k12: seq<KeyEvent>, moved: bool)

  /** One tick of the inner loop of `display_ui`, up to the `break`, from page `p`. */
  function NavTick(p: Page, k0: seq<KeyEvent>, k12: seq<KeyEvent>): NavResult
    reads p
  {
    var (e0, k0Rest) := Get(k0);
    if e0.Some? && e0.value.pressed && e0.value.keyNumber == 0 && p.onD1 != null then
      NavResult(p.onD1, k0Rest, k12, true)
    else if e0.Some? && e0.value.pressed && e0.value.keyNumber == 1 && p.onD2 != null then
      NavResult(p.onD2, k0Rest, k12, true)
    else
      var (e12, k12Rest) := Get(k12);
      if e12.Some? && e12.value.pressed && p.onD0 != null then
        NavResult(p.onD0, k0Rest, k12Rest, true)
      else
        NavResult(p, k0Rest, k12Rest, false)
  }

  /** The inner loop for at most `ticks` ticks: it stops at the first tick that follows a link. */
  function NavRun(p: Page, k0: seq<KeyEvent>, k12: seq<KeyEvent>, ticks: nat): NavResult
    reads p
    decreases ticks
  {
    if ticks == 0 then NavResult(p, k0, k12, false)
    else
      var r := NavTick(p, k0, k12);
      if r.moved then r else NavRun(p, r.k0, r.k12, ticks - 1)
  }

  /** Some event of the queue is a press. */
  predicate AnyPressed(queue: seq<KeyEvent>)
  {
    exists i :: 0 <= i < |queue| && queue[i].pressed
  }

  // ---------------------------------------------------------------------------
  // One tick

  /** A tick moves only along a link that is present, and a tick that does not move stays put. */
  lemma TickFollowsPresentLink(p: Page, k0: seq<KeyEvent>, k12: seq<KeyEvent>)
    ensures var r := NavTick(p, k0, k12);
            (r.moved ==> r.page == p.onD0 || r.page == p.onD1 || r.page == p.onD2) &&
            (!r.moved ==> r.page == p)
  {
  }

  /** Key 0 of `k0` goes to `onD1` when it is present, without consulting `k12`. */
  lemma Key0GoesToOnD1(p: Page, k0: seq<KeyEvent>, k12: seq<KeyEvent>)
    requires k0 != [] && k0[0] == KeyEvent(0, true) && p.onD1 != null
    ensures NavTick(p, k0, k12) == NavResult(p.onD1, k0[1..], k12, true)
  {
  }

  /** Key 1 of `k0` goes to `onD2` when it is present, without consulting `k12`. */
  lemma Key1GoesToOnD2(p: Page, k0: seq<KeyEvent>, k12: seq<KeyEvent>)
    requires k0 != [] && k0[0] == KeyEvent(1, true) && p.onD2 != null
    ensures NavTick(p, k0, k12) == NavResult(p.onD2, k0[1..], k12, true)
  {
  }

  /**
    When `k0` does not move, any press on `k12` goes to `onD0` if it is present;
    an absent link, an empty poll or a release leaves the page where it was.
   */
  lemma K12PressGoesToOnD0(p: Page, k0: seq<KeyEvent>, k12: seq<KeyEvent>)
    requires k0 == [] || !k0[0].pressed ||
             (k0[0].keyNumber == 0 && p.onD1 == null) ||
             (k0[0].keyNumber == 1 && p.onD2 == null) ||
             (k0[0].keyNumber != 0 && k0[0].keyNumber != 1)
    ensures var r := NavTick(p, k0, k12);
            r.k0 == Get(k0).1 && r.k12 == Get(k12).1 &&
            (r.moved <==> k12 != [] && k12[0].pressed && p.onD0 != null) &&
            r.page == (if r.moved then p.onD0 else p)
  {
  }

  // ---------------------------------------------------------------------------
  // The inner loop

  /** The inner loop makes at most one hop: it ends on the start page or on one of its links. */
  lemma {:induction false} RunMakesOneHop(p: Page, k0: seq<KeyEvent>, k12: seq<KeyEvent>, ticks: nat)
    ensures var r := NavRun(p, k0, k12, ticks);
            (r.moved ==> r.page == p.onD0 || r.page == p.onD1 || r.page == p.onD2) &&
            (!r.moved ==> r.page == p)
    decreases ticks
  {
    if ticks > 0 {
      TickFollowsPresentLink(p, k0, k12);
      var r := NavTick(p, k0, k12);
      if !r.moved {
        RunMakesOneHop(p, r.k0, r.k12, ticks - 1);
      }
    }
  }

  /** Only presses move: with no press in either queue the loop stays on its page. */
  lemma {:induction false} ReleasesNeverMove(p: Page, k0: seq<KeyEvent>, k12: seq<KeyEvent>, ticks: nat)
    requires !AnyPressed(k0) && !AnyPressed(k12)
    ensures var r := NavRun(p, k0, k12, ticks);
            !r.moved && r.page == p
    decreases ticks
  {
    if ticks > 0 {
      var r := NavTick(p, k0, k12);
      assert k0 != [] ==> !k0[0].pressed;
      assert k12 != [] ==> !k12[0].pressed;
      assert !r.moved;
      assert !AnyPressed(r.k0) by {
        forall i | 0 <= i < |r.k0| ensures !r.k0[i].pressed {
          assert r.k0[i] == k0[i + 1];
        }
      }
      assert !AnyPressed(r.k12) by {
        forall i | 0 <= i < |r.k12| ensures !r.k12[i].pressed {
          assert r.k12[i] == k12[i + 1];
        }
      }
      ReleasesNeverMove(p, r.k0, r.k12, ticks - 1);
    }
  }

  /** A page with no links is never left. */
  lemma {:induction false} NoLinksNoMove(p: Page, k0: seq<KeyEvent>, k12: seq<KeyEvent>, ticks: nat)
    requires p.onD0 == null && p.onD1 == null && p.onD2 == null
    ensures var r := NavRun(p, k0, k12, ticks);
            !r.moved && r.page == p
    decreases ticks
  {
    if ticks > 0 {
      var r := NavTick(p, k0, k12);
      NoLinksNoMove(p, r.k0, r.k12, ticks - 1);
    }
  }

  /**
    The inner `while True` loop of `display_ui`, for at most `ticks` ticks:
    the page it breaks out with and what is left of the two queues.
   */
  method DisplayUiInner(start: Page, k0: seq<KeyEvent>, k12: seq<KeyEvent>, ticks: nat)
    returns (r: NavResult)
    ensures r == NavRun(start, k0, k12, ticks)
    ensures start.OneHop(r.page) && (!r.moved ==> r.page == start)
  {
    RunMakesOneHop(start, k0, k12, ticks);
    var q0, q12 := k0, k12;
    var t: nat := ticks;
    while t > 0
      invariant t <= ticks
      invariant NavRun(start, k0, k12, ticks) == NavRun(start, q0, q12, t)
      decreases t
    {
      var e0, rest0 := Get(q0).0, Get(q0).1;
      if e0.Some? && e0.value.pressed {
        if e0.value.keyNumber == 0 {
          if start.onD1 != null {
            return NavResult(start.onD1, rest0, q12, true);
          }
        } else if e0.value.keyNumber == 1 {
          if start.onD2 != null {
            return NavResult(start.onD2, rest0, q12, true);
          }
        }
      }
      var e12, rest12 := Get(q12).0, Get(q12).1;
      if e12.Some? && e12.value.pressed {
        if start.onD0 != null {
          return NavResult(start.onD0, rest0, rest12, true);
        }
      }
      q0, q12 := rest0, rest12;
      t := t - 1;
    }
    r := NavResult(start, q0, q12, false);
  }
  // ---------------------------------------------------------------------------
  // The outer loop

  /** Every link of every page of `pages` that is present leads back into `pages`. */
  predicate Closed(pages: set<Page>)
    reads pages
  {
    forall q :: q in pages ==> (q.onD0 == null || q.onD0 in pages) &&
                               (q.onD1 == null || q.onD1 in pages) &&
                               (q.onD2 == null || q.onD2 in pages)
  }

  /**
    `display_ui` for `ticks` ticks of 0.1 s from page `p`: each tick is one pass
    of the inner loop, and a pass that follows a link hands the new page to the
    outer loop, which enters it on the next tick.
   */
  function Walk(pages: set<Page>, p: Page, k0: seq<KeyEvent>, k12: seq<KeyEvent>, ticks: nat): Page
    requires p in pages && Closed(pages)
    reads pages
    decreases ticks
  {
    if ticks == 0 then p
    else
      var r := NavTick(p, k0, k12);
      TickFollowsPresentLink(p, k0, k12);
      Walk(pages, r.page, r.k0, r.k12, ticks - 1)
  }

  /** Navigation never leaves a set of pages closed under its links. */
  lemma {:induction false} WalkStaysInPages(pages: set<Page>, p: Page, k0: seq<KeyEvent>, k12: seq<KeyEvent>,
                                            ticks: nat)
    requires p in pages && Closed(pages)
    ensures Walk(pages, p, k0, k12, ticks) in pages
    decreases ticks
  {
    if ticks > 0 {
      var r := NavTick(p, k0, k12);
      TickFollowsPresentLink(p, k0, k12);
      WalkStaysInPages(pages, r.page, r.k0, r.k12, ticks - 1);
    }
  }

  /** Until the inner loop breaks, the walk is the inner loop: it stays on its page. */
  lemma {:induction false} WalkBeginsWithInnerLoop(pages: set<Page>, p: Page, k0: seq<KeyEvent>, k12: seq<KeyEvent>,
                                                   ticks: nat)
    requires p in pages && Closed(pages)
    requires !NavRun(p, k0, k12, ticks).moved
    ensures var r := NavRun(p, k0, k12, ticks);
            Walk(pages, p, k0, k12, ticks) == p && r.page == p
    decreases ticks
  {
    if ticks > 0 {
      var r := NavTick(p, k0, k12);
      TickFollowsPresentLink(p, k0, k12);
      WalkBeginsWithInnerLoop(pages, p, r.k0, r.k12, ticks - 1);
    }
  }

  /**
    The whole of `display_ui` for `ticks` ticks: the outer loop enters the
    current page, the inner loop polls both keypads until it follows a link.
   */
  method DisplayUi(pages: set<Page>, start: Page, k0: seq<KeyEvent>, k12: seq<KeyEvent>, ticks: nat)
    returns (page: Page)
    requires start in pages && Closed(pages)
    ensures page == Walk(pages, start, k0, k12, ticks) && page in pages
  {
    WalkStaysInPages(pages, start, k0, k12, ticks);
    var current := start;
    var q0, q12 := k0, k12;
    var t: nat := ticks;
    while t > 0
      invariant current in pages
      invariant Walk(pages, start, k0, k12, ticks) == Walk(pages, current, q0, q12, t)
      decreases t
    {
      while t > 0
        invariant current in pages
        invariant Walk(pages, start, k0, k12, ticks) == Walk(pages, current, q0, q12, t)
        decreases t
      {
        var e0, rest0 := Get(q0).0, Get(q0).1;
        if e0.Some? && e0.value.pressed {
          if e0.value.keyNumber == 0 {
            if current.onD1 != null {
              current, q0, t := current.onD1, rest0, t - 1;
              break;
            }
          } else if e0.value.keyNumber == 1 {
            if current.onD2 != null {
              current, q0, t := current.onD2, rest0, t - 1;
              break;
            }
          }
        }
        var e12, rest12 := Get(q12).0, Get(q12).1;
        if e12.Some? && e12.value.pressed {
          if current.onD0 != null {
            current, q0, q12, t := current.onD0, rest0, rest12, t - 1;
            break;
          }
        }
        q0, q12, t := rest0, rest12, t - 1;
      }
    }
    page := current;
  }
}
