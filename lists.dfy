/**
  The two list operations every chord engine relies on: Python's `sorted` on
  a list of key numbers, which turns the pressed keys into the canonical chord
  combination, and `list.remove`, which takes out the first occurrence of a
  released key.
 */
module Lists {

  predicate Sorted(s: seq<int>)
  {
    forall i, j :: 0 <= i < j < |s| ==> s[i] <= s[j]
  }

  /** Inserts `x` into the sorted sequence `s` before the first element not below it. */
  function Insert(x: int, s: seq<int>): (r: seq<int>)
    requires Sorted(s)
    ensures Sorted(r)
    ensures multiset(r) == multiset(s) + multiset{x}
    ensures |r| == |s| + 1 && (r[0] == x || (s != [] && r[0] == s[0]))
  {
    if s == [] then [x]
    else if x <= s[0] then
      ConsSorted(x, s);
      [x] + s
    else
      var rest := Insert(x, s[1..]);
      assert multiset([s[0]] + rest) == multiset(s) + multiset{x} by {
        assert s == [s[0]] + s[1..];
      }
      assert Sorted(s[1..]) && (|s| > 1 ==> s[0] <= s[1]);
      ConsSorted(s[0], rest);
      [s[0]] + rest
  }

  /** An element no larger than the head of a sorted sequence extends it. */
  lemma ConsSorted(h: int, t: seq<int>)
    requires Sorted(t) && (t != [] ==> h <= t[0])
    ensures Sorted([h] + t)
  {
  }

  /** Python's `sorted` on integers: the ascending arrangement of the same elements. */
  function SortedSeq(s: seq<int>): (r: seq<int>)
    ensures Sorted(r)
    ensures multiset(r) == multiset(s)
  {
    if s == [] then []
    else
      assert s == [s[0]] + s[1..];
      Insert(s[0], SortedSeq(s[1..]))
  }

  /** Two sorted sequences with the same elements are the same sequence. */
  lemma {:induction false} SortedUnique(a: seq<int>, b: seq<int>)
    requires Sorted(a) && Sorted(b)
    requires multiset(a) == multiset(b)
    ensures a == b
  {
    if a != [] {
      assert |b| == |multiset(b)| == |multiset(a)| == |a|;
      assert a[0] in multiset(b);
      assert b[0] in multiset(a);
      assert a[0] == b[0];
      assert a == [a[0]] + a[1..];
      assert b == [b[0]] + b[1..];
      assert multiset(a[1..]) == multiset(a) - multiset{a[0]};
      assert multiset(b[1..]) == multiset(b) - multiset{b[0]};
      SortedUnique(a[1..], b[1..]);
    }
  }

  /** `sorted` depends only on which keys are held, not on the order they went down. */
  lemma SortedSeqOrderIndependent(a: seq<int>, b: seq<int>)
    requires multiset(a) == multiset(b)
    ensures SortedSeq(a) == SortedSeq(b)
  {
    SortedUnique(SortedSeq(a), SortedSeq(b));
  }

  /** A combination that is already sorted is its own `sorted` image, whatever arrangement gave it. */
  lemma SortedSeqOfArrangement(c: seq<int>, p: seq<int>)
    requires Sorted(c)
    requires multiset(p) == multiset(c)
    ensures SortedSeq(p) == c
  {
    SortedUnique(SortedSeq(p), c);
  }

  /** The position of the first occurrence of `x`, as `list.index` finds it. */
  function IndexOf(s: seq<int>, x: int): (i: nat)
    requires x in s
    ensures i < |s| && s[i] == x
    ensures x !in s[..i]
  {
    if s[0] == x then 0
    else
      assert s == [s[0]] + s[1..];
      1 + IndexOf(s[1..], x)
  }

  /** `list.remove(x)` on a list that holds `x`: drops its first occurrence. */
  function Remove(s: seq<int>, x: int): (r: seq<int>)
    requires x in s
    ensures |r| == |s| - 1
    ensures multiset(r) == multiset(s) - multiset{x}
    ensures exists i :: 0 <= i < |s| && s[i] == x && x !in s[..i] && r == s[..i] + s[i + 1..]
  {
    var i := IndexOf(s, x);
    assert s == s[..i] + [s[i]] + s[i + 1..];
    s[..i] + s[i + 1..]
  }

  /**
    Releasing, in the order `rs`, exactly the keys held in `s`: the first
    release is of a held key, and what it leaves is what the rest release.
   */
  lemma RemoveFirstOfArrangement(s: seq<int>, rs: seq<int>)
    requires |s| > 0 && multiset(rs) == multiset(s)
    ensures |rs| > 0 && rs[0] in s
    ensures multiset(rs[1..]) == multiset(Remove(s, rs[0]))
  {
    assert |rs| == |multiset(rs)| == |multiset(s)| == |s|;
    assert rs == [rs[0]] + rs[1..];
    assert rs[0] in multiset(s);
  }
}
