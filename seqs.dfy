/// Sequence combinators standing for Python list comprehensions, slices and
/// Cypher's `collect(DISTINCT ...)`.
module Seqs {

  function Min(a: int, b: int): int { if a <= b then a else b }

  /// Python's `s[:n]`: the first `n` elements, or all of them when fewer.
  function Take<T>(s: seq<T>, n: nat): (r: seq<T>)
    ensures |r| == Min(n, |s|)
    ensures r == s[..|r|]
  {
    if n <= |s| then s[..n] else s
  }

  /// `[x for x in s if p(x)]`
  function Filter<T(!new)>(s: seq<T>, p: T -> bool): (r: seq<T>)
    ensures |r| <= |s|
    ensures forall x :: x in r <==> x in s && p(x)
  {
    if s == [] then []
    else
      var init := s[..|s| - 1];
      assert s == init + [s[|s| - 1]];
      Filter(init, p) + if p(s[|s| - 1]) then [s[|s| - 1]] else []
  }

  /// The kept elements sit at increasing positions of the input, and every
  /// position that passes is among them: filtering keeps order.
  lemma {:induction false} FilterPositions<T(!new)>(s: seq<T>, p: T -> bool) returns (idx: seq<nat>)
    ensures |idx| == |Filter(s, p)|
    ensures forall k :: 0 <= k < |idx| ==> idx[k] < |s| && s[idx[k]] == Filter(s, p)[k]
    ensures forall k, l :: 0 <= k < l < |idx| ==> idx[k] < idx[l]
    ensures forall i :: 0 <= i < |s| && p(s[i]) ==> i in idx
  {
    if s == [] {
      idx := [];
    } else {
      var init := s[..|s| - 1];
      var last := s[|s| - 1];
      assert s == init + [last];
      var pre := FilterPositions(init, p);
      if p(last) {
        idx := pre + [|s| - 1];
      } else {
        idx := pre;
      }
    }
  }

  /// Filtering keeps or drops the head on its own and filters the rest.
  lemma {:induction false} FilterCons<T(!new)>(x: T, s: seq<T>, p: T -> bool)
    ensures Filter([x] + s, p) == (if p(x) then [x] else []) + Filter(s, p)
  {
    if s != [] {
      var t := [x] + s;
      var init := s[..|s| - 1];
      assert t[..|t| - 1] == [x] + init;
      assert t[|t| - 1] == s[|s| - 1];
      FilterCons(x, init, p);
    } else {
      assert [x] + s == [x];
      assert [x][..0] == [];
    }
  }

  lemma FilterKeep<T(!new)>(x: T, s: seq<T>, p: T -> bool)
    requires p(x)
    ensures Filter([x] + s, p) == [x] + Filter(s, p)
  {
    FilterCons(x, s, p);
  }

  lemma FilterDrop<T(!new)>(x: T, s: seq<T>, p: T -> bool)
    requires !p(x)
    ensures Filter([x] + s, p) == Filter(s, p)
  {
    FilterCons(x, s, p);
  }

  /// Filtering four items that all pass.
  lemma KeepAllFour<T(!new)>(a: T, b: T, c: T, d: T, p: T -> bool)
    requires p(a) && p(b) && p(c) && p(d)
    ensures Filter([a] + ([b] + ([c] + [d])), p) == [a] + ([b] + ([c] + [d]))
  {
    FilterKeep(d, [], p);
    assert [d] + [] == [d];
    FilterKeep(c, [d], p);
    FilterKeep(b, [c] + [d], p);
    FilterKeep(a, [b] + ([c] + [d]), p);
  }
  /// Filtering four items of which only the third fails.
  lemma DropThird<T(!new)>(a: T, b: T, c: T, d: T, p: T -> bool)
    requires p(a) && p(b) && !p(c) && p(d)
    ensures Filter([a] + ([b] + ([c] + [d])), p) == [a] + ([b] + [d])
  {
    FilterKeep(d, [], p);
    assert [d] + [] == [d];
    FilterDrop(c, [d], p);
    FilterKeep(b, [c] + [d], p);
    FilterKeep(a, [b] + ([c] + [d]), p);
  }
  /// Filtering four items of which only the second fails.
  lemma DropSecond<T(!new)>(a: T, b: T, c: T, d: T, p: T -> bool)
    requires p(a) && !p(b) && p(c) && p(d)
    ensures Filter([a] + ([b] + ([c] + [d])), p) == [a] + ([c] + [d])
  {
    FilterKeep(d, [], p);
    assert [d] + [] == [d];
    FilterKeep(c, [d], p);
    FilterDrop(b, [c] + [d], p);
    FilterKeep(a, [b] + ([c] + [d]), p);
  }
  /// Filtering three items of which only the middle one fails.
  lemma DropMiddle<T(!new)>(a: T, c: T, d: T, p: T -> bool)
    requires p(a) && !p(c) && p(d)
    ensures Filter([a] + ([c] + [d]), p) == [a] + [d]
  {
    FilterKeep(d, [], p);
    assert [d] + [] == [d];
    FilterDrop(c, [d], p);
    FilterKeep(a, [c] + [d], p);
  }

  /// `[f(x) for x in s]`
  function Map<T(!new), U(!new)>(s: seq<T>, f: T -> U): (r: seq<U>)
    ensures |r| == |s|
    ensures forall i :: 0 <= i < |s| ==> r[i] == f(s[i])
  {
    if s == [] then [] else Map(s[..|s| - 1], f) + [f(s[|s| - 1])]
  }

  /// The elements of a map are the images of the elements of `s`.
  lemma MapMembers<T(!new), U(!new)>(s: seq<T>, f: T -> U)
    ensures forall y :: y in Map(s, f) <==> exists x :: x in s && y == f(x)
    ensures forall x :: x in s ==> f(x) in Map(s, f)
  {
    var r := Map(s, f);
    forall y | y in r
      ensures exists x :: x in s && y == f(x)
    {
      var i :| 0 <= i < |r| && r[i] == y;
      assert s[i] in s;
    }
    forall x | x in s
      ensures f(x) in r
    {
      var i :| 0 <= i < |s| && s[i] == x;
      assert r[i] == f(x);
    }
  }

  /// A sub-multiset of a duplicate-free sequence is duplicate-free.
  lemma SubMultisetNoDups<T>(r: seq<T>, s: seq<T>)
    requires NoDups(s)
    requires multiset(r) <= multiset(s)
    ensures NoDups(r)
  {
    forall i, j | 0 <= i < j < |r|
      ensures r[i] != r[j]
    {
      if r[i] == r[j] {
        var x := r[i];
        assert r == r[..j] + [r[j]] + r[j + 1..];
        assert x in r[..j];
        assert multiset(r)[x] >= 2;
        CountAtMostOne(s, x);
        assert false;
      }
    }
  }

  /// Rows drawn from rows that a field tells apart are told apart by it too.
  lemma SubMultisetDistinctBy<T, K>(r: seq<T>, s: seq<T>, f: T -> K)
    requires multiset(r) <= multiset(s)
    requires forall i, j :: 0 <= i < j < |s| ==> f(s[i]) != f(s[j])
    ensures forall i, j :: 0 <= i < j < |r| ==> f(r[i]) != f(r[j])
  {
    assert NoDups(s);
    SubMultisetNoDups(r, s);
    forall i, j | 0 <= i < j < |r|
      ensures f(r[i]) != f(r[j])
    {
      assert r[i] in multiset(s) && r[j] in multiset(s);
      var a :| 0 <= a < |s| && s[a] == r[i];
      var b :| 0 <= b < |s| && s[b] == r[j];
      assert a != b;
    }
  }

  lemma {:induction false} CountAtMostOne<T>(s: seq<T>, x: T)
    requires NoDups(s)
    ensures multiset(s)[x] <= 1
  {
    if s != [] {
      var init := s[..|s| - 1];
      assert s == init + [s[|s| - 1]];
      assert NoDups(init);
      CountAtMostOne(init, x);
      if s[|s| - 1] == x {
        assert x !in init;
      }
    }
  }

  /// `[y for x in s for y in f(x)]`
  function FlatMap<T(!new), U(!new)>(s: seq<T>, f: T -> seq<U>): seq<U> {
    if s == [] then [] else FlatMap(s[..|s| - 1], f) + f(s[|s| - 1])
  }

  /// An element of the flat map comes from the image of some element.
  lemma {:induction false} FlatMapMembers<T(!new), U(!new)>(s: seq<T>, f: T -> seq<U>)
    ensures forall y :: y in FlatMap(s, f) <==> exists x :: x in s && y in f(x)
  {
    if s != [] {
      var init := s[..|s| - 1];
      assert s == init + [s[|s| - 1]];
      assert forall x :: x in s <==> x in init || x == s[|s| - 1];
      FlatMapMembers(init, f);
    }
  }

  /// An element of a non-empty sequence is in its prefix or is its last.
  lemma InInitOrLast<T>(s: seq<T>, x: T)
    requires s != []
    ensures x in s <==> x in s[..|s| - 1] || x == s[|s| - 1]
  {
    assert s == s[..|s| - 1] + [s[|s| - 1]];
  }

  predicate NoDups<T(==)>(s: seq<T>) {
    forall i, j :: 0 <= i < j < |s| ==> s[i] != s[j]
  }

  /// The elements of `s` in order of first appearance, each once.
  function Distinct<T(==,!new)>(s: seq<T>): (r: seq<T>)
    ensures NoDups(r)
    ensures forall x :: x in r <==> x in s
    ensures |r| <= |s|
  {
    if s == [] then []
    else
      var init := s[..|s| - 1];
      var last := s[|s| - 1];
      assert s == init + [last];
      var d := Distinct(init);
      if last in d then d else d + [last]
  }

  /// A duplicate-free sequence has no more elements than any sequence that
  /// contains all of them.
  lemma SubsetCard<T>(a: seq<T>, b: seq<T>)
    requires NoDups(a)
    requires forall x :: x in a ==> x in b
    ensures |a| <= |b|
  {
    var sa := set x | x in a;
    var sb := set x | x in b;
    assert sb == sa + (sb - sa);
    NoDupsCard(a);
    SeqSetCard(b);
  }

  lemma {:induction false} NoDupsCard<T>(a: seq<T>)
    requires NoDups(a)
    ensures |set x | x in a| == |a|
  {
    if a != [] {
      var init := a[..|a| - 1];
      assert a == init + [a[|a| - 1]];
      assert NoDups(init);
      NoDupsCard(init);
      assert (set x | x in a) == (set x | x in init) + {a[|a| - 1]};
    }
  }

  lemma {:induction false} SeqSetCard<T>(b: seq<T>)
    ensures |set x | x in b| <= |b|
  {
    if b != [] {
      var init := b[..|b| - 1];
      assert b == init + [b[|b| - 1]];
      SeqSetCard(init);
      assert (set x | x in b) == (set x | x in init) + {b[|b| - 1]};
    }
  }

  function Count<T(!new)>(s: seq<T>, p: T -> bool): nat {
    |Filter(s, p)|
  }
}
