/// Cypher's `ORDER BY ... DESC LIMIT n`: a stable descending sort on a
/// lexicographic key followed by taking a prefix.
module Ranking {
  import opened Seqs

  /// A sort key compared lexicographically: `major`, then `middle`, then
  /// `minor`. Two- and one-level `ORDER BY` clauses leave the lower
  /// components at zero.
  datatype Key = Key(major: int, middle: int, minor: int)

  predicate KeyGe(a: Key, b: Key) {
    || a.major > b.major
    || (a.major == b.major && a.middle > b.middle)
    || (a.major == b.major && a.middle == b.middle && a.minor >= b.minor)
  }

  predicate SortedDesc<T>(s: seq<T>, key: T -> Key) {
    forall i, j :: 0 <= i < j < |s| ==> KeyGe(key(s[i]), key(s[j]))
  }

  /// A descending order on the key is descending on its major component.
  lemma SortedMajor<T>(r: seq<T>, key: T -> Key)
    requires SortedDesc(r, key)
    ensures forall i, j :: 0 <= i < j < |r| ==> key(r[i]).major >= key(r[j]).major
  {
    forall i, j | 0 <= i < j < |r|
      ensures key(r[i]).major >= key(r[j]).major
    {
      assert KeyGe(key(r[i]), key(r[j]));
    }
  }

  /// Inserts `x` before the first element it ranks at least as high as.
  function Insert<T(==)>(x: T, s: seq<T>, key: T -> Key): (r: seq<T>)
    requires SortedDesc(s, key)
    ensures |r| == |s| + 1
    ensures multiset(r) == multiset(s) + multiset{x}
    ensures SortedDesc(r, key)
  {
    if s == [] then [x]
    else if KeyGe(key(x), key(s[0])) then [x] + s
    else
      var rest := Insert(x, s[1..], key);
      InsertBehindHead(x, s, key, rest);
      [s[0]] + rest
  }

  /// Putting the head back in front of the insertion into the tail keeps the
  /// order and the elements.
  lemma InsertBehindHead<T>(x: T, s: seq<T>, key: T -> Key, rest: seq<T>)
    requires s != [] && SortedDesc(s, key) && !KeyGe(key(x), key(s[0]))
    requires multiset(rest) == multiset(s[1..]) + multiset{x} && SortedDesc(rest, key)
    ensures multiset([s[0]] + rest) == multiset(s) + multiset{x}
    ensures SortedDesc([s[0]] + rest, key)
  {
    assert s == [s[0]] + s[1..];
    forall y | y in rest
      ensures KeyGe(key(s[0]), key(y))
    {
      assert y in multiset(s[1..]) + multiset{x};
      if y != x {
        var m :| 0 <= m < |s[1..]| && s[1..][m] == y;
        assert s[m + 1] == y;
      }
    }
    var r := [s[0]] + rest;
    forall i, j | 0 <= i < j < |r|
      ensures KeyGe(key(r[i]), key(r[j]))
    {
      if i == 0 {
        assert r[j] == rest[j - 1];
      } else {
        assert r[i] == rest[i - 1] && r[j] == rest[j - 1];
      }
    }
  }

  /// Insertion sort; elements with equal keys keep their input order.
  function SortDesc<T(==)>(s: seq<T>, key: T -> Key): (r: seq<T>)
    ensures |r| == |s|
    ensures multiset(r) == multiset(s)
    ensures forall x :: x in r ==> x in s
    ensures forall x :: x in s ==> x in r
    ensures SortedDesc(r, key)
  {
    if s == [] then []
    else
      assert s == [s[0]] + s[1..];
      var r := Insert(s[0], SortDesc(s[1..], key), key);
      assert multiset(r) == multiset(s);
      assert forall x :: x in r ==> x in multiset(s);
      assert forall x :: x in s ==> x in multiset(r);
      r
  }

  /// `ORDER BY key DESC LIMIT limit`: as many rows as the limit allows,
  /// in descending key order, each one of the input rows.
  function TopBy<T(==)>(s: seq<T>, key: T -> Key, limit: nat): (r: seq<T>)
    ensures |r| == Min(limit, |s|)
    ensures SortedDesc(r, key)
    ensures multiset(r) <= multiset(s)
    ensures forall x :: x in r ==> x in s
    ensures |s| <= limit ==> multiset(r) == multiset(s)
    ensures |r| < limit ==> forall x :: x in s ==> x in r
  {
    var sorted := SortDesc(s, key);
    var r := Take(sorted, limit);
    PrefixOfPermutation(s, sorted, r, limit);
    r
  }

  /// The first `limit` elements of a permutation of `s`.
  lemma PrefixOfPermutation<T>(s: seq<T>, sorted: seq<T>, r: seq<T>, limit: nat)
    requires multiset(sorted) == multiset(s)
    requires |r| == Min(limit, |sorted|) && r == sorted[..|r|]
    ensures multiset(r) <= multiset(s)
    ensures forall x :: x in r ==> x in s
    ensures |s| <= limit ==> multiset(r) == multiset(s)
    ensures |r| < limit ==> forall x :: x in s ==> x in r
  {
    assert |sorted| == |s| by {
      assert |multiset(sorted)| == |multiset(s)|;
    }
    assert sorted == r + sorted[|r|..];
    assert multiset(sorted) == multiset(r) + multiset(sorted[|r|..]);
    assert forall x :: x in r ==> x in multiset(s);
    if |r| < limit {
      assert r == sorted;
      assert forall x :: x in s ==> x in multiset(r);
    }
  }

  /// An element the limit cut off has a major key component no larger than
  /// that of anything kept.
  lemma TopByMajorMaximal<T>(s: seq<T>, key: T -> Key, limit: nat, y: T)
    requires y in s && y !in TopBy(s, key, limit)
    ensures forall x :: x in TopBy(s, key, limit) ==> key(x).major >= key(y).major
  {
    var r := TopBy(s, key, limit);
    assert multiset(r)[y] == 0 < multiset(s)[y];
    TopByMaximal(s, key, limit, y);
    forall x | x in r
      ensures key(x).major >= key(y).major
    {
      assert KeyGe(key(x), key(y));
    }
  }

  /// Whatever the limit cut off ranks no higher than anything it kept.
  lemma TopByMaximal<T>(s: seq<T>, key: T -> Key, limit: nat, y: T)
    requires multiset(TopBy(s, key, limit))[y] < multiset(s)[y]
    ensures forall x :: x in TopBy(s, key, limit) ==> KeyGe(key(x), key(y))
  {
    var sorted := SortDesc(s, key);
    var r := TopBy(s, key, limit);
    assert r == Take(sorted, limit);
    var rest := sorted[|r|..];
    assert sorted == r + rest;
    assert multiset(sorted) == multiset(r) + multiset(rest);
    assert y in multiset(rest);
    var j :| 0 <= j < |rest| && rest[j] == y;
    assert sorted[|r| + j] == y;
    forall x | x in r
      ensures KeyGe(key(x), key(y))
    {
      var i :| 0 <= i < |r| && r[i] == x;
      assert sorted[i] == x;
    }
  }
}
