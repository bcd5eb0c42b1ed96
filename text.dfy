/// The string operations the pipeline is built from, restricted to ASCII:
/// `str.lower()`, `str.upper()`, `str.title()`, `str.split()`,
/// `str.split(c)`, `str.strip(chars)`, `sep.join(xs)`, the `in` substring
/// test, `str.find` and the decimal rendering of a non-negative integer.
module Text {
  import opened Wrappers
  import opened Seqs

  // ---------------------------------------------------------------------
  // Characters
  // ---------------------------------------------------------------------

  predicate IsUpperChar(c: char) { 'A' <= c <= 'Z' }
  predicate IsLowerChar(c: char) { 'a' <= c <= 'z' }
  predicate IsCased(c: char) { IsUpperChar(c) || IsLowerChar(c) }
  predicate IsDigit(c: char) { '0' <= c <= '9' }

  /// The characters Python's `str.split()` and `str.strip()` treat as
  /// whitespace, restricted to ASCII.
  const Whitespace: set<char> :=
    {' ', '\t', '\n', '\U{0B}', '\U{0C}', '\r', '\U{1C}', '\U{1D}', '\U{1E}', '\U{1F}'}

  predicate IsSpace(c: char) { c in Whitespace }

  function LowerChar(c: char): char {
    if IsUpperChar(c) then (c as int + 32) as char else c
  }

  function UpperChar(c: char): char {
    if IsLowerChar(c) then (c as int - 32) as char else c
  }

  // ---------------------------------------------------------------------
  // Case mapping
  // ---------------------------------------------------------------------

  function Lower(s: string): string {
    seq(|s|, i requires 0 <= i < |s| => LowerChar(s[i]))
  }

  function Upper(s: string): string {
    seq(|s|, i requires 0 <= i < |s| => UpperChar(s[i]))
  }

  /// `s` has no upper-case letter, so lower-casing leaves it alone.
  predicate IsLowerString(s: string) {
    forall i :: 0 <= i < |s| ==> !IsUpperChar(s[i])
  }

  lemma LowerOfLowerString(s: string)
    requires IsLowerString(s)
    ensures Lower(s) == s
  {
  }

  lemma LowerAppend(a: string, b: string)
    ensures Lower(a + b) == Lower(a) + Lower(b)
  {
  }

  /// Lower-casing an upper-cased string gives the same as lower-casing the
  /// original: the two spellings of a term are equal after `toLower`.
  lemma LowerOfUpper(s: string)
    ensures Lower(Upper(s)) == Lower(s)
  {
  }

  lemma LowerIdempotent(s: string)
    ensures Lower(Lower(s)) == Lower(s)
  {
  }

  /// Python's `str.title()` on ASCII: a letter is upper-cased when the
  /// character before it is not a letter (digits and '-' count as
  /// non-letters), and lower-cased otherwise.
  function TitleFrom(s: string, prevCased: bool): string
  {
    if s == [] then ""
    else
      var c := s[0];
      var c' := if !IsCased(c) then c else if prevCased then LowerChar(c) else UpperChar(c);
      [c'] + TitleFrom(s[1..], IsCased(c))
  }

  function Title(s: string): string {
    TitleFrom(s, false)
  }

  lemma {:induction false} LowerTitleFrom(s: string, prevCased: bool)
    ensures |TitleFrom(s, prevCased)| == |s|
    ensures Lower(TitleFrom(s, prevCased)) == Lower(s)
  {
    if s != [] {
      LowerTitleFrom(s[1..], IsCased(s[0]));
      var c := s[0];
      var c' := if !IsCased(c) then c else if prevCased then LowerChar(c) else UpperChar(c);
      assert LowerChar(c') == LowerChar(c);
      LowerAppend([c'], TitleFrom(s[1..], IsCased(c)));
      LowerAppend([c], s[1..]);
      assert s == [c] + s[1..];
    }
  }

  /// Title-casing only changes case: lower-casing the title-cased form
  /// gives back the lower-cased original.
  lemma LowerTitle(s: string)
    ensures |Title(s)| == |s|
    ensures Lower(Title(s)) == Lower(s)
  {
    LowerTitleFrom(s, false);
  }

  // ---------------------------------------------------------------------
  // Substrings
  // ---------------------------------------------------------------------

  predicate OccursAt(s: string, p: string, i: int) {
    0 <= i && i + |p| <= |s| && s[i..i + |p|] == p
  }

  /// Python's `p in s` on strings.
  predicate Contains(s: string, p: string) {
    exists i | 0 <= i <= |s| - |p| :: OccursAt(s, p, i)
  }

  /// A substring of a slice is a substring of the whole string.
  lemma ContainsInSlice(s: string, a: int, b: int, p: string)
    requires 0 <= a <= b <= |s|
    requires Contains(s[a..b], p)
    ensures Contains(s, p)
  {
    var i :| 0 <= i <= |s[a..b]| - |p| && OccursAt(s[a..b], p, i);
    assert s[a..b][i..i + |p|] == p;
    assert forall k :: 0 <= k < |p| ==> p[k] == s[a + i + k];
    assert s[a + i..a + i + |p|] == p;
    assert OccursAt(s, p, a + i);
  }

  /// The first position at or after `i` where `p` occurs.
  function FindFrom(s: string, p: string, i: nat): (r: Option<nat>)
    ensures r.Some? ==> i <= r.value && OccursAt(s, p, r.value)
    ensures r.Some? ==> forall j :: i <= j < r.value ==> !OccursAt(s, p, j)
    ensures r.None? ==> forall j :: i <= j ==> !OccursAt(s, p, j)
    decreases |s| - i
  {
    if i + |p| > |s| then None
    else if OccursAt(s, p, i) then Some(i)
    else FindFrom(s, p, i + 1)
  }

  /// Python's `s.find(p)`, with `None` for -1.
  function FindFirst(s: string, p: string): (r: Option<nat>)
    ensures r.Some? <==> Contains(s, p)
    ensures r.Some? ==> OccursAt(s, p, r.value) && forall j :: 0 <= j < r.value ==> !OccursAt(s, p, j)
  {
    FindFrom(s, p, 0)
  }

  // ---------------------------------------------------------------------
  // Stripping
  // ---------------------------------------------------------------------

  function TrimLeft(s: string, cs: set<char>): (r: string)
    ensures |r| <= |s| && r == s[|s| - |r|..]
    ensures r != [] ==> r[0] !in cs
    ensures forall i :: 0 <= i < |s| - |r| ==> s[i] in cs
  {
    if s != [] && s[0] in cs then TrimLeft(s[1..], cs) else s
  }

  function TrimRight(s: string, cs: set<char>): (r: string)
    ensures |r| <= |s| && r == s[..|r|]
    ensures r != [] ==> r[|r| - 1] !in cs
    ensures forall i :: |r| <= i < |s| ==> s[i] in cs
  {
    if s != [] && s[|s| - 1] in cs then TrimRight(s[..|s| - 1], cs) else s
  }

  /// `r` is `s` with a run of characters of `cs` removed from each end,
  /// the kept part starting at index `a`.
  predicate TrimmedAt(s: string, r: string, a: int, cs: set<char>) {
    && 0 <= a && a + |r| <= |s|
    && s[a..a + |r|] == r
    && (forall i :: 0 <= i < a ==> s[i] in cs)
    && (forall i :: a + |r| <= i < |s| ==> s[i] in cs)
  }

  /// Python's `s.strip(chars)`.
  function Strip(s: string, cs: set<char>): (r: string)
    ensures r != [] ==> r[0] !in cs && r[|r| - 1] !in cs
    ensures exists a :: TrimmedAt(s, r, a, cs)
  {
    var l := TrimLeft(s, cs);
    var r := TrimRight(l, cs);
    TrimBothEnds(s, l, r, cs);
    r
  }

  /// Trimming the left end and then the right end trims `s` at the index
  /// where the left trim stopped.
  lemma TrimBothEnds(s: string, l: string, r: string, cs: set<char>)
    requires |l| <= |s| && l == s[|s| - |l|..]
    requires forall i :: 0 <= i < |s| - |l| ==> s[i] in cs
    requires |r| <= |l| && r == l[..|r|]
    requires forall i :: |r| <= i < |l| ==> l[i] in cs
    ensures TrimmedAt(s, r, |s| - |l|, cs)
  {
    var a := |s| - |l|;
    forall i | a + |r| <= i < |s|
      ensures s[i] in cs
    {
      assert s[i] == l[i - a];
    }
    assert s[a..a + |r|] == l[..|r|];
  }

  /// Stripping only removes characters, so the result is a substring of
  /// the input and every character it keeps comes from the input.
  lemma StripIsSubstring(s: string, cs: set<char>)
    ensures Contains(s, Strip(s, cs))
    ensures |Strip(s, cs)| <= |s|
  {
    var a :| TrimmedAt(s, Strip(s, cs), a, cs);
    assert OccursAt(s, Strip(s, cs), a);
  }

  /// A stripped string is empty exactly when every character was strippable.
  lemma StripEmpty(s: string, cs: set<char>)
    ensures Strip(s, cs) == [] <==> forall i :: 0 <= i < |s| ==> s[i] in cs
  {
    var a :| TrimmedAt(s, Strip(s, cs), a, cs);
  }

  /// A trimming of `s` with clean ends is the only one: it is `Strip(s, cs)`.
  lemma {:induction false} StrippedTrimIsStrip(s: string, r: string, a: int, cs: set<char>)
    requires IsStripped(r, cs) && TrimmedAt(s, r, a, cs)
    ensures r == Strip(s, cs)
  {
    var r0 := Strip(s, cs);
    var a0 :| TrimmedAt(s, r0, a0, cs);
    StripEmpty(s, cs);
    if r == [] {
      assert forall i :: 0 <= i < |s| ==> s[i] in cs;
    } else {
      assert s[a] == r[0] && s[a + |r| - 1] == r[|r| - 1];
      assert r0 != [];
      assert s[a0] == r0[0] && s[a0 + |r0| - 1] == r0[|r0| - 1];
      assert a == a0;
      assert |r| == |r0|;
    }
  }

  /// `str.strip()` with no argument.
  function StripSpace(s: string): string {
    Strip(s, Whitespace)
  }

  /// Neither end of `s` is one of `cs`.
  predicate IsStripped(s: string, cs: set<char>) {
    s == [] || (s[0] !in cs && s[|s| - 1] !in cs)
  }

  /// Stripping a string whose ends are already clean changes nothing.
  lemma StripOfStripped(s: string, cs: set<char>)
    requires IsStripped(s, cs)
    ensures Strip(s, cs) == s
  {
    assert TrimLeft(s, cs) == s;
    assert TrimRight(s, cs) == s;
  }

  /// Stripping twice is stripping once.
  lemma StripIdempotent(s: string, cs: set<char>)
    ensures Strip(Strip(s, cs), cs) == Strip(s, cs)
  {
    StripOfStripped(Strip(s, cs), cs);
  }

  /// A strippable character in front is removed like any other.
  lemma StripAfterPrefix(c: char, s: string, cs: set<char>)
    requires c in cs
    ensures Strip([c] + s, cs) == Strip(s, cs)
  {
    assert ([c] + s)[1..] == s;
    assert TrimLeft([c] + s, cs) == TrimLeft(s, cs);
  }

  /// Stripping only removes characters.
  lemma CharInStrip(s: string, cs: set<char>, c: char)
    requires c in Strip(s, cs)
    ensures c in s
  {
    StripIsSubstring(s, cs);
    CharInContained(s, Strip(s, cs), c);
  }

  lemma CharInContained(s: string, r: string, c: char)
    requires Contains(s, r) && c in r
    ensures c in s
  {
    var a :| 0 <= a <= |s| - |r| && OccursAt(s, r, a);
    CharInSlice(s, r, a, c);
  }

  lemma CharInSlice(s: string, r: string, a: int, c: char)
    requires 0 <= a && a + |r| <= |s| && s[a..a + |r|] == r
    requires c in r
    ensures c in s
  {
    var k :| 0 <= k < |r| && r[k] == c;
    assert s[a + k] == r[k];
  }

  /// `str.strip()` leaves no whitespace at either end and keeps only
  /// characters of its input.
  lemma StripSpaceFacts(s: string)
    ensures IsStripped(StripSpace(s), Whitespace)
    ensures forall c :: c in StripSpace(s) ==> c in s
  {
    forall c | c in StripSpace(s)
      ensures c in s
    {
      CharInStrip(s, Whitespace, c);
    }
  }

  /// `in` on strings is transitive.
  lemma ContainsTrans(a: string, b: string, p: string)
    requires Contains(a, b) && Contains(b, p)
    ensures Contains(a, p)
  {
    var i :| 0 <= i <= |a| - |b| && OccursAt(a, b, i);
    assert a[i..i + |b|] == b;
    ContainsInSlice(a, i, i + |b|, p);
  }

  // ---------------------------------------------------------------------
  // Splitting on whitespace
  // ---------------------------------------------------------------------

  function WordLen(s: string): (n: nat)
    ensures n <= |s|
    ensures forall i :: 0 <= i < n ==> !IsSpace(s[i])
    ensures n < |s| ==> IsSpace(s[n])
  {
    if s == [] || IsSpace(s[0]) then 0 else 1 + WordLen(s[1..])
  }

  /// Python's `s.split()`: the maximal runs of non-whitespace characters,
  /// in order; empty runs are not produced.
  function Words(s: string): (r: seq<string>)
    ensures forall w :: w in r ==> w != [] && forall i :: 0 <= i < |w| ==> !IsSpace(w[i])
    decreases |s|
  {
    if s == [] then []
    else if IsSpace(s[0]) then Words(s[1..])
    else
      var n := WordLen(s);
      [s[..n]] + Words(s[n..])
  }

  /// The first word of `w + rest` is all of `w` when `rest` is empty or
  /// starts with whitespace.
  lemma {:induction false} WordLenOfWord(w: string, rest: string)
    requires forall i :: 0 <= i < |w| ==> !IsSpace(w[i])
    requires rest == [] || IsSpace(rest[0])
    ensures WordLen(w + rest) == |w|
  {
    if w != [] {
      assert (w + rest)[1..] == w[1..] + rest;
      WordLenOfWord(w[1..], rest);
    } else {
      assert w + rest == rest;
    }
  }

  lemma WordsOfWord(w: string, rest: string)
    requires w != [] && forall i :: 0 <= i < |w| ==> !IsSpace(w[i])
    requires rest == [] || IsSpace(rest[0])
    ensures Words(w + rest) == [w] + Words(rest)
  {
    WordLenOfWord(w, rest);
    assert (w + rest)[..|w|] == w;
    assert (w + rest)[|w|..] == rest;
  }

  /// Splitting words that were joined by single spaces gives them back.
  lemma {:induction false} WordsOfJoin(ws: seq<string>)
    requires forall w :: w in ws ==> w != [] && forall i :: 0 <= i < |w| ==> !IsSpace(w[i])
    ensures Words(Join(ws, " ")) == ws
  {
    if |ws| == 1 {
      assert ws[0] + "" == ws[0];
      WordsOfWord(ws[0], "");
    } else if ws != [] {
      var rest := Join(ws[1..], " ");
      assert Words(" " + rest) == Words(rest) by {
        assert (" " + rest)[1..] == rest;
      }
      assert Words(Join(ws, " ")) == [ws[0]] + Words(rest) by {
        assert ws[0] in ws;
        WordsOfWord(ws[0], " " + rest);
        assert ws[0] + " " + rest == ws[0] + (" " + rest);
      }
      WordsOfJoin(ws[1..]);
      assert ws == [ws[0]] + ws[1..];
    }
  }

  function Concat(ws: seq<string>): string {
    if ws == [] then "" else ws[0] + Concat(ws[1..])
  }

  function NonSpace(s: string): string {
    if s == [] then "" else (if IsSpace(s[0]) then "" else [s[0]]) + NonSpace(s[1..])
  }

  lemma {:induction false} NonSpaceAppend(a: string, b: string)
    ensures NonSpace(a + b) == NonSpace(a) + NonSpace(b)
  {
    if a != [] {
      assert (a + b)[0] == a[0];
      assert (a + b)[1..] == a[1..] + b;
      NonSpaceAppend(a[1..], b);
    } else {
      assert a + b == b;
    }
  }

  lemma {:induction false} NonSpaceOfWord(w: string)
    requires forall i :: 0 <= i < |w| ==> !IsSpace(w[i])
    ensures NonSpace(w) == w
  {
    if w != [] {
      NonSpaceOfWord(w[1..]);
    }
  }

  /// Splitting on whitespace loses exactly the whitespace: the words,
  /// concatenated, are the input with its whitespace deleted.
  lemma {:induction false} WordsKeepNonSpace(s: string)
    ensures Concat(Words(s)) == NonSpace(s)
    decreases |s|
  {
    if s == [] {
    } else if IsSpace(s[0]) {
      WordsKeepNonSpace(s[1..]);
    } else {
      var n := WordLen(s);
      WordsKeepNonSpace(s[n..]);
      assert s == s[..n] + s[n..];
      NonSpaceAppend(s[..n], s[n..]);
      NonSpaceOfWord(s[..n]);
      assert Words(s) == [s[..n]] + Words(s[n..]);
      assert ([s[..n]] + Words(s[n..]))[1..] == Words(s[n..]);
    }
  }

  // ---------------------------------------------------------------------
  // Joining and splitting on a character
  // ---------------------------------------------------------------------

  /// Python's `sep.join(xs)`.
  function Join(xs: seq<string>, sep: string): string {
    if xs == [] then ""
    else if |xs| == 1 then xs[0]
    else xs[0] + sep + Join(xs[1..], sep)
  }

  /// Joining non-empty pieces gives the empty string only when there are
  /// no pieces.
  lemma JoinOfSolid(parts: seq<string>, sep: string)
    requires forall i :: 0 <= i < |parts| ==> parts[i] != ""
    ensures Join(parts, sep) == "" <==> parts == []
  {
    if |parts| > 1 {
      assert Join(parts, sep) == parts[0] + sep + Join(parts[1..], sep);
    }
  }

  function CountChar(s: string, c: char): nat {
    if s == [] then 0 else (if s[0] == c then 1 else 0) + CountChar(s[1..], c)
  }

  lemma {:induction false} CountCharAppend(a: string, b: string, c: char)
    ensures CountChar(a + b, c) == CountChar(a, c) + CountChar(b, c)
  {
    if a != [] {
      assert (a + b)[0] == a[0];
      assert (a + b)[1..] == a[1..] + b;
      CountCharAppend(a[1..], b, c);
    } else {
      assert a + b == b;
    }
  }

  lemma {:induction false} CountCharAbsent(s: string, c: char)
    requires c !in s
    ensures CountChar(s, c) == 0
  {
    if s != [] {
      assert s == [s[0]] + s[1..];
      CountCharAbsent(s[1..], c);
    }
  }

  /// Python's `s.split(c)` for a one-character separator: always one more
  /// piece than there are separators, and no piece contains the separator.
  function SplitChar(s: string, c: char): (r: seq<string>)
    ensures |r| == CountChar(s, c) + 1
    ensures forall piece :: piece in r ==> c !in piece
  {
    if s == [] then [""]
    else
      var rest := SplitChar(s[1..], c);
      if s[0] == c then [""] + rest
      else
        assert rest[0] in rest;
        assert forall piece :: piece in rest[1..] ==> piece in rest;
        [[s[0]] + rest[0]] + rest[1..]
  }

  /// Splitting then joining with the same separator gives back the input.
  lemma {:induction false} JoinSplit(s: string, c: char)
    ensures Join(SplitChar(s, c), [c]) == s
  {
    if s != [] {
      JoinSplit(s[1..], c);
      var rest := SplitChar(s[1..], c);
      if s[0] == c {
        assert SplitChar(s, c) == [""] + rest;
        assert ([""] + rest)[1..] == rest;
      } else {
        var r := [[s[0]] + rest[0]] + rest[1..];
        assert SplitChar(s, c) == r;
        if |rest| == 1 {
          assert rest == [rest[0]];
        } else {
          assert r[1..] == rest[1..];
          assert Join(rest, [c]) == rest[0] + [c] + Join(rest[1..], [c]);
        }
      }
    }
  }

  lemma {:induction false} SplitCharNoSeparator(a: string, c: char)
    requires c !in a
    ensures SplitChar(a, c) == [a]
  {
    if a != [] {
      assert a == [a[0]] + a[1..];
      SplitCharNoSeparator(a[1..], c);
      assert [a[0]] + a[1..] == a;
    }
  }

  lemma {:induction false} SplitCharAfterPiece(a: string, b: string, c: char)
    requires c !in a
    ensures SplitChar(a + [c] + b, c) == [a] + SplitChar(b, c)
  {
    if a == [] {
      assert a + [c] + b == [c] + b;
      assert ([c] + b)[1..] == b;
    } else {
      assert (a + [c] + b)[1..] == a[1..] + [c] + b;
      assert a == [a[0]] + a[1..];
      SplitCharAfterPiece(a[1..], b, c);
      assert [a[0]] + a[1..] == a;
    }
  }

  /// Joining pieces free of the separator and splitting again gives back
  /// the pieces: a joined list can be read back unambiguously.
  lemma {:induction false} SplitJoin(xs: seq<string>, c: char)
    requires |xs| >= 1
    requires forall x :: x in xs ==> c !in x
    ensures SplitChar(Join(xs, [c]), c) == xs
  {
    if |xs| == 1 {
      SplitCharNoSeparator(xs[0], c);
    } else {
      assert forall x :: x in xs[1..] ==> x in xs;
      SplitJoin(xs[1..], c);
      SplitCharAfterPiece(xs[0], Join(xs[1..], [c]), c);
      assert [xs[0]] + xs[1..] == xs;
    }
  }

  /// A character in none of the items nor the separator is not in their join.
  lemma {:induction false} CharNotInJoin(xs: seq<string>, sep: string, c: char)
    requires forall x :: x in xs ==> c !in x
    requires c !in sep
    ensures c !in Join(xs, sep)
  {
    if |xs| > 1 {
      assert forall x :: x in xs[1..] ==> x in xs;
      CharNotInJoin(xs[1..], sep, c);
    } else if |xs| == 1 {
      assert xs[0] in xs;
    }
  }

  /// Splitting on `c` a join made with `c` followed by one `pad` character
  /// gives back the items, each after the first carrying the pad in front.
  lemma {:induction false} SplitPaddedJoin(xs: seq<string>, c: char, pad: char, lead: string)
    requires |xs| >= 1
    requires forall x :: x in xs ==> c !in x
    requires c != pad && c !in lead
    ensures |SplitChar(lead + Join(xs, [c, pad]), c)| == |xs|
    ensures SplitChar(lead + Join(xs, [c, pad]), c)[0] == lead + xs[0]
    ensures forall i :: 1 <= i < |xs| ==> SplitChar(lead + Join(xs, [c, pad]), c)[i] == [pad] + xs[i]
  {
    assert c !in lead + xs[0] by {
      assert xs[0] in xs;
    }
    if |xs| == 1 {
      SplitCharNoSeparator(lead + xs[0], c);
      assert lead + Join(xs, [c, pad]) == lead + xs[0];
    } else {
      assert forall x :: x in xs[1..] ==> x in xs;
      SplitPaddedJoin(xs[1..], c, pad, [pad]);
      assert lead + Join(xs, [c, pad]) == (lead + xs[0]) + [c] + ([pad] + Join(xs[1..], [c, pad]));
      SplitCharAfterPiece(lead + xs[0], [pad] + Join(xs[1..], [c, pad]), c);
    }
  }

  /// Joining with ", " items that contain no comma puts exactly one comma
  /// between consecutive items.
  lemma {:induction false} CommaCountOfJoin(xs: seq<string>)
    requires forall x :: x in xs ==> ',' !in x
    ensures CountChar(Join(xs, ", "), ',') == if xs == [] then 0 else |xs| - 1
  {
    if xs == [] {
    } else if |xs| == 1 {
      CountCharAbsent(xs[0], ',');
    } else {
      assert forall x :: x in xs[1..] ==> x in xs;
      CommaCountOfJoin(xs[1..]);
      CountCharAbsent(xs[0], ',');
      CountCharAppend(xs[0] + ", ", Join(xs[1..], ", "), ',');
      CountCharAppend(xs[0], ", ", ',');
    }
  }

  // ---------------------------------------------------------------------
  // Decimal rendering
  // ---------------------------------------------------------------------

  function DigitChar(d: nat): char
    requires d < 10
  {
    ('0' as int + d) as char
  }

  /// Python's `str(n)` for a non-negative integer.
  function NatToString(n: nat): (r: string)
    ensures r != []
    ensures forall i :: 0 <= i < |r| ==> IsDigit(r[i])
  {
    if n < 10 then [DigitChar(n)] else NatToString(n / 10) + [DigitChar(n % 10)]
  }

  function ParseDigits(s: string): nat
    requires forall i :: 0 <= i < |s| ==> IsDigit(s[i])
  {
    if s == [] then 0
    else
      var d := s[|s| - 1];
      assert IsDigit(d);
      ParseDigits(s[..|s| - 1]) * 10 + (d as int - '0' as int)
  }

  /// The decimal rendering reads back as the number it renders.
  lemma {:induction false} NatToStringRoundTrip(n: nat)
    ensures ParseDigits(NatToString(n)) == n
  {
    if n >= 10 {
      NatToStringRoundTrip(n / 10);
      var r := NatToString(n / 10) + [DigitChar(n % 10)];
      assert r[..|r| - 1] == NatToString(n / 10);
    }
  }

  /// Digits contain neither a comma nor a line break.
  lemma DigitsHaveNoSeparators(n: nat)
    ensures ',' !in NatToString(n) && '\n' !in NatToString(n)
  {
  }
}
