/// The CSV cell parsers of the knowledge-graph builder (`UnicornKnowledgeGraph`
/// in data/build_kg.py). A missing cell (pandas NaN) is `None`.
module KgParse {
  import opened Wrappers
  import opened Seqs
  import opened Text

  /// The separator between a sector and its sub-sector, as in
  /// "Fintech - Payments".
  const SectorSeparator: string := " - "

  datatype SectorParts = SectorParts(sector: Option<string>, subsector: Option<string>)

  /// `parse_sector`: split at the first " - " only, stripping both parts.
  function ParseSector(cell: Option<string>): (r: SectorParts)
    ensures cell.None? ==> r == SectorParts(None, None)
    ensures cell.Some? ==> r.sector.Some?
    ensures r.subsector.Some? <==> cell.Some? && Contains(cell.value, SectorSeparator)
    ensures cell.Some? && r.subsector.None? ==> r.sector.value == StripSpace(cell.value)
    ensures r.subsector.Some? ==> exists i ::
      && 0 <= i && i + 3 <= |cell.value|
      && cell.value == cell.value[..i] + SectorSeparator + cell.value[i + 3..]
      && !Contains(cell.value[..i], SectorSeparator)
      && r.sector.value == StripSpace(cell.value[..i])
      && r.subsector.value == StripSpace(cell.value[i + 3..])
  {
    match cell
    case None => SectorParts(None, None)
    case Some(s) =>
      match FindFirst(s, SectorSeparator)
      case None => SectorParts(Some(StripSpace(s)), None)
      case Some(i) =>
        NoOccurrenceBefore(s, SectorSeparator, i);
        assert s == s[..i] + SectorSeparator + s[i + 3..];
        SectorParts(Some(StripSpace(s[..i])), Some(StripSpace(s[i + 3..])))
  }

  /// The part before the first occurrence of `p` does not contain `p`.
  lemma NoOccurrenceBefore(s: string, p: string, i: nat)
    requires |p| > 0 && i <= |s|
    requires forall j :: 0 <= j < i ==> !OccursAt(s, p, j)
    ensures !Contains(s[..i], p)
  {
    forall k | 0 <= k <= i - |p|
      ensures !OccursAt(s[..i], p, k)
    {
      assert k < i;
      assert !OccursAt(s, p, k);
      assert s[..i][k..k + |p|] == s[k..k + |p|];
    }
  }

  /// Stripping cannot create an occurrence of `p`.
  lemma StripKeepsAbsence(s: string, p: string)
    requires !Contains(s, p)
    ensures !Contains(StripSpace(s), p)
  {
    StripIsSubstring(s, Whitespace);
    if Contains(StripSpace(s), p) {
      ContainsTrans(s, StripSpace(s), p);
    }
  }

  /// The main sector never contains the separator: it is split off before
  /// the first one, or there is none at all.
  lemma MainSectorHasNoSeparator(cell: Option<string>)
    requires ParseSector(cell).sector.Some?
    ensures !Contains(ParseSector(cell).sector.value, SectorSeparator)
  {
    var s := cell.value;
    match FindFirst(s, SectorSeparator)
    case None =>
      StripKeepsAbsence(s, SectorSeparator);
    case Some(i) =>
      NoOccurrenceBefore(s, SectorSeparator, i);
      StripKeepsAbsence(s[..i], SectorSeparator);
  }

  /// A sector and sub-sector written as "main - sub" are read back as they
  /// were, provided neither has surrounding whitespace and no separator
  /// starts inside `main`.
  lemma {:induction false} SectorRoundTrip(main: string, sub: string)
    requires IsStripped(main, Whitespace) && IsStripped(sub, Whitespace)
    requires !Contains(main + " -", SectorSeparator)
    ensures ParseSector(Some(main + SectorSeparator + sub)) == SectorParts(Some(main), Some(sub))
  {
    var s := main + SectorSeparator + sub;
    assert OccursAt(s, SectorSeparator, |main|);
    var f := FindFirst(s, SectorSeparator);
    forall j | 0 <= j < |main|
      ensures !OccursAt(s, SectorSeparator, j)
    {
      assert !OccursAt(main + " -", SectorSeparator, j);
      assert s[j..j + 3] == (main + " -")[j..j + 3];
    }
    assert f == Some(|main|);
    assert s[..|main|] == main;
    assert s[|main| + 3..] == sub;
    StripOfStripped(main, Whitespace);
    StripOfStripped(sub, Whitespace);
  }

  /// A sector without the separator and without surrounding whitespace has
  /// no sub-sector and is kept whole.
  lemma PlainSectorRoundTrip(main: string)
    requires IsStripped(main, Whitespace)
    requires !Contains(main, SectorSeparator)
    ensures ParseSector(Some(main)) == SectorParts(Some(main), None)
  {
    StripOfStripped(main, Whitespace);
  }

  /// `parse_locations`: split on every '/', strip each piece, keep empty
  /// pieces.
  function ParseLocations(cell: Option<string>): (r: seq<string>)
    ensures cell.None? ==> r == []
    ensures cell.Some? ==> |r| == CountChar(cell.value, '/') + 1
    ensures forall i :: 0 <= i < |r| ==> '/' !in r[i] && IsStripped(r[i], Whitespace)
  {
    match cell
    case None => []
    case Some(s) =>
      var pieces := SplitChar(s, '/');
      var r := Map(pieces, StripSpace);
      forall i | 0 <= i < |r|
        ensures '/' !in r[i] && IsStripped(r[i], Whitespace)
      {
        assert pieces[i] in pieces;
        StripSpaceFacts(pieces[i]);
      }
      r
  }

  /// Cities joined with '/' are read back as they were.
  lemma LocationsRoundTrip(cities: seq<string>)
    requires |cities| >= 1
    requires forall city :: city in cities ==> '/' !in city && IsStripped(city, Whitespace)
    ensures ParseLocations(Some(Join(cities, "/"))) == cities
  {
    SplitJoin(cities, '/');
    StripEach(cities);
  }

  /// Stripping items that have no surrounding whitespace changes none.
  lemma StripEach(xs: seq<string>)
    requires forall x :: x in xs ==> IsStripped(x, Whitespace)
    ensures Map(xs, StripSpace) == xs
  {
    var r := Map(xs, StripSpace);
    forall i | 0 <= i < |xs|
      ensures r[i] == xs[i]
    {
      assert xs[i] in xs;
      StripOfStripped(xs[i], Whitespace);
    }
  }

  predicate NonEmpty(s: string) { s != [] }

  /// The comma-separated pieces of an investors cell, each stripped.
  function InvestorPieces(s: string): (r: seq<string>)
    ensures |r| == CountChar(Strip(s, {'"'}), ',') + 1
    ensures forall i :: 0 <= i < |r| ==> ',' !in r[i] && IsStripped(r[i], Whitespace)
  {
    var pieces := SplitChar(Strip(s, {'"'}), ',');
    var r := Map(pieces, StripSpace);
    forall i | 0 <= i < |r|
      ensures ',' !in r[i] && IsStripped(r[i], Whitespace)
    {
      assert pieces[i] in pieces;
      StripSpaceFacts(pieces[i]);
    }
    r
  }

  /// `parse_investors`: strip double quotes from the ends, split on ',',
  /// strip each name and drop the empty ones.
  function ParseInvestors(cell: Option<string>): (r: seq<string>)
    ensures cell.None? ==> r == []
    ensures cell.Some? ==> |r| <= CountChar(Strip(cell.value, {'"'}), ',') + 1
    ensures forall name :: name in r ==> name != [] && ',' !in name && IsStripped(name, Whitespace)
    ensures cell.Some? ==> forall i :: 0 <= i < |InvestorPieces(cell.value)| && InvestorPieces(cell.value)[i] != [] ==> InvestorPieces(cell.value)[i] in r
    ensures cell.Some? ==> forall name :: name in r ==> name in InvestorPieces(cell.value)
  {
    match cell
    case None => []
    case Some(s) =>
      ParsedNamesClean(s);
      NonEmptyPiecesKept(InvestorPieces(s));
      Filter(InvestorPieces(s), NonEmpty)
  }

  /// The names come out in the order of their pieces in the cell: name k
  /// is the piece at position `at[k]`, the positions increase, and every
  /// non-empty piece has its position among them.
  lemma InvestorsInCellOrder(s: string) returns (at: seq<nat>)
    ensures |at| == |ParseInvestors(Some(s))|
    ensures forall k :: 0 <= k < |at| ==> at[k] < |InvestorPieces(s)| && InvestorPieces(s)[at[k]] == ParseInvestors(Some(s))[k]
    ensures forall k, l :: 0 <= k < l < |at| ==> at[k] < at[l]
    ensures forall i :: 0 <= i < |InvestorPieces(s)| && InvestorPieces(s)[i] != [] ==> i in at
  {
    at := FilterPositions(InvestorPieces(s), NonEmpty);
  }

  /// The names kept from an investors cell are non-empty pieces.
  lemma ParsedNamesClean(s: string)
    ensures forall name :: name in Filter(InvestorPieces(s), NonEmpty) ==> name != [] && ',' !in name && IsStripped(name, Whitespace)
  {
    var names := InvestorPieces(s);
    forall name | name in Filter(names, NonEmpty)
      ensures name != [] && ',' !in name && IsStripped(name, Whitespace)
    {
      var i :| 0 <= i < |names| && names[i] == name;
    }
  }

  /// Every non-empty piece of an investors cell is kept.
  lemma NonEmptyPiecesKept(names: seq<string>)
    ensures forall i :: 0 <= i < |names| && names[i] != [] ==> names[i] in Filter(names, NonEmpty)
  {
    forall i | 0 <= i < |names| && names[i] != []
      ensures names[i] in Filter(names, NonEmpty)
    {
      assert names[i] in names && NonEmpty(names[i]);
    }
  }

  /// Names joined with ", " as in the dataset are read back as they were.
  lemma InvestorsRoundTrip(names: seq<string>)
    requires |names| >= 1
    requires forall name :: name in names ==> name != [] && ',' !in name && '"' !in name && IsStripped(name, Whitespace)
    ensures ParseInvestors(Some(Join(names, ", "))) == names
  {
    InvestorPiecesOfJoin(names);
    FilterKeepsAll(names, NonEmpty);
  }

  lemma InvestorPiecesOfJoin(names: seq<string>)
    requires |names| >= 1
    requires forall name :: name in names ==> ',' !in name && '"' !in name && IsStripped(name, Whitespace)
    ensures InvestorPieces(Join(names, ", ")) == names
  {
    var s := Join(names, ", ");
    QuotesNotStripped(names);
    CommaSpaceSplit(names);
    StripPaddedPieces(SplitChar(s, ','), names);
  }

  /// Splitting a ", "-join on ',' leaves a blank in front of every name
  /// but the first.
  lemma CommaSpaceSplit(names: seq<string>)
    requires |names| >= 1
    requires forall name :: name in names ==> ',' !in name
    ensures |SplitChar(Join(names, ", "), ',')| == |names|
    ensures SplitChar(Join(names, ", "), ',')[0] == names[0]
    ensures forall i :: 1 <= i < |names| ==> SplitChar(Join(names, ", "), ',')[i] == [' '] + names[i]
  {
    SplitPaddedJoin(names, ',', ' ', "");
    assert "" + Join(names, ", ") == Join(names, ", ");
    assert "" + names[0] == names[0];
  }

  /// Stripping the pieces of a ", "-join drops the blank after each comma.
  lemma StripPaddedPieces(pieces: seq<string>, names: seq<string>)
    requires |pieces| == |names| >= 1
    requires pieces[0] == names[0]
    requires forall i :: 1 <= i < |names| ==> pieces[i] == [' '] + names[i]
    requires forall name :: name in names ==> IsStripped(name, Whitespace)
    ensures Map(pieces, StripSpace) == names
  {
    forall i | 0 <= i < |names|
      ensures IsStripped(names[i], Whitespace)
    {
      assert names[i] in names;
    }
    var r := Map(pieces, StripSpace);
    assert |r| == |names|;
    forall i | 0 <= i < |names|
      ensures r[i] == names[i]
    {
      assert r[i] == StripSpace(pieces[i]);
      StripPaddedPiece(pieces[i], names[i], i > 0);
    }
  }

  lemma StripPaddedPiece(piece: string, name: string, padded: bool)
    requires piece == if padded then [' '] + name else name
    requires IsStripped(name, Whitespace)
    ensures StripSpace(piece) == name
  {
    if padded {
      StripAfterPrefix(' ', name, Whitespace);
    }
    StripOfStripped(name, Whitespace);
  }

  /// Stripping quotes from a join of names without quotes changes nothing.
  lemma QuotesNotStripped(names: seq<string>)
    requires forall name :: name in names ==> '"' !in name
    ensures Strip(Join(names, ", "), {'"'}) == Join(names, ", ")
  {
    var s := Join(names, ", ");
    CharNotInJoin(names, ", ", '"');
    if s != [] {
      assert s[0] in s && s[|s| - 1] in s;
    }
    StripOfStripped(s, {'"'});
  }

  lemma {:induction false} FilterKeepsAll<T(!new)>(s: seq<T>, p: T -> bool)
    requires forall x :: x in s ==> p(x)
    ensures Filter(s, p) == s
  {
    if s != [] {
      var init := s[..|s| - 1];
      assert s == init + [s[|s| - 1]];
      assert forall x :: x in init ==> x in s;
      FilterKeepsAll(init, p);
    }
  }

  /// `parse_entry_date`: the stripped cell, or `None` when it is missing.
  function ParseEntryDate(cell: Option<string>): (r: Option<string>)
    ensures r.Some? <==> cell.Some?
    ensures r.Some? ==> IsStripped(r.value, Whitespace) && exists a :: TrimmedAt(cell.value, r.value, a, Whitespace)
  {
    match cell
    case None => None
    case Some(s) =>
      StripSpaceFacts(s);
      Some(StripSpace(s))
  }

  /// The parsed date is the cell with its surrounding whitespace removed,
  /// and no other string: any whitespace-trimming of the cell with clean
  /// ends is the parsed value.
  lemma EntryDateIsTrimmedCell(cell: string, r: string, a: int)
    requires IsStripped(r, Whitespace) && TrimmedAt(cell, r, a, Whitespace)
    ensures ParseEntryDate(Some(cell)) == Some(r)
  {
    StrippedTrimIsStrip(cell, r, a, Whitespace);
  }

  /// Parsing an already parsed entry date changes nothing.
  lemma EntryDateIdempotent(cell: Option<string>)
    ensures ParseEntryDate(ParseEntryDate(cell)) == ParseEntryDate(cell)
  {
    if cell.Some? {
      StripIdempotent(cell.value, Whitespace);
    }
  }
}
