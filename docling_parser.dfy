/**
 * The Docling back-end (parsers/docling_parser.py): the Markdown Docling exports is
 * cut in front of every level-1 or level-2 heading line, each piece is stripped,
 * blank pieces are dropped, and each remaining piece becomes one section document.
 */
module DoclingParser {
  import opened Wrappers
  import opened Py
  import opened Text
  import opened ParserBase
  import Filter

  /** A section: its heading text ("" when it has none) and its stripped Markdown. */
  datatype Section = Section(title: string, content: string)

  const SupportedExtensions: set<string> := {".pdf", ".docx", ".pptx", ".html"}

  /** `supports(file_type)` over the extensions above. */
  function Supports(fileType: string): bool {
    SupportsAny(SupportedExtensions, fileType)
  }

  /** Whitespace that `\s` matches without leaving the line. */
  predicate IsLineSpace(c: char) {
    IsSpace(c) && c != '\n'
  }

  /** Position p starts a line: `^` matches there in multi-line mode. */
  predicate LineStart(s: string, p: nat)
    requires p <= |s|
  {
    p == 0 || s[p - 1] == '\n'
  }

  /**
   * `^#{1,2}\s+.+$` matches on the line that starts at p: one or two '#', then
   * whitespace, then at least one more character of the same line.
   */
  predicate HeadingAt(s: string, p: nat)
    requires p <= |s|
  {
    && LineStart(s, p)
    && p < |s| && s[p] == '#'
    && (|| (p + 2 < |s| && IsLineSpace(s[p + 1]) && s[p + 2] != '\n')
        || (p + 3 < |s| && s[p + 1] == '#' && IsLineSpace(s[p + 2]) && s[p + 3] != '\n'))
  }

  /** A line opening with three '#' is a level-3 heading and is never a cut point. */
  lemma ThreeHashesDoNotSplit(s: string, p: nat)
    requires p + 3 <= |s| && s[p..p + 3] == "###"
    ensures !HeadingAt(s, p)
  {
    assert s[p + 1] == '#' && s[p + 2] == '#';
  }

  /**
   * `re.split(r"(?=^#{1,2}\s+.+$)", s[start..], flags=re.MULTILINE)` with the scan
   * at position i: a piece ends in front of every heading line.
   */
  function PartsFrom(s: string, start: nat, i: nat): seq<string>
    requires start <= i <= |s|
    decreases |s| - i
  {
    if i == |s| then [s[start..]]
    else if HeadingAt(s, i) then [s[start..i]] + PartsFrom(s, i, i + 1)
    else PartsFrom(s, start, i + 1)
  }

  /** The pieces `re.split` cuts the Markdown into (a heading at 0 gives an empty first piece). */
  function Parts(s: string): seq<string> {
    PartsFrom(s, 0, 0)
  }

  function Concat(parts: seq<string>): string {
    if parts == [] then "" else parts[0] + Concat(parts[1..])
  }

  /** Where the k-th piece starts. */
  function Offset(parts: seq<string>, k: nat): nat
    requires k <= |parts|
  {
    |Concat(parts[..k])|
  }

  /** No heading line starts strictly between a and b. */
  predicate NoHeadingIn(s: string, a: nat, b: nat)
    requires a <= b <= |s|
  {
    forall p | a < p < b :: !HeadingAt(s, p)
  }

  lemma OffsetCons(a: string, rest: seq<string>, k: nat)
    requires 1 <= k <= |rest| + 1
    ensures Offset([a] + rest, k) == |a| + Offset(rest, k - 1)
  {
    assert ([a] + rest)[..k] == [a] + rest[..k - 1];
    assert ([a] + rest[..k - 1])[1..] == rest[..k - 1];
  }

  lemma ConcatCons(a: string, rest: seq<string>)
    ensures Concat([a] + rest) == a + Concat(rest)
  {
    assert ([a] + rest)[1..] == rest;
  }

  /** The piece at o lies inside s and no heading line starts strictly inside it. */
  predicate CleanPiece(s: string, o: nat, piece: string) {
    o + |piece| <= |s| && NoHeadingIn(s, o, o + |piece|)
  }

  /** A heading line starts at o. */
  predicate CutPoint(s: string, o: nat) {
    o <= |s| && HeadingAt(s, o)
  }

  /**
   * The pieces `ps` of s[start..] are cut exactly at heading lines: they concatenate back,
   * every piece but the first starts on a heading line, and no heading line starts
   * strictly inside a piece.
   */
  predicate CutAtHeadings(s: string, start: nat, ps: seq<string>)
    requires start <= |s|
  {
    && ps != []
    && Concat(ps) == s[start..]
    && (forall k | 0 <= k < |ps| :: CleanPiece(s, start + Offset(ps, k), ps[k]))
    && (forall k | 0 < k < |ps| :: CutPoint(s, start + Offset(ps, k)))
  }

  /** Cutting in front of a heading line at i extends a correct cut of s[i..] to one of s[start..]. */
  lemma CutBeforeHeading(s: string, start: nat, i: nat, rest: seq<string>)
    requires start <= i < |s| && HeadingAt(s, i) && NoHeadingIn(s, start, i)
    requires CutAtHeadings(s, i, rest)
    ensures CutAtHeadings(s, start, [s[start..i]] + rest)
  {
    ConcatPrepend(s, start, i, rest);
    PrependClean(s, start, i, rest);
    assert CutPoint(s, i);
    PrependCuts(s, start, i, rest);
  }

  lemma PrependClean(s: string, start: nat, i: nat, rest: seq<string>)
    requires start <= i <= |s| && NoHeadingIn(s, start, i)
    requires forall k | 0 <= k < |rest| :: CleanPiece(s, i + Offset(rest, k), rest[k])
    ensures forall k | 0 <= k < |rest| + 1 :: CleanPiece(s, start + Offset([s[start..i]] + rest, k), ([s[start..i]] + rest)[k])
  {
    PrependPieceClean(start, s[start..i], rest, (o: nat, p: string) => CleanPiece(s, o, p));
  }

  lemma PrependCuts(s: string, start: nat, i: nat, rest: seq<string>)
    requires start <= i <= |s| && CutPoint(s, i)
    requires forall k | 0 < k < |rest| :: CutPoint(s, i + Offset(rest, k))
    ensures forall k | 0 < k < |rest| + 1 :: CutPoint(s, start + Offset([s[start..i]] + rest, k))
  {
    PrependPieceCut(start, s[start..i], rest, (o: nat) => CutPoint(s, o));
  }

  lemma ConcatPrepend(s: string, start: nat, i: nat, rest: seq<string>)
    requires start <= i <= |s| && Concat(rest) == s[i..]
    ensures Concat([s[start..i]] + rest) == s[start..]
  {
    ConcatCons(s[start..i], rest);
    assert s[start..i] + s[i..] == s[start..];
  }

  /** A property of each piece at its offset carries over from `rest` at i to [first] + rest at i - |first|. */
  lemma PrependPieceClean(start: nat, first: string, rest: seq<string>, clean: (nat, string) -> bool)
    requires clean(start, first)
    requires forall k | 0 <= k < |rest| :: clean(start + |first| + Offset(rest, k), rest[k])
    ensures forall k | 0 <= k < |rest| + 1 :: clean(start + Offset([first] + rest, k), ([first] + rest)[k])
  {
    var ps := [first] + rest;
    assert ps[..0] == [];
    forall k | 1 <= k < |ps|
      ensures start + Offset(ps, k) == start + |first| + Offset(rest, k - 1) && ps[k] == rest[k - 1]
    {
      OffsetCons(first, rest, k);
    }
  }

  /** A property of each offset past the first carries over in the same way. */
  lemma PrependPieceCut(start: nat, first: string, rest: seq<string>, cut: nat -> bool)
    requires cut(start + |first|)
    requires forall k | 0 < k < |rest| :: cut(start + |first| + Offset(rest, k))
    ensures forall k | 0 < k < |rest| + 1 :: cut(start + Offset([first] + rest, k))
  {
    var ps := [first] + rest;
    forall k | 1 <= k < |ps|
      ensures start + Offset(ps, k) == start + |first| + Offset(rest, k - 1)
    {
      OffsetCons(first, rest, k);
    }
    assert Offset(rest, 0) == 0;
  }

  /** The last piece runs to the end of the text. */
  lemma CutAtEnd(s: string, start: nat)
    requires start <= |s| && NoHeadingIn(s, start, |s|)
    ensures CutAtHeadings(s, start, [s[start..]])
  {
    assert Offset([s[start..]], 0) == 0;
    assert Concat([s[start..]]) == s[start..] + Concat([]);
  }

  lemma {:induction false} PartsFromSpec(s: string, start: nat, i: nat)
    requires start <= i <= |s|
    requires NoHeadingIn(s, start, i)
    ensures CutAtHeadings(s, start, PartsFrom(s, start, i))
    decreases |s| - i
  {
    if i == |s| {
      CutAtEnd(s, start);
    } else if HeadingAt(s, i) {
      PartsFromSpec(s, i, i + 1);
      CutBeforeHeading(s, start, i, PartsFrom(s, i, i + 1));
    } else {
      PartsFromSpec(s, start, i + 1);
    }
  }

  /** The pieces of the whole text are cut at its heading lines; a heading at 0 leaves an empty first piece. */
  lemma PartsSpec(s: string)
    ensures CutAtHeadings(s, 0, Parts(s))
    ensures |s| > 0 && HeadingAt(s, 0) ==> Parts(s)[0] == ""
  {
    PartsFromSpec(s, 0, 0);
    assert s[0..] == s;
  }

  /** A text with no heading line is one piece. */
  lemma NoHeadingOnePart(s: string)
    requires forall p | 0 <= p < |s| :: !HeadingAt(s, p)
    ensures Parts(s) == [s]
  {
    forall i | 0 <= i <= |s| ensures PartsFrom(s, 0, i) == [s] {
      NoHeadingOnePartFrom(s, i);
    }
  }

  lemma {:induction false} NoHeadingOnePartFrom(s: string, i: nat)
    requires i <= |s|
    requires forall p | 0 <= p < |s| :: !HeadingAt(s, p)
    ensures PartsFrom(s, 0, i) == [s]
    decreases |s| - i
  {
    if i < |s| {
      NoHeadingOnePartFrom(s, i + 1);
    }
  }

  // ---------------------------------------------------------------------------
  // Titles: `re.match(r"^(#{1,2})\s+(.+)$", part, re.MULTILINE)`
  // ---------------------------------------------------------------------------

  /** The index of the first newline at or after i, or |s|. */
  function LineEnd(s: string, i: nat): (e: nat)
    requires i <= |s|
    ensures i <= e <= |s|
    ensures forall j | i <= j < e :: s[j] != '\n'
    ensures e < |s| ==> s[e] == '\n'
    decreases |s| - i
  {
    if i == |s| || s[i] == '\n' then i else LineEnd(s, i + 1)
  }

  /** The first index at or after i that does not hold whitespace, or |s|. */
  function SkipSpace(s: string, i: nat): (e: nat)
    requires i <= |s|
    ensures i <= e <= |s|
    ensures forall j | i <= j < e :: IsSpace(s[j])
    ensures e < |s| ==> !IsSpace(s[e])
    decreases |s| - i
  {
    if i == |s| || !IsSpace(s[i]) then i else SkipSpace(s, i + 1)
  }

  /**
   * Group 2 of the title pattern on the first line of a piece, or "" when it does not match.
   * `\s+` is greedy, so the title starts at the first non-space after the hashes; when the
   * rest of the line is all whitespace, `.+` takes back its last character.
   */
  function TitleOf(part: string): (t: string)
    ensures t != "" ==> |part| >= 3 && part[0] == '#'
    ensures '\n' !in t
  {
    var line := part[..LineEnd(part, 0)];
    if |line| >= 3 && line[0] == '#' then
      var k := if line[1] == '#' then 2 else 1;
      if k + 1 < |line| && IsSpace(line[k]) then
        var m := SkipSpace(line, k);
        var from := if m < |line| then m else |line| - 1;
        assert forall j | from <= j < |line| :: line[j] == part[j];
        line[from..]
      else ""
    else ""
  }

  /** A piece not opening with '#' has no title. */
  lemma TitleOfPlain(part: string)
    requires part == [] || part[0] != '#'
    ensures TitleOf(part) == ""
  {
  }

  /**
   * A piece opening with a level-1 or level-2 heading line is titled with the text after
   * the hashes and the whitespace, up to the end of that line.
   */
  lemma TitleOfHeading(hashes: string, space: string, text: string, rest: string)
    requires hashes == "#" || hashes == "##"
    requires space != [] && forall j | 0 <= j < |space| :: IsLineSpace(space[j])
    requires text != [] && !IsSpace(text[0]) && '\n' !in text
    requires rest == [] || rest[0] == '\n'
    ensures TitleOf(hashes + space + text + rest) == text
  {
    var line := hashes + space + text;
    HeadingLineEnd(line, rest);
    HeadingLineParts(hashes, space, text);
    var k := |hashes|;
    assert k == (if line[1] == '#' then 2 else 1);
  }

  /** The first line of line + rest is `line` when `line` has no newline and rest starts a new line. */
  lemma HeadingLineEnd(line: string, rest: string)
    requires '\n' !in line
    requires rest == [] || rest[0] == '\n'
    ensures LineEnd(line + rest, 0) == |line| && (line + rest)[..|line|] == line
  {
    var part := line + rest;
    assert forall j | 0 <= j < |line| :: part[j] == line[j];
    LineEndIs(part, 0, |line|);
  }

  /** On the heading line the whitespace after the hashes ends where the text starts. */
  lemma HeadingLineParts(hashes: string, space: string, text: string)
    requires hashes == "#" || hashes == "##"
    requires space != [] && forall j | 0 <= j < |space| :: IsLineSpace(space[j])
    requires text != [] && !IsSpace(text[0])
    ensures var line := hashes + space + text;
      && |line| >= 3 && line[0] == '#' && (line[1] == '#' <==> hashes == "##")
      && IsSpace(line[|hashes|]) && SkipSpace(line, |hashes|) == |hashes| + |space| < |line|
      && line[|hashes| + |space|..] == text
  {
    var line := hashes + space + text;
    assert line[|hashes|] == space[0];
    assert line[1] == (if hashes == "##" then '#' else space[0]);
    SkipSpaceIs(line, |hashes|, |hashes| + |space|);
    assert line[|hashes| + |space|..] == text;
  }

  lemma {:induction false} LineEndIs(s: string, i: nat, e: nat)
    requires i <= e <= |s|
    requires forall j | i <= j < e :: s[j] != '\n'
    requires e < |s| ==> s[e] == '\n'
    ensures LineEnd(s, i) == e
    decreases e - i
  {
    if i < e {
      LineEndIs(s, i + 1, e);
    }
  }

  lemma {:induction false} SkipSpaceIs(s: string, i: nat, e: nat)
    requires i <= e <= |s|
    requires forall j | i <= j < e :: IsSpace(s[j])
    requires e < |s| ==> !IsSpace(s[e])
    ensures SkipSpace(s, i) == e
    decreases e - i
  {
    if i < e {
      SkipSpaceIs(s, i + 1, e);
    }
  }

  // ---------------------------------------------------------------------------
  // `_split_by_sections`
  // ---------------------------------------------------------------------------

  /** The section a non-blank piece becomes. */
  function SectionOf(part: string): Section {
    Section(TitleOf(Strip(part)), Strip(part))
  }

  /** The pieces the loop keeps: `part.strip()` is non-empty, that is, the piece is not all whitespace (StripEmptyIffBlank). */
  predicate NonBlank(part: string) {
    !IsBlank(part)
  }

  /** The sections the loop collects from the pieces: the non-blank ones, stripped, in order. */
  function Kept(parts: seq<string>): seq<Section> {
    Filter.FilterMap(parts, NonBlank, SectionOf)
  }

  /** What `_split_by_sections(content)` returns. */
  function Sections(content: string): seq<Section> {
    var kept := Kept(Parts(content));
    if kept == [] then [Section("", content)] else kept
  }

  /** `_split_by_sections(content)` */
  method SplitBySections(content: string) returns (sections: seq<Section>)
    ensures sections == Sections(content)
  {
    var parts := Parts(content);
    sections := [];
    var i := 0;
    while i < |parts|
      invariant 0 <= i <= |parts|
      invariant sections == Kept(parts[..i])
    {
      assert parts[..i + 1] == parts[..i] + [parts[i]];
      Filter.FilterMapSnoc(parts[..i], parts[i], NonBlank, SectionOf);
      StripEmptyIffBlank(parts[i]);
      var part := Strip(parts[i]);
      if part != "" {
        var title := TitleOf(part);
        sections := sections + [Section(title, part)];
      }
      i := i + 1;
    }
    assert parts[..i] == parts;
    if sections == [] {
      sections := [Section("", content)];
    }
  }

  /** Which pieces were kept, by position. */
  function KeptIndices(parts: seq<string>): seq<nat> {
    Filter.KeptIndices(parts, NonBlank)
  }

  /** Each kept section is the stripped piece at the matching index. */
  lemma KeptIndicesMatch(parts: seq<string>)
    ensures |KeptIndices(parts)| == |Kept(parts)|
    ensures forall j | 0 <= j < |KeptIndices(parts)| ::
      KeptIndices(parts)[j] < |parts| && Kept(parts)[j] == SectionOf(parts[KeptIndices(parts)[j]])
      && !IsBlank(parts[KeptIndices(parts)[j]])
  {
    Filter.KeptIndicesMatch(parts, NonBlank, SectionOf);
  }

  /** The kept indices increase, so sections keep the order of their pieces. */
  lemma KeptIndicesIncrease(parts: seq<string>)
    ensures forall j | 0 <= j < |KeptIndices(parts)| :: KeptIndices(parts)[j] < |parts|
    ensures forall j | 0 <= j < |KeptIndices(parts)| - 1 :: KeptIndices(parts)[j] < KeptIndices(parts)[j + 1]
  {
    Filter.KeptIndicesIncrease(parts, NonBlank);
  }

  /** A piece that was not kept is blank. */
  lemma UnkeptAreBlank(parts: seq<string>)
    ensures forall k | 0 <= k < |parts| && k !in KeptIndices(parts) :: IsBlank(parts[k])
  {
    Filter.UnkeptFail(parts, NonBlank);
  }

  /** Every section is non-empty and stripped, except the single fallback section. */
  lemma SectionsStripped(content: string)
    ensures var secs := Sections(content);
      && secs != []
      && (secs == [Section("", content)]
          || forall j | 0 <= j < |secs| :: secs[j].content != "" && Strip(secs[j].content) == secs[j].content)
  {
    var parts := Parts(content);
    KeptIndicesMatch(parts);
    var secs := Sections(content);
    if Kept(parts) != [] {
      forall j | 0 <= j < |secs| ensures secs[j].content != "" && Strip(secs[j].content) == secs[j].content {
        var p := parts[KeptIndices(parts)[j]];
        StripEmptyIffBlank(p);
        StripIsPiece(p);
        StripTrimmed(Strip(p));
      }
    }
  }

  lemma {:induction false} ConcatBlank(parts: seq<string>)
    requires forall k | 0 <= k < |parts| :: IsBlank(parts[k])
    ensures IsBlank(Concat(parts))
    decreases |parts|
  {
    if parts != [] {
      assert parts[1..][0..] == parts[1..];
      ConcatBlank(parts[1..]);
      var c := Concat(parts);
      assert c == parts[0] + Concat(parts[1..]);
      assert forall i | 0 <= i < |c| :: IsSpace(c[i]) by {
        forall i | 0 <= i < |c| ensures IsSpace(c[i]) {
          if i < |parts[0]| { assert c[i] == parts[0][i]; }
          else { assert c[i] == Concat(parts[1..])[i - |parts[0]|]; }
        }
      }
    }
  }

  /** The k-th piece sits in the concatenation at its offset. */
  lemma ConcatPiece(parts: seq<string>, k: nat)
    requires k < |parts|
    ensures Offset(parts, k) + |parts[k]| <= |Concat(parts)|
    ensures Concat(parts)[Offset(parts, k)..Offset(parts, k) + |parts[k]|] == parts[k]
  {
    var pre, mid, post := parts[..k], parts[k], parts[k + 1..];
    assert parts == pre + [mid] + post;
    ConcatSplit(pre + [mid], post);
    ConcatSplit(pre, [mid]);
    assert Concat([mid]) == mid + Concat([]);
  }

  /** The next piece starts where the k-th ends. */
  lemma OffsetNext(parts: seq<string>, k: nat)
    requires k < |parts|
    ensures Offset(parts, k + 1) == Offset(parts, k) + |parts[k]|
  {
    assert parts[..k + 1] == parts[..k] + [parts[k]];
    ConcatSplit(parts[..k], [parts[k]]);
    assert Concat([parts[k]]) == parts[k] + Concat([]);
  }

  lemma {:induction false} ConcatSplit(a: seq<string>, b: seq<string>)
    ensures Concat(a + b) == Concat(a) + Concat(b)
    decreases |a|
  {
    if a != [] {
      ConcatSplit(a[1..], b);
      assert (a + b)[1..] == a[1..] + b;
    } else {
      assert a + b == b;
    }
  }

  /** When no piece is kept, the text is blank. */
  lemma NothingKeptIsBlank(content: string)
    requires Kept(Parts(content)) == []
    ensures IsBlank(content)
  {
    var parts := Parts(content);
    PartsSpec(content);
    KeptIndicesMatch(parts);
    assert KeptIndices(parts) == [];
    UnkeptAreBlank(parts);
    ConcatBlank(parts);
  }

  /** The pieces concatenate back to the text. */
  lemma PartsConcat(content: string)
    ensures Concat(Parts(content)) == content
  {
    PartsSpec(content);
  }

  /** A concatenation with a non-blank piece is not blank. */
  lemma PieceNotBlank(parts: seq<string>, k: nat)
    requires k < |parts| && !IsBlank(parts[k])
    ensures !IsBlank(Concat(parts))
  {
    ConcatPiece(parts, k);
    InsideNotBlank(Concat(parts), Offset(parts, k), parts[k]);
  }

  /** A string holding a non-blank piece is not blank. */
  lemma InsideNotBlank(c: string, off: nat, p: string)
    requires off + |p| <= |c| && c[off..off + |p|] == p && !IsBlank(p)
    ensures !IsBlank(c)
  {
    var i :| 0 <= i < |p| && !IsSpace(p[i]);
    assert c[off + i] == p[i];
  }

  /** A kept piece holds a non-space character of the text. */
  lemma KeptIsNotBlank(content: string)
    requires Kept(Parts(content)) != []
    ensures !IsBlank(content)
  {
    var parts := Parts(content);
    PartsConcat(content);
    KeptIndicesMatch(parts);
    PieceNotBlank(parts, KeptIndices(parts)[0]);
  }

  /** Only a blank text falls back to the single untitled section holding the whole text. */
  lemma FallbackIffBlank(content: string)
    ensures Sections(content) == [Section("", content)] && Kept(Parts(content)) == [] <==> IsBlank(content)
  {
    if Kept(Parts(content)) == [] {
      NothingKeptIsBlank(content);
    } else if IsBlank(content) {
      KeptIsNotBlank(content);
    }
  }

  /** Offsets grow with the index. */
  lemma OffsetMonotone(parts: seq<string>, a: nat, b: nat)
    requires a <= b <= |parts|
    ensures Offset(parts, a) <= Offset(parts, b)
  {
    assert parts[..b] == parts[..a] + parts[a..b];
    ConcatSplit(parts[..a], parts[a..b]);
  }

  /** A slice of a slice is a slice of the whole. */
  lemma SliceOfSlice(c: string, off: nat, p: string, a: nat, b: nat)
    requires off + |p| <= |c| && c[off..off + |p|] == p && a <= b <= |p|
    ensures c[off + a..off + b] == p[a..b]
  {
    assert forall i | a <= i < b :: c[off + i] == p[i];
  }

  /** A piece of a piece of c is a piece of c. */
  lemma OccursInside(c: string, off: nat, p: string, a: nat, q: string)
    requires off + |p| <= |c| && c[off..off + |p|] == p
    requires a + |q| <= |p| && q == p[a..a + |q|]
    ensures OccursAt(c, q, off + a) && off + a + |q| <= off + |p|
  {
    SliceOfSlice(c, off, p, a, a + |q|);
  }

  /** The stripped k-th piece sits in the concatenation inside the k-th piece. */
  lemma StrippedPieceAt(parts: seq<string>, k: nat)
    requires k < |parts|
    ensures var at := Offset(parts, k) + StripStart(parts[k]);
      OccursAt(Concat(parts), Strip(parts[k]), at) && at + |Strip(parts[k])| <= Offset(parts, k) + |parts[k]|
  {
    StripIsPiece(parts[k]);
    SubPieceAt(parts, k, StripStart(parts[k]), Strip(parts[k]));
  }

  /** A slice of the k-th piece sits in the concatenation at the same place inside that piece. */
  lemma SubPieceAt(parts: seq<string>, k: nat, a: nat, q: string)
    requires k < |parts| && a + |q| <= |parts[k]| && q == parts[k][a..a + |q|]
    ensures OccursAt(Concat(parts), q, Offset(parts, k) + a) && Offset(parts, k) + a + |q| <= Offset(parts, k) + |parts[k]|
  {
    ConcatPiece(parts, k);
    OccursInside(Concat(parts), Offset(parts, k), parts[k], a, q);
  }

  /** The strip of an earlier piece ends before the strip of a later one starts. */
  lemma StrippedPiecesOrdered(parts: seq<string>, k: nat, k': nat)
    requires k < k' < |parts|
    ensures Offset(parts, k) + StripStart(parts[k]) + |Strip(parts[k])| <= Offset(parts, k') + StripStart(parts[k'])
  {
    StripIsPiece(parts[k]);
    OffsetNext(parts, k);
    OffsetMonotone(parts, k + 1, k');
  }

  /** Where each kept section starts in the concatenation of the pieces. */
  function KeptStarts(parts: seq<string>): seq<nat> {
    var idx := KeptIndices(parts);
    seq(|idx|, j requires 0 <= j < |idx| =>
      if idx[j] < |parts| then Offset(parts, idx[j]) + StripStart(parts[idx[j]]) else 0)
  }

  lemma KeptStartAt(parts: seq<string>, j: nat)
    requires j < |KeptIndices(parts)| && KeptIndices(parts)[j] < |parts|
    ensures KeptStarts(parts)[j] == Offset(parts, KeptIndices(parts)[j]) + StripStart(parts[KeptIndices(parts)[j]])
  {
  }

  /** Section j occurs in the concatenation at its start. */
  lemma KeptOneOccurs(parts: seq<string>, j: nat)
    requires j < |KeptIndices(parts)| && KeptIndices(parts)[j] < |parts|
    requires |Kept(parts)| == |KeptIndices(parts)| && Kept(parts)[j].content == Strip(parts[KeptIndices(parts)[j]])
    ensures OccursAt(Concat(parts), Kept(parts)[j].content, KeptStarts(parts)[j])
  {
    KeptStartAt(parts, j);
    StrippedPieceAt(parts, KeptIndices(parts)[j]);
  }

  /** Each kept section occurs in the concatenation at its start. */
  lemma KeptOccur(parts: seq<string>)
    ensures |KeptStarts(parts)| == |Kept(parts)|
    ensures forall j | 0 <= j < |Kept(parts)| :: OccursAt(Concat(parts), Kept(parts)[j].content, KeptStarts(parts)[j])
  {
    KeptIndicesMatch(parts);
    var kept := Kept(parts);
    forall j | 0 <= j < |kept|
      ensures OccursAt(Concat(parts), kept[j].content, KeptStarts(parts)[j])
    {
      KeptOneOccurs(parts, j);
    }
  }

  /** Section j ends before section j + 1 starts. */
  lemma KeptPairOrdered(parts: seq<string>, j: nat)
    requires j + 1 < |KeptIndices(parts)| && KeptIndices(parts)[j] < KeptIndices(parts)[j + 1] < |parts|
    requires |Kept(parts)| == |KeptIndices(parts)| && Kept(parts)[j].content == Strip(parts[KeptIndices(parts)[j]])
    ensures KeptStarts(parts)[j] + |Kept(parts)[j].content| <= KeptStarts(parts)[j + 1]
  {
    var idx := KeptIndices(parts);
    KeptStartAt(parts, j);
    KeptStartAt(parts, j + 1);
    StrippedPiecesOrdered(parts, idx[j], idx[j + 1]);
  }

  /** Kept sections do not overlap and keep the order of the text. */
  lemma KeptOrdered(parts: seq<string>)
    ensures |KeptStarts(parts)| == |Kept(parts)|
    ensures forall j | 0 <= j < |Kept(parts)| - 1 ::
      KeptStarts(parts)[j] + |Kept(parts)[j].content| <= KeptStarts(parts)[j + 1]
  {
    KeptIndicesMatch(parts);
    KeptIndicesIncrease(parts);
    var idx, kept, starts := KeptIndices(parts), Kept(parts), KeptStarts(parts);
    forall j | 0 <= j < |kept| - 1
      ensures starts[j] + |kept[j].content| <= starts[j + 1]
    {
      KeptPairOrdered(parts, j);
    }
  }

  /**
   * Each section is a stripped, contiguous piece of the text, and the sections appear
   * in text order without overlapping: `starts[j]` is where section j sits.
   */
  lemma SectionsArePieces(content: string) returns (starts: seq<nat>)
    requires Kept(Parts(content)) != []
    ensures var secs := Sections(content);
      && |starts| == |secs|
      && (forall j | 0 <= j < |secs| :: OccursAt(content, secs[j].content, starts[j]))
      && (forall j | 0 <= j < |secs| - 1 :: starts[j] + |secs[j].content| <= starts[j + 1])
  {
    PartsConcat(content);
    KeptOccur(Parts(content));
    KeptOrdered(Parts(content));
    starts := KeptStarts(Parts(content));
  }

  /** The metadata of a section document. */
  function SectionMeta(file: FilePath, title: string): Dict {
    map["parser" := Str("docling"), "file_name" := Str(file.name), "section_title" := Str(title)]
  }

  /** The documents `parse` makes from the sections, numbered in order. */
  function SectionDocuments(sections: seq<Section>, file: FilePath): seq<Document> {
    seq(|sections|, i requires 0 <= i < |sections| =>
      Document(sections[i].content, SectionMeta(file, sections[i].title), file.path, None,
               ChunkId(file.stem, "section", i)))
  }

  /**
   * `parse(file_path)`, given the Markdown Docling exported for the file: one document per
   * section, with chunk id `{stem}_section_{i}` and the section's title.
   */
  method Parse(markdown: string, file: FilePath) returns (documents: seq<Document>)
    ensures documents == SectionDocuments(Sections(markdown), file)
    ensures |documents| >= 1
    ensures forall i | 0 <= i < |documents| :: documents[i].chunkId == ChunkId(file.stem, "section", i)
  {
    var sections := SplitBySections(markdown);
    SectionsStripped(markdown);
    documents := MakeDocuments(sections, file);
  }

  /** The loop of `parse` over the sections. */
  method MakeDocuments(sections: seq<Section>, file: FilePath) returns (documents: seq<Document>)
    ensures documents == SectionDocuments(sections, file)
  {
    documents := [];
    var i := 0;
    while i < |sections|
      invariant 0 <= i <= |sections|
      invariant |documents| == i
      invariant forall k | 0 <= k < i :: documents[k] == SectionDocuments(sections, file)[k]
    {
      documents := documents + [Document(sections[i].content, SectionMeta(file, sections[i].title),
                                         file.path, None, ChunkId(file.stem, "section", i))];
      i := i + 1;
    }
  }

  /** Distinct sections get distinct chunk ids. */
  lemma SectionIdsDistinct(markdown: string, file: FilePath)
    ensures var d := SectionDocuments(Sections(markdown), file);
      forall i, j | 0 <= i < j < |d| :: d[i].chunkId != d[j].chunkId
  {
    var d := SectionDocuments(Sections(markdown), file);
    forall i, j | 0 <= i < j < |d| ensures d[i].chunkId != d[j].chunkId {
      if d[i].chunkId == d[j].chunkId {
        ChunkIdInjective(file.stem, "section", i, j);
      }
    }
  }

  /** A text without any '#' is a single untitled section holding the stripped text (the mocked unit test). */
  lemma NoHashOneSection(markdown: string)
    requires '#' !in markdown && Strip(markdown) != ""
    ensures Sections(markdown) == [Section("", Strip(markdown))]
  {
    NoHeadingOnePart(markdown);
    var parts := Parts(markdown);
    assert parts == [markdown];
    StripEmptyIffBlank(markdown);
    Filter.FilterMapSingle(markdown, NonBlank, SectionOf);
    StripIsPiece(markdown);
    TitleOfPlain(Strip(markdown));
  }
}
