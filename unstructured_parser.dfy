/**
 * The Unstructured back-end (parsers/unstructured_parser.py): the elements the
 * extractor returns are grouped into sections that each start at a Title element,
 * and each non-empty section becomes one Markdown document.
 */
module UnstructuredParser {
  import opened Wrappers
  import opened Py
  import opened Text
  import opened ParserBase

  /** An extracted element: its class name (`type(element).__name__`) and its text (`str(element)`). */
  datatype Element = Element(kind: string, text: string)

  /** A section as the grouping sees it: its title and its formatted parts in element order. */
  datatype Group = Group(title: string, parts: seq<string>)

  /** The loop's variables: the emitted documents, the open section and its title. */
  datatype ScanState = ScanState(documents: seq<Document>, section: seq<string>, title: string)

  const SupportedExtensions: set<string> := {
    ".pdf", ".docx", ".doc", ".pptx", ".ppt", ".xlsx", ".xls", ".html", ".htm",
    ".eml", ".msg", ".txt", ".md", ".rst", ".xml", ".json", ".csv"
  }

  /** `supports(file_type)` over the extensions above. */
  function Supports(fileType: string): bool {
    SupportsAny(SupportedExtensions, fileType)
  }

  /**
   * `_format_element(element_type, text)`: Markdown for one non-title element.
   * A whitespace-only text gives "" whatever the type; otherwise the text is kept whole.
   */
  function FormatElement(kind: string, text: string): (r: string)
    ensures r == "" <==> Strip(text) == ""
    ensures r != "" ==> Contains(r, text)
  {
    StripEmptyIffBlank(text);
    if Strip(text) == "" then ""
    else
      var r :=
        if kind == "ListItem" then "- " + text
        else if kind == "Table" then "\n" + text + "\n"
        else if kind == "FigureCaption" then "*" + text + "*"
        else if kind == "Header" then "## " + text
        else if kind == "Footer" then "---\n" + text
        else text;
      var k := |r| - |text| - (if kind == "Table" || kind == "FigureCaption" then 1 else 0);
      assert OccursAt(r, text, k);
      r
  }

  /** The element-type table of `_format_element` for a text that is not whitespace-only. */
  lemma FormatElementTable(kind: string, text: string)
    requires Strip(text) != ""
    ensures kind == "ListItem" ==> FormatElement(kind, text) == "- " + text
    ensures kind == "Table" ==> FormatElement(kind, text) == "\n" + text + "\n"
    ensures kind == "FigureCaption" ==> FormatElement(kind, text) == "*" + text + "*"
    ensures kind == "Header" ==> FormatElement(kind, text) == "## " + text
    ensures kind == "Footer" ==> FormatElement(kind, text) == "---\n" + text
    ensures kind !in {"ListItem", "Table", "FigureCaption", "Header", "Footer"} ==> FormatElement(kind, text) == text
  {
  }

  /** The metadata of a section document. */
  function SectionMeta(file: FilePath, title: string): Dict {
    map["parser" := Str("unstructured"), "file_name" := Str(file.name), "section_title" := Str(title)]
  }

  /** `_create_document(content, title, path, chunk_idx)` */
  function CreateDocument(content: string, title: string, file: FilePath, chunkIdx: nat): (d: Document)
    ensures d.chunkId == ChunkId(file.stem, "section", chunkIdx)
    ensures "section_title" in d.metadata && d.metadata["section_title"] == Str(title)
    ensures d.source == file.path && d.pageNumber == None
  {
    Document(content, SectionMeta(file, title), file.path, None, ChunkId(file.stem, "section", chunkIdx))
  }

  /** The `{stem}_full` document made when no section was recognised. */
  function FullDocument(elements: seq<Element>, file: FilePath): Document {
    Document(
      Join(seq(|elements|, i requires 0 <= i < |elements| => elements[i].text), "\n\n"),
      map["parser" := Str("unstructured"), "file_name" := Str(file.name), "element_count" := Int(|elements|)],
      file.path, None, FullId(file.stem))
  }

  /** The final flush: the open section, when non-empty, becomes the next document. */
  function Flush(st: ScanState, file: FilePath): seq<Document> {
    if st.section != [] then
      st.documents + [CreateDocument(Join(st.section, "\n\n"), st.title, file, |st.documents|)]
    else st.documents
  }

  /** One pass of the element loop. */
  function Step(st: ScanState, e: Element, file: FilePath): ScanState {
    if e.kind == "Title" then ScanState(Flush(st, file), ["# " + e.text], e.text)
    else
      var formatted := FormatElement(e.kind, e.text);
      if formatted != "" then st.(section := st.section + [formatted]) else st
  }

  /** The loop's state after the given elements. */
  function Scan(elements: seq<Element>, file: FilePath): ScanState {
    if elements == [] then ScanState([], [], "")
    else Step(Scan(elements[..|elements| - 1], file), elements[|elements| - 1], file)
  }

  /** What `parse` returns for the extracted elements. */
  function Documents(elements: seq<Element>, file: FilePath): seq<Document> {
    var documents := Flush(Scan(elements, file), file);
    if documents == [] then [FullDocument(elements, file)] else documents
  }

  /** `parse(file_path)`, given what `partition` extracted from the file. */
  method Parse(elements: seq<Element>, file: FilePath) returns (documents: seq<Document>)
    ensures documents == Documents(elements, file)
  {
    documents := [];
    var currentSection: seq<string> := [];
    var currentTitle := "";
    var i := 0;
    while i < |elements|
      invariant 0 <= i <= |elements|
      invariant ScanState(documents, currentSection, currentTitle) == Scan(elements[..i], file)
    {
      var element := elements[i];
      assert elements[..i + 1][..i] == elements[..i];
      if element.kind == "Title" {
        if currentSection != [] {
          documents := documents + [CreateDocument(Join(currentSection, "\n\n"), currentTitle, file, |documents|)];
        }
        currentSection := ["# " + element.text];
        currentTitle := element.text;
      } else {
        var formatted := FormatElement(element.kind, element.text);
        if formatted != "" {
          currentSection := currentSection + [formatted];
        }
      }
      i := i + 1;
    }
    assert elements[..i] == elements;
    if currentSection != [] {
      documents := documents + [CreateDocument(Join(currentSection, "\n\n"), currentTitle, file, |documents|)];
    }
    if documents == [] {
      documents := [FullDocument(elements, file)];
    }
  }

  // ---------------------------------------------------------------------------
  // The grouping the loop computes, stated without documents or flushing.
  // ---------------------------------------------------------------------------

  predicate HasTitle(elements: seq<Element>) {
    exists i | 0 <= i < |elements| :: elements[i].kind == "Title"
  }

  /** The formatted part a non-title element contributes (none when it is blank). */
  function Part(e: Element): seq<string> {
    if e.kind != "Title" && FormatElement(e.kind, e.text) != "" then [FormatElement(e.kind, e.text)] else []
  }

  /** The parts of the elements before the first Title. */
  function LeadParts(elements: seq<Element>): seq<string> {
    if elements == [] then []
    else
      var init := elements[..|elements| - 1];
      if HasTitle(init) then LeadParts(init) else LeadParts(init) + Part(elements[|elements| - 1])
  }

  /** The texts of the Title elements, in order. */
  function TitleTexts(elements: seq<Element>): seq<string> {
    if elements == [] then []
    else
      var e := elements[|elements| - 1];
      TitleTexts(elements[..|elements| - 1]) + (if e.kind == "Title" then [e.text] else [])
  }

  /**
   * Sections as groups: a Title opens a group whose first part is "# " + its text;
   * any other non-blank element joins the latest group, or opens the untitled lead group.
   */
  function Groups(elements: seq<Element>): seq<Group> {
    if elements == [] then []
    else GroupStep(Groups(elements[..|elements| - 1]), elements[|elements| - 1])
  }

  /** The groups after one more element. */
  function GroupStep(g: seq<Group>, e: Element): seq<Group> {
    if e.kind == "Title" then g + [Group(e.text, ["# " + e.text])]
    else if Part(e) == [] then g
    else if g == [] then [Group("", Part(e))]
    else g[..|g| - 1] + [Group(g[|g| - 1].title, g[|g| - 1].parts + Part(e))]
  }

  /** The documents numbered in group order. */
  function Emit(groups: seq<Group>, file: FilePath): seq<Document> {
    seq(|groups|, i requires 0 <= i < |groups| =>
      CreateDocument(Join(groups[i].parts, "\n\n"), groups[i].title, file, i))
  }

  function GroupTitles(groups: seq<Group>): seq<string> {
    seq(|groups|, i requires 0 <= i < |groups| => groups[i].title)
  }

  lemma HasTitleSnoc(init: seq<Element>, e: Element)
    ensures HasTitle(init + [e]) <==> HasTitle(init) || e.kind == "Title"
  {
    var s := init + [e];
    if HasTitle(init) {
      var i :| 0 <= i < |init| && init[i].kind == "Title";
      assert s[i] == init[i];
    }
    if e.kind == "Title" {
      assert s[|init|] == e;
    }
    if HasTitle(s) && e.kind != "Title" {
      var i :| 0 <= i < |s| && s[i].kind == "Title";
      assert i < |init| && init[i] == s[i];
    }
  }

  /**
   * The loop state tracks the groups g: all but the open one are emitted, numbered in
   * order, and the open section with its title is the last group.
   */
  predicate Tracks(st: ScanState, g: seq<Group>, file: FilePath) {
    && (st.section == [] <==> g == [])
    && (g == [] ==> st.title == "" && st.documents == [])
    && (g != [] ==> |st.documents| == |g| - 1 && g[|g| - 1] == Group(st.title, st.section))
    && (forall i | 0 <= i < |st.documents| ::
          st.documents[i] == CreateDocument(Join(g[i].parts, "\n\n"), g[i].title, file, i))
  }

  /** The loop state after the elements tracks their groups. */
  lemma {:induction false} ScanTracksGroups(elements: seq<Element>, file: FilePath)
    ensures Tracks(Scan(elements, file), Groups(elements), file)
    decreases |elements|
  {
    if elements != [] {
      var init := elements[..|elements| - 1];
      ScanTracksGroups(init, file);
      StepTracks(Scan(init, file), Groups(init), elements[|elements| - 1], file);
    }
  }

  /** One pass of the loop and one grouping step keep the state tracking the groups. */
  lemma StepTracks(st0: ScanState, g0: seq<Group>, e: Element, file: FilePath)
    requires Tracks(st0, g0, file)
    ensures Tracks(Step(st0, e, file), GroupStep(g0, e), file)
  {
    var st, g := Step(st0, e, file), GroupStep(g0, e);
    if e.kind == "Title" {
      assert st.documents == Flush(st0, file);
      assert g == g0 + [Group(e.text, ["# " + e.text])];
      forall i | 0 <= i < |st.documents|
        ensures st.documents[i] == CreateDocument(Join(g[i].parts, "\n\n"), g[i].title, file, i)
      {
        assert g[i] == g0[i];
      }
    } else if Part(e) != [] && g0 != [] {
      forall i | 0 <= i < |st.documents|
        ensures st.documents[i] == CreateDocument(Join(g[i].parts, "\n\n"), g[i].title, file, i)
      {
        assert g[i] == g0[i];
      }
    }
  }

  /** `parse` emits exactly one document per group, numbered in order, or the full document when there is none. */
  lemma DocumentsAreGroups(elements: seq<Element>, file: FilePath)
    ensures Groups(elements) == [] ==> Documents(elements, file) == [FullDocument(elements, file)]
    ensures Groups(elements) != [] ==> Documents(elements, file) == Emit(Groups(elements), file)
  {
    ScanTracksGroups(elements, file);
    var st, g := Scan(elements, file), Groups(elements);
    var d := Flush(st, file);
    assert Documents(elements, file) == if d == [] then [FullDocument(elements, file)] else d;
    if g != [] {
      var emitted := Emit(g, file);
      assert |d| == |g|;
      forall i | 0 <= i < |g| ensures d[i] == emitted[i] {
        if i < |st.documents| {
          assert d[i] == st.documents[i];
        }
      }
      assert d == emitted;
    }
  }

  /**
   * The shape of the grouping: every group is non-empty; the untitled lead group holds
   * exactly the parts before the first Title; every other group starts with "# " + title;
   * the titles are "" (when there is a lead group) followed by the Title texts.
   */
  predicate GroupsShaped(g: seq<Group>, lead: seq<string>, titles: seq<string>) {
    && (forall i | 0 <= i < |g| :: g[i].parts != [])
    && (lead != [] ==> g != [] && g[0] == Group("", lead))
    && (forall i | 0 <= i < |g| && (i > 0 || lead == []) :: g[i].parts[0] == "# " + g[i].title)
    && GroupTitles(g) == (if lead != [] then [""] else []) + titles
  }

  predicate Shaped(elements: seq<Element>) {
    && GroupsShaped(Groups(elements), LeadParts(elements), TitleTexts(elements))
    && (Groups(elements) == [] <==> !HasTitle(elements) && LeadParts(elements) == [])
    && (TitleTexts(elements) == [] <==> !HasTitle(elements))
  }

  /** Adding parts to the last group, when it is not the lead group, keeps the shape. */
  lemma ExtendLastKeepsShape(g0: seq<Group>, extra: seq<string>, lead: seq<string>, titles: seq<string>)
    requires g0 != [] && GroupsShaped(g0, lead, titles)
    requires lead != [] ==> |g0| >= 2
    ensures GroupsShaped(g0[..|g0| - 1] + [Group(g0[|g0| - 1].title, g0[|g0| - 1].parts + extra)], lead, titles)
  {
    var n := |g0|;
    var g := g0[..n - 1] + [Group(g0[n - 1].title, g0[n - 1].parts + extra)];
    assert forall i | 0 <= i < n - 1 :: g[i] == g0[i];
    assert g[n - 1].parts[0] == g0[n - 1].parts[0];
    assert GroupTitles(g) == GroupTitles(g0);
  }

  /** A new titled group keeps the shape and adds its title to the titles. */
  lemma TitledKeepsShape(g0: seq<Group>, t: string, lead: seq<string>, titles: seq<string>)
    requires GroupsShaped(g0, lead, titles)
    ensures GroupsShaped(g0 + [Group(t, ["# " + t])], lead, titles + [t])
  {
    var g := g0 + [Group(t, ["# " + t])];
    assert forall i | 0 <= i < |g0| :: g[i] == g0[i];
    assert GroupTitles(g) == GroupTitles(g0) + [t];
  }

  /** The grouping, lead parts and titles of init + [e], one step after those of init. */
  lemma GroupsSnoc(init: seq<Element>, e: Element)
    ensures Groups(init + [e]) == GroupStep(Groups(init), e)
    ensures TitleTexts(init + [e]) == TitleTexts(init) + (if e.kind == "Title" then [e.text] else [])
    ensures HasTitle(init + [e]) <==> HasTitle(init) || e.kind == "Title"
    ensures LeadParts(init + [e]) == if HasTitle(init) then LeadParts(init) else LeadParts(init) + Part(e)
  {
    var elements := init + [e];
    assert elements[..|elements| - 1] == init;
    HasTitleSnoc(init, e);
  }

  /** A Title element appends a new titled group and keeps the lead parts. */
  lemma ShapedTitle(init: seq<Element>, e: Element)
    requires Shaped(init) && e.kind == "Title"
    ensures Shaped(init + [e])
  {
    GroupsSnoc(init, e);
    assert LeadParts(init) + [] == LeadParts(init);
    TitledKeepsShape(Groups(init), e.text, LeadParts(init), TitleTexts(init));
  }

  /** A blank non-title element changes nothing. */
  lemma ShapedBlank(init: seq<Element>, e: Element)
    requires Shaped(init) && e.kind != "Title" && Part(e) == []
    ensures Shaped(init + [e])
  {
    GroupsSnoc(init, e);
    assert LeadParts(init) + [] == LeadParts(init);
    assert TitleTexts(init) + [] == TitleTexts(init);
  }

  /** A non-blank element before any group opens the lead group. */
  lemma ShapedLead(init: seq<Element>, e: Element)
    requires Shaped(init) && e.kind != "Title" && Part(e) != [] && Groups(init) == []
    ensures Shaped(init + [e])
  {
    GroupsSnoc(init, e);
    assert TitleTexts(init) + [] == TitleTexts(init) == [];
    assert [] + Part(e) == Part(e);
    LeadKeepsShape(Part(e));
  }

  /** The lead group alone is shaped. */
  lemma LeadKeepsShape(lead: seq<string>)
    requires lead != []
    ensures GroupsShaped([Group("", lead)], lead, [])
  {
    assert GroupTitles([Group("", lead)]) == [""];
  }

  /** A non-blank element after a Title joins the latest titled group. */
  lemma ShapedJoinTitled(init: seq<Element>, e: Element)
    requires Shaped(init) && e.kind != "Title" && Part(e) != [] && Groups(init) != [] && HasTitle(init)
    ensures Shaped(init + [e])
  {
    GroupsSnoc(init, e);
    assert TitleTexts(init) + [] == TitleTexts(init);
    JoinTitledKeepsShape(Groups(init), Part(e), LeadParts(init), TitleTexts(init));
  }

  /** With at least one title, the last group is a titled one, and extending it keeps the shape. */
  lemma JoinTitledKeepsShape(g0: seq<Group>, extra: seq<string>, lead: seq<string>, titles: seq<string>)
    requires g0 != [] && titles != [] && GroupsShaped(g0, lead, titles)
    ensures GroupsShaped(g0[..|g0| - 1] + [Group(g0[|g0| - 1].title, g0[|g0| - 1].parts + extra)], lead, titles)
  {
    if lead != [] {
      assert |GroupTitles(g0)| == 1 + |titles|;
    }
    ExtendLastKeepsShape(g0, extra, lead, titles);
  }

  /** A non-blank element with no Title yet joins the lead group. */
  lemma ShapedJoinLead(init: seq<Element>, e: Element)
    requires Shaped(init) && e.kind != "Title" && Part(e) != [] && Groups(init) != [] && !HasTitle(init)
    ensures Shaped(init + [e])
  {
    GroupsSnoc(init, e);
    assert TitleTexts(init) + [] == TitleTexts(init) == [];
    var g0 := Groups(init);
    var lead0 := LeadParts(init);
    assert |GroupTitles(g0)| == |g0| == 1;
    assert g0[0] == Group("", lead0);
    assert GroupStep(g0, e) == [Group("", lead0 + Part(e))];
    LeadKeepsShape(lead0 + Part(e));
  }

  /** Every prefix of the element list is grouped as `Shaped` describes. */
  lemma {:induction false} GroupsShape(elements: seq<Element>)
    ensures Shaped(elements)
    decreases |elements|
  {
    if elements != [] {
      var init := elements[..|elements| - 1];
      var e := elements[|elements| - 1];
      assert elements == init + [e];
      GroupsShape(init);
      if e.kind == "Title" {
        ShapedTitle(init, e);
      } else if Part(e) == [] {
        ShapedBlank(init, e);
      } else if Groups(init) == [] {
        ShapedLead(init, e);
      } else if HasTitle(init) {
        ShapedJoinTitled(init, e);
      } else {
        ShapedJoinLead(init, e);
      }
    }
  }

  /** Chunk ids of the section documents are `{stem}_section_0`, `_1`, … and pairwise distinct. */
  lemma SectionIdsConsecutive(elements: seq<Element>, file: FilePath)
    requires Groups(elements) != []
    ensures var d := Documents(elements, file);
      && (forall i | 0 <= i < |d| :: d[i].chunkId == ChunkId(file.stem, "section", i))
      && (forall i, j | 0 <= i < j < |d| :: d[i].chunkId != d[j].chunkId)
  {
    DocumentsAreGroups(elements, file);
    var d := Documents(elements, file);
    forall i, j | 0 <= i < j < |d| ensures d[i].chunkId != d[j].chunkId {
      if d[i].chunkId == d[j].chunkId {
        ChunkIdInjective(file.stem, "section", i, j);
      }
    }
  }

  /** The whole-file document is returned exactly when there is no group. */
  lemma FallbackIffNoGroups(elements: seq<Element>, file: FilePath)
    ensures Documents(elements, file) == [FullDocument(elements, file)] <==> Groups(elements) == []
  {
    DocumentsAreGroups(elements, file);
    if Groups(elements) != [] {
      FullIdIsNotChunkId(file.stem, "section", 0);
      assert Documents(elements, file)[0].chunkId == ChunkId(file.stem, "section", 0);
    }
  }

  /** There is no group exactly when there is no Title and every element is whitespace-only. */
  lemma NoGroupsIffBlank(elements: seq<Element>)
    ensures Groups(elements) == []
      <==> forall i | 0 <= i < |elements| :: elements[i].kind != "Title" && Strip(elements[i].text) == ""
  {
    GroupsShape(elements);
    if !HasTitle(elements) {
      LeadPartsEmpty(elements);
    }
  }

  /**
   * The whole-file fallback document is produced exactly when no section was emitted,
   * that is, when there is no Title and every other element is whitespace-only.
   */
  lemma FallbackIffNoSection(elements: seq<Element>, file: FilePath)
    ensures Documents(elements, file) == [FullDocument(elements, file)]
      <==> forall i | 0 <= i < |elements| :: elements[i].kind != "Title" && Strip(elements[i].text) == ""
  {
    FallbackIffNoGroups(elements, file);
    NoGroupsIffBlank(elements);
  }

  /** Without a Title, the lead group is empty exactly when every element is whitespace-only. */
  lemma {:induction false} LeadPartsEmpty(elements: seq<Element>)
    requires !HasTitle(elements)
    ensures LeadParts(elements) == [] <==> forall i | 0 <= i < |elements| :: Strip(elements[i].text) == ""
    decreases |elements|
  {
    if elements != [] {
      var init := elements[..|elements| - 1];
      var e := elements[|elements| - 1];
      assert elements == init + [e];
      HasTitleSnoc(init, e);
      LeadPartsEmpty(init);
      assert forall i | 0 <= i < |init| :: init[i] == elements[i];
    }
  }

  /** Each section's content is its parts joined by blank lines, and its title is the Title text that opened it. */
  lemma SectionContents(elements: seq<Element>, file: FilePath, i: nat)
    requires i < |Groups(elements)|
    ensures var g, d := Groups(elements), Documents(elements, file);
      && i < |d|
      && d[i].content == Join(g[i].parts, "\n\n")
      && d[i].metadata == SectionMeta(file, g[i].title)
      && g[i].parts != []
      && (i > 0 || LeadParts(elements) == [] ==> g[i].parts[0] == "# " + g[i].title && "# " + g[i].title <= d[i].content)
  {
    DocumentsAreGroups(elements, file);
    GroupsShape(elements);
    var g := Groups(elements);
    JoinStartsWithFirst(g[i].parts, "\n\n");
  }
}
