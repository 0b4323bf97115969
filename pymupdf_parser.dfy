/**
 * The PyMuPDF back-end (parsers/pymupdf_parser.py): pymupdf4llm renders the PDF as
 * Markdown, once whole and once page by page; each page becomes one document, and
 * when the page-by-page pass fails the whole rendering becomes a single document.
 */
module PyMuPDFParser {
  import opened Wrappers
  import opened Py
  import opened Text
  import opened ParserBase

  /**
   * One item of `to_markdown(..., page_chunks=True)`: a dict (its `text` and `metadata`
   * entries, absent when the key is missing), or anything else, kept as its `str()`.
   */
  datatype Page =
    | DictPage(text: Option<string>, metadata: Option<Value>)
    | OtherPage(rendered: string)

  const SupportedExtensions: set<string> := {".pdf"}

  /** `supports(file_type)`: only `.pdf`, in any letter case. */
  function Supports(fileType: string): (b: bool)
    ensures b <==> Lower(fileType) == ".pdf"
  {
    SupportsAny(SupportedExtensions, fileType)
  }

  function BaseMeta(file: FilePath): Dict {
    map["parser" := Str("pymupdf4llm"), "file_name" := Str(file.name)]
  }

  /**
   * The metadata of page documents: `{"parser": ..., "file_name": ..., **metadata}`.
   * A missing `metadata` entry counts as `{}`; a value that is not a dict makes `**` raise.
   */
  function PageMeta(page: Page, file: FilePath): (r: Option<Dict>)
    ensures page.OtherPage? || page.metadata.None? ==> r == Some(BaseMeta(file))
    ensures page.DictPage? && page.metadata.Some? && page.metadata.value.Obj? ==>
      r.Some? && r.value.Keys == BaseMeta(file).Keys + page.metadata.value.d.Keys
      && (forall k | k in page.metadata.value.d :: r.value[k] == page.metadata.value.d[k])
      && (forall k | k in BaseMeta(file) && k !in page.metadata.value.d :: r.value[k] == BaseMeta(file)[k])
    ensures r.None? <==> page.DictPage? && page.metadata.Some? && !page.metadata.value.Obj?
  {
    match page
    case OtherPage(_) => Some(BaseMeta(file))
    case DictPage(_, None) => Some(BaseMeta(file))
    case DictPage(_, Some(Obj(d))) => Some(BaseMeta(file) + d)
    case DictPage(_, Some(_)) => None
  }

  /** The content of a page: a dict's `text` (default ""), any other item's `str()`. */
  function PageContent(page: Page): string {
    match page
    case DictPage(text, _) => text.GetOr("")
    case OtherPage(rendered) => rendered
  }

  /** The document for the page at 1-based position n, or None when its metadata raises. */
  function PageDocument(page: Page, n: nat, file: FilePath): Option<Document> {
    match PageMeta(page, file)
    case None => None
    case Some(meta) => Some(Document(PageContent(page), meta, file.path, Some(n), ChunkId(file.stem, "page", n)))
  }

  /** The whole-file document built from the single-pass Markdown. */
  function FullDocument(markdown: string, file: FilePath): Document {
    Document(markdown, BaseMeta(file), file.path, None, FullId(file.stem))
  }

  predicate PagesWellFormed(pages: seq<Page>, file: FilePath) {
    forall i | 0 <= i < |pages| :: PageMeta(pages[i], file).Some?
  }

  /** One document per page, numbered from 1, when no page raises. */
  function PageDocuments(pages: seq<Page>, file: FilePath): seq<Document>
    requires PagesWellFormed(pages, file)
  {
    seq(|pages|, i requires 0 <= i < |pages| => PageDocument(pages[i], i + 1, file).value)
  }

  /** What `parse` returns given both renderings; `pages` is Failure when the page pass raises. */
  function Documents(markdown: string, pages: Result<seq<Page>>, file: FilePath): seq<Document> {
    if pages.Success? && PagesWellFormed(pages.value, file) then PageDocuments(pages.value, file)
    else [FullDocument(markdown, file)]
  }

  /** `parse(file_path)`, given the whole-document Markdown and the outcome of the page pass. */
  method Parse(markdown: string, pages: Result<seq<Page>>, file: FilePath) returns (documents: seq<Document>)
    ensures documents == Documents(markdown, pages, file)
  {
    if pages.Failure? {
      return [FullDocument(markdown, file)];
    }
    var items := pages.value;
    documents := [];
    var i := 0;
    while i < |items|
      invariant 0 <= i <= |items|
      invariant PagesWellFormed(items[..i], file)
      invariant documents == PageDocuments(items[..i], file)
    {
      var page := items[i];
      var meta := PageMeta(page, file);
      if meta.None? {
        assert !PagesWellFormed(items, file);
        return [FullDocument(markdown, file)];
      }
      var content := PageContent(page);
      documents := documents + [Document(content, meta.value, file.path, Some(i + 1), ChunkId(file.stem, "page", i + 1))];
      assert items[..i + 1] == items[..i] + [page];
      i := i + 1;
    }
    assert items[..i] == items;
  }

  /**
   * With a working page pass: one document per page in page order, 1-based page numbers,
   * page ids `{stem}_page_{n}`, and the page's own content.
   */
  lemma OneDocumentPerPage(markdown: string, pages: seq<Page>, file: FilePath)
    requires PagesWellFormed(pages, file)
    ensures var d := Documents(markdown, Success(pages), file);
      && |d| == |pages|
      && (forall i | 0 <= i < |d| ::
            && d[i].pageNumber == Some(i + 1)
            && d[i].chunkId == ChunkId(file.stem, "page", i + 1)
            && d[i].content == PageContent(pages[i])
            && d[i].source == file.path
            && Some(d[i].metadata) == PageMeta(pages[i], file))
      && (forall i, j | 0 <= i < j < |d| :: d[i].chunkId != d[j].chunkId)
  {
    var d := Documents(markdown, Success(pages), file);
    forall i, j | 0 <= i < j < |d| ensures d[i].chunkId != d[j].chunkId {
      if d[i].chunkId == d[j].chunkId {
        ChunkIdInjective(file.stem, "page", i + 1, j + 1);
      }
    }
  }

  /** Page metadata overrides `parser` and `file_name` when it carries them. */
  lemma PageMetadataOverrides(page: Page, file: FilePath, d: Dict)
    requires page.DictPage? && page.metadata == Some(Obj(d))
    ensures PageMeta(page, file).Some?
    ensures "parser" in d ==> PageMeta(page, file).value["parser"] == d["parser"]
    ensures "parser" !in d ==> PageMeta(page, file).value["parser"] == Str("pymupdf4llm")
    ensures "file_name" !in d ==> PageMeta(page, file).value["file_name"] == Str(file.name)
  {
  }

  /**
   * The single `{stem}_full` document with the whole Markdown and no page number is
   * returned exactly when the page pass raises, including a page whose metadata is not a dict.
   */
  lemma FallbackWhenPagesFail(markdown: string, pages: Result<seq<Page>>, file: FilePath)
    requires pages.Failure? || !PagesWellFormed(pages.value, file)
    ensures Documents(markdown, pages, file) == [FullDocument(markdown, file)]
    ensures Documents(markdown, pages, file)[0].pageNumber == None
    ensures Documents(markdown, pages, file)[0].chunkId == FullId(file.stem)
  {
  }

  /** The mocked unit test: one plain-string page gives one document holding that string. */
  lemma SingleTextPage(markdown: string, file: FilePath)
    ensures var d := Documents(markdown, Success([OtherPage("Page 1 Content")]), file);
      && |d| == 1 && d[0].content == "Page 1 Content"
      && d[0].metadata["file_name"] == Str(file.name)
  {
    var pages := [OtherPage("Page 1 Content")];
    assert PagesWellFormed(pages, file);
    OneDocumentPerPage(markdown, pages, file);
  }
}
