/**
 * Parser selection (parsers/__init__.py): the extension-based choice of
 * `detect_best_parser` and the factory `get_parser`, whose AUTO mode tries the
 * installed back-ends in a fixed order.
 */
module ParserSelection {
  import opened Wrappers
  import opened Text

  /** The `ParserType` enum. */
  datatype ParserType = DOCLING | UNSTRUCTURED | PYMUPDF | SIMPLE | AUTO

  /** The order AUTO tries the back-ends in: the lightest first. */
  const AutoOrder: seq<ParserType> := [PYMUPDF, UNSTRUCTURED, DOCLING]

  const OfficeExtensions: seq<string> := [".docx", ".doc", ".pptx", ".ppt", ".xlsx", ".xls"]
  const WebMailExtensions: seq<string> := [".html", ".htm", ".eml", ".msg"]
  const PlainTextExtensions: seq<string> := [".txt", ".md", ".log"]

  const NoParserMessage: string :=
    "No parser available. Install at least one: "
    + "pip install pymupdf4llm, pip install unstructured, or pip install docling"

  /** The text of the ImportError a back-end's constructor raises when its package is missing. */
  function MissingPackage(t: ParserType): string {
    match t
    case DOCLING => "docling is required. Install with: pip install docling"
    case UNSTRUCTURED => "unstructured is required. Install with: pip install 'unstructured[all-docs]'"
    case PYMUPDF => "pymupdf4llm is required. Install with: pip install pymupdf4llm"
    case SIMPLE => "simple parser unavailable"
    case AUTO => NoParserMessage
  }

  /** The chain of tests `detect_best_parser` runs on the lower-cased extension. */
  function ParserForExtension(ext: string): ParserType {
    if ext == ".pdf" then PYMUPDF
    else if ext in OfficeExtensions then UNSTRUCTURED
    else if ext in WebMailExtensions then UNSTRUCTURED
    else if ext in PlainTextExtensions then SIMPLE
    else UNSTRUCTURED
  }

  /** `detect_best_parser(file_path)`: the parser suggested by the lower-cased `splitext` suffix. */
  function DetectBestParser(filePath: string): ParserType {
    ParserForExtension(Lower(Extension(filePath)))
  }

  /**
   * The suggestion is split by extension class: PDF to PYMUPDF, plain text to SIMPLE,
   * everything else (office, web, mail, unknown, no extension) to UNSTRUCTURED.
   */
  lemma DetectionTable(filePath: string)
    ensures var ext := Lower(Extension(filePath));
      && (DetectBestParser(filePath) == PYMUPDF <==> ext == ".pdf")
      && (DetectBestParser(filePath) == SIMPLE <==> ext in PlainTextExtensions)
      && (DetectBestParser(filePath) == UNSTRUCTURED <==> ext != ".pdf" && ext !in PlainTextExtensions)
      && (ext in OfficeExtensions || ext in WebMailExtensions ==> DetectBestParser(filePath) == UNSTRUCTURED)
  {
  }

  /** `detect_best_parser` never suggests AUTO or DOCLING (Docling must be asked for by name). */
  lemma DetectNeverAutoOrDocling(filePath: string)
    ensures DetectBestParser(filePath) != AUTO && DetectBestParser(filePath) != DOCLING
  {
  }

  /** Upper-case extensions are matched like lower-case ones. */
  lemma DetectIgnoresCase(dir: string, stem: string, ext: string, j: nat)
    requires '/' !in stem && '/' !in ext && '.' !in ext
    requires j < |stem| && stem[j] != '.'
    ensures DetectBestParser(dir + stem + "." + ext) == ParserForExtension(Lower("." + ext))
  {
    ExtensionOf(dir, stem, ext, j);
  }

  /** A file called `test.<ext>` is handled by the parser for the lower-cased `.<ext>`. */
  lemma DetectTestFile(ext: string)
    requires '/' !in ext && '.' !in ext
    ensures DetectBestParser("test." + ext) == ParserForExtension(Lower("." + ext))
  {
    DetectIgnoresCase("", "test", ext, 0);
    assert "" + "test" == "test" && "test" + "." == "test.";
  }

  /** DetectTestFile with the file name and the suffix written out. */
  lemma DetectNamed(name: string, ext: string, suffix: string)
    requires '/' !in ext && '.' !in ext
    requires name == "test." + ext && suffix == "." + ext
    requires forall i | 0 <= i < |suffix| :: !('A' <= suffix[i] <= 'Z')
    ensures DetectBestParser(name) == ParserForExtension(suffix)
  {
    DetectTestFile(ext);
    LowerKeeps(suffix);
  }

  /** Unit-test case: `test.txt` goes to SIMPLE. */
  lemma DetectTxtExample()
    ensures DetectBestParser("test.txt") == SIMPLE
  {
    DetectNamed("test.txt", "txt", ".txt");
    assert ".txt" != ".pdf" && ".txt" !in OfficeExtensions && ".txt" !in WebMailExtensions;
  }

  /** Unit-test case: `test.md` goes to SIMPLE. */
  lemma DetectMdExample()
    ensures DetectBestParser("test.md") == SIMPLE
  {
    DetectNamed("test.md", "md", ".md");
    assert ".md" != ".pdf" && ".md" !in OfficeExtensions && ".md" !in WebMailExtensions;
  }

  /** Unit-test case: `test.pdf` goes to PYMUPDF. */
  lemma DetectPdfExample()
    ensures DetectBestParser("test.pdf") == PYMUPDF
  {
    DetectNamed("test.pdf", "pdf", ".pdf");
  }

  /** Unit-test cases: `test.docx` and `test.unknown` go to UNSTRUCTURED. */
  lemma DetectUnstructuredExamples()
    ensures DetectBestParser("test.docx") == UNSTRUCTURED
    ensures DetectBestParser("test.unknown") == UNSTRUCTURED
  {
    DetectDocx();
    DetectUnknown();
  }

  lemma DetectDocx()
    ensures DetectBestParser("test.docx") == UNSTRUCTURED
  {
    DetectNamed("test.docx", "docx", ".docx");
  }

  lemma DetectUnknown()
    ensures DetectBestParser("test.unknown") == UNSTRUCTURED
  {
    DetectNamed("test.unknown", "unknown", ".unknown");
    assert ParserForExtension(".unknown") == UNSTRUCTURED;
  }

  /** The position of the first back-end of `order` whose package is installed (|order| when there is none). */
  function FirstInstalledIndex(order: seq<ParserType>, installed: ParserType -> bool): (i: nat)
    ensures i <= |order|
    ensures forall j | 0 <= j < i :: !installed(order[j])
    ensures i < |order| ==> installed(order[i])
  {
    if order == [] then 0
    else if installed(order[0]) then 0
    else 1 + FirstInstalledIndex(order[1..], installed)
  }

  /**
   * The AUTO loop: the first back-end of `order` whose constructor succeeds, or the
   * AUTO ImportError. `installed` says whether a back-end's package imports.
   */
  function FirstInstalled(order: seq<ParserType>, installed: ParserType -> bool): (r: Result<ParserType>)
    ensures r.Success? ==> r.value in order && installed(r.value)
    ensures r.Success? ==> r.value == order[FirstInstalledIndex(order, installed)]
    ensures r.Failure? <==> forall i | 0 <= i < |order| :: !installed(order[i])
    ensures r.Failure? ==> r.error == NoParserMessage
  {
    var i := FirstInstalledIndex(order, installed);
    if i < |order| then Success(order[i]) else Failure(NoParserMessage)
  }

  /**
   * `get_parser(parser_type)`: a named back-end is constructed or raises its own
   * ImportError; AUTO returns the first of PYMUPDF, UNSTRUCTURED, DOCLING that constructs.
   */
  function GetParser(parserType: ParserType, installed: ParserType -> bool): (r: Result<ParserType>)
    ensures parserType != AUTO ==> (r.Success? <==> installed(parserType))
    ensures parserType != AUTO && r.Success? ==> r.value == parserType
    ensures parserType != AUTO && r.Failure? ==> r.error == MissingPackage(parserType)
    ensures r.Success? ==> r.value != AUTO
  {
    if parserType == AUTO then FirstInstalled(AutoOrder, installed)
    else if installed(parserType) then Success(parserType)
    else Failure(MissingPackage(parserType))
  }

  /** AUTO prefers PYMUPDF, then UNSTRUCTURED, then DOCLING, and fails only when none is installed. */
  lemma AutoFallbackOrder(installed: ParserType -> bool)
    ensures installed(PYMUPDF) ==> GetParser(AUTO, installed) == Success(PYMUPDF)
    ensures !installed(PYMUPDF) && installed(UNSTRUCTURED) ==> GetParser(AUTO, installed) == Success(UNSTRUCTURED)
    ensures !installed(PYMUPDF) && !installed(UNSTRUCTURED) && installed(DOCLING)
      ==> GetParser(AUTO, installed) == Success(DOCLING)
    ensures !installed(PYMUPDF) && !installed(UNSTRUCTURED) && !installed(DOCLING)
      ==> GetParser(AUTO, installed) == Failure(NoParserMessage)
    ensures GetParser(AUTO, installed) != Success(SIMPLE)
  {
    assert AutoOrder[1..] == [UNSTRUCTURED, DOCLING];
    assert AutoOrder[1..][1..] == [DOCLING];
    assert AutoOrder[1..][1..][1..] == [];
  }
}
