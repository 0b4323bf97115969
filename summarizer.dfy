/**
 * The summarizer tool (tools/summarizer.py): guards against empty input, builds the
 * LLM prompt, and turns the model's reply into a summary or a list of key points.
 * The LLM call is a parameter: it maps a prompt to the reply text or an error message.
 */
module Summarizer {
  import opened Wrappers
  import opened Py
  import opened Text
  import Filter

  /** The result dict of `summarize_document`. */
  datatype SummaryReply =
    | SummarySuccess(summary: string, style: string, originalLength: nat, summaryLength: nat)
    | SummaryError(error: string, summary: string)

  /** The result dict of `extract_key_points`. */
  datatype KeyPointsReply =
    | KeyPointsSuccess(keyPoints: seq<string>, count: nat)
    | KeyPointsError(error: string, keyPoints: seq<string>)

  const EmptyContent: string := "Empty content provided"

  const StyleInstructions: map<string, string> := map[
    "concise" := "提供簡潔的摘要，突出關鍵要點。",
    "detailed" := "提供詳細的摘要，保留重要細節。",
    "bullet_points" := "使用條列式摘要主要觀點。"]

  /** `style_instructions.get(style, style_instructions["concise"])` */
  function Instruction(style: string): (r: string)
    ensures style in StyleInstructions ==> r == StyleInstructions[style]
    ensures style !in StyleInstructions ==> r == StyleInstructions["concise"]
  {
    if style in StyleInstructions then StyleInstructions[style] else StyleInstructions["concise"]
  }

  const SummaryHead: string := "請為以下文檔生成摘要。\n\n要求：\n- "
  const SummaryTail: string := "\n\n摘要："

  function SummaryLimits(maxLength: int): string {
    "\n- 長度控制在 " + IntToString(maxLength) + " 字以內\n- 保持客觀準確\n- 使用繁體中文\n\n文檔內容：\n"
  }

  /** The f-string prompt of `summarize_document`. */
  function SummaryPrompt(content: string, maxLength: int, style: string): string {
    SummaryHead + Instruction(style) + SummaryLimits(maxLength) + content + SummaryTail
  }

  /** `summarize_document(content, max_length, style)` */
  function SummarizeDocument(content: string, maxLength: int, style: string, llm: string -> Result<string>): (r: SummaryReply)
    ensures Strip(content) == "" ==> r == SummaryError(EmptyContent, "")
    ensures r.SummaryError? ==> r.summary == ""
    ensures r.SummarySuccess? ==>
      && r.style == style && r.originalLength == |content| && r.summaryLength == |r.summary|
      && llm(SummaryPrompt(content, maxLength, style)).Success?
      && r.summary == Strip(llm(SummaryPrompt(content, maxLength, style)).value)
  {
    if Strip(content) == "" then SummaryError(EmptyContent, "")
    else
      match llm(SummaryPrompt(content, maxLength, style))
      case Success(text) =>
        var summary := Strip(text);
        SummarySuccess(summary, style, |content|, |summary|)
      case Failure(e) => SummaryError(e, "")
  }

  /** Whitespace-only content is refused before the model is consulted: any two models give the same reply. */
  lemma BlankContentSkipsModel(content: string, maxLength: int, style: string, llm1: string -> Result<string>, llm2: string -> Result<string>)
    requires IsBlank(content)
    ensures SummarizeDocument(content, maxLength, style, llm1) == SummarizeDocument(content, maxLength, style, llm2)
    ensures ExtractKeyPoints(content, 5, llm1) == ExtractKeyPoints(content, 5, llm2) == KeyPointsError(EmptyContent, [])
  {
    StripEmptyIffBlank(content);
  }

  /** The prompt carries the chosen instruction (concise for an unknown style) and the whole content. */
  lemma PromptCarriesInstructionAndContent(content: string, maxLength: int, style: string)
    ensures Contains(SummaryPrompt(content, maxLength, style), Instruction(style))
    ensures Contains(SummaryPrompt(content, maxLength, style), content)
    ensures style !in StyleInstructions ==> Instruction(style) == Instruction("concise")
  {
    var p := SummaryPrompt(content, maxLength, style);
    var ins := Instruction(style);
    var lim := SummaryLimits(maxLength);
    PieceOccurs(SummaryHead, ins, lim + content + SummaryTail);
    assert p == SummaryHead + ins + (lim + content + SummaryTail);
    PieceOccurs(SummaryHead + ins + lim, content, SummaryTail);
    assert p == (SummaryHead + ins + lim) + content + SummaryTail;
  }

  /** The middle piece of a three-way concatenation occurs right after the first. */
  lemma PieceOccurs(a: string, b: string, c: string)
    ensures OccursAt(a + b + c, b, |a|) && Contains(a + b + c, b)
  {
    var s := a + b + c;
    var k := |a|;
    assert s[k..k + |b|] == b;
    assert OccursAt(s, b, k);
  }

  function KeyPointsPrompt(content: string, maxPoints: int): string {
    "請從以下文檔中提取最重要的 " + IntToString(maxPoints)
    + " 個關鍵要點。\n\n要求：\n- 每個要點一行\n- 使用簡潔的陳述\n- 按重要性排序\n- 使用繁體中文\n\n文檔內容：\n"
    + content + "\n\n關鍵要點："
  }

  /** The characters `lstrip("•-123456789. ")` removes. */
  const BulletChars: set<char> := {'•', '-', '1', '2', '3', '4', '5', '6', '7', '8', '9', '.', ' '}

  /** `line.strip().lstrip("•-123456789. ")` */
  function CleanLine(line: string): string {
    LStripChars(Strip(line), BulletChars)
  }

  predicate NonBlankLine(line: string) {
    Strip(line) != ""
  }

  /** `[clean(line) for line in lines if line.strip()]` */
  function CleanPoints(lines: seq<string>): seq<string> {
    Filter.FilterMap(lines, NonBlankLine, CleanLine)
  }

  /** The key points of a model reply, before the `[:max_points]` cut. */
  function AllPoints(reply: string): seq<string> {
    CleanPoints(Split(Strip(reply), '\n'))
  }

  /** `extract_key_points(content, max_points)` */
  function ExtractKeyPoints(content: string, maxPoints: int, llm: string -> Result<string>): (r: KeyPointsReply)
    ensures Strip(content) == "" ==> r == KeyPointsError(EmptyContent, [])
    ensures r.KeyPointsError? ==> r.keyPoints == []
    ensures r.KeyPointsSuccess? ==>
      && r.count == |r.keyPoints|
      && llm(KeyPointsPrompt(content, maxPoints)).Success?
      && r.keyPoints == Prefix(AllPoints(llm(KeyPointsPrompt(content, maxPoints)).value), maxPoints)
  {
    if Strip(content) == "" then KeyPointsError(EmptyContent, [])
    else
      match llm(KeyPointsPrompt(content, maxPoints))
      case Success(text) =>
        var points := Prefix(AllPoints(text), maxPoints);
        KeyPointsSuccess(points, |points|)
      case Failure(e) => KeyPointsError(e, [])
  }

  /** At most `max_points` points come back, for a non-negative bound. */
  lemma KeyPointsBounded(content: string, maxPoints: int, llm: string -> Result<string>)
    requires maxPoints >= 0
    ensures var r := ExtractKeyPoints(content, maxPoints, llm);
      r.KeyPointsSuccess? ==> r.count <= maxPoints
  {
    var r := ExtractKeyPoints(content, maxPoints, llm);
    if r.KeyPointsSuccess? {
      PrefixNonNegative(AllPoints(llm(KeyPointsPrompt(content, maxPoints)).value), maxPoints);
    }
  }

  /**
   * The cleaned points are the non-blank lines cleaned: every point comes from a
   * non-blank line, and every non-blank line yields a point.
   */
  lemma CleanPointsFromLines(lines: seq<string>)
    ensures forall p | p in CleanPoints(lines) :: exists line | line in lines :: NonBlankLine(line) && p == CleanLine(line)
    ensures forall line | line in lines && NonBlankLine(line) :: CleanLine(line) in CleanPoints(lines)
  {
    Filter.FilterMapMembers(lines, NonBlankLine, CleanLine);
  }

  /** A numbered line loses only its leading digits 1-9, dots and spaces: "10. x" becomes "0. x". */
  lemma NumberedLineExample()
    ensures CleanLine("10. x") == "0. x"
  {
    StripTrimmed("10. x");
    NumberedLineStrip();
  }

  lemma NumberedLineStrip()
    ensures LStripChars("10. x", BulletChars) == "0. x"
  {
    assert '1' in BulletChars && '0' !in BulletChars;
    assert "10. x"[0] == '1' && "10. x"[1..] == "0. x";
    assert LStripChars("10. x", BulletChars) == LStripChars("0. x", BulletChars);
  }

  /** A bullet and the space after it are dropped. */
  lemma BulletLineExample()
    ensures CleanLine("• point") == "point"
  {
    StripTrimmed("• point");
    BulletLineStrip();
  }

  lemma BulletLineStrip()
    ensures LStripChars("• point", BulletChars) == "point"
  {
    assert '•' in BulletChars && ' ' in BulletChars && 'p' !in BulletChars;
    assert "• point"[0] == '•' && "• point"[1..] == " point";
    assert " point"[0] == ' ' && " point"[1..] == "point";
    assert LStripChars("• point", BulletChars) == LStripChars(" point", BulletChars);
    assert LStripChars(" point", BulletChars) == LStripChars("point", BulletChars);
  }

  /** A line made only of bullet characters cleans to the empty string. */
  lemma OnlyBulletCharsExample()
    ensures CleanLine("1. 2.") == ""
  {
    StripTrimmed("1. 2.");
    OnlyBulletCharsStrip();
  }

  /** Such a line is not blank, so it still yields a (empty) point. */
  lemma OnlyBulletCharsPoint()
    ensures CleanPoints(["1. 2."]) == [""]
  {
    StripTrimmed("1. 2.");
    assert NonBlankLine("1. 2.");
    OnlyBulletCharsExample();
    Filter.FilterMapSingle("1. 2.", NonBlankLine, CleanLine);
  }

  lemma OnlyBulletCharsStrip()
    ensures LStripChars("1. 2.", BulletChars) == ""
  {
    var s := "1. 2.";
    assert s[0] in BulletChars && s[1] in BulletChars && s[2] in BulletChars && s[3] in BulletChars && s[4] in BulletChars;
    OnlyCharsStripAway(s, BulletChars);
  }

  lemma {:induction false} OnlyCharsStripAway(s: string, chars: set<char>)
    requires forall i | 0 <= i < |s| :: s[i] in chars
    ensures LStripChars(s, chars) == ""
    decreases |s|
  {
    if s != [] {
      assert forall i | 0 <= i < |s[1..]| :: s[1..][i] == s[i + 1];
      OnlyCharsStripAway(s[1..], chars);
    }
  }
}
