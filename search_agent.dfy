/**
 * The search agent's tools (agents/search.py): `search_knowledge_base` merges the successful
 * vector and keyword searches, reranks, and renders at most ten documents with a resolved
 * source; `evaluate_retrieval_quality` decides whether a web search is needed.
 */
module SearchAgent {
  import opened Wrappers
  import Filter
  import opened Py
  import Dedup
  import Config
  import RerankTool
  import Text

  /** A search tool's reply: its `status` and its `results`. */
  datatype ToolResult = ToolResult(status: string, results: seq<Dict>)

  /** The two searches and the cross-encoder the tool relies on. */
  datatype Tools = Tools(
    searchSimilar: (string, int) -> ToolResult,
    searchKeyword: (string, int) -> ToolResult,
    model: RerankTool.CrossEncoder)

  /** What `search_knowledge_base` returns: the empty-result dictionary or the rendered text. */
  datatype Output =
    | EmptyDict  // {"status": "success", "results": [], "total_found": 0}
    | Rendered(text: string)

  const DisplayLimit: nat := 10

  /** `res.get("id")`: the de-duplication key (a missing id counts as None). */
  function IdValue(d: Dict): Value {
    Get(d, "id", Null)
  }

  /** The results a search contributes: all of them on status "success", none otherwise. */
  function Contributed(r: ToolResult): seq<Dict> {
    if r.status == "success" then r.results else []
  }

  /** `merged_results`. */
  function MergeResults(vector: ToolResult, keyword: ToolResult): seq<Dict> {
    Dedup.DedupFrom(Contributed(vector) + Contributed(keyword), IdValue, {})
  }

  // ---- source resolution ----

  /** `doc.get("metadata", {}) or {}`, read as a dictionary. */
  function MetadataOf(doc: Dict): Dict {
    match Get(doc, "metadata", Obj(map[]))
    case Obj(d) => d
    case _ => map[]
  }

  /** The places a source may come from, in order of precedence. */
  function Candidates(doc: Dict): seq<Value> {
    var m := MetadataOf(doc);
    [Get(doc, "source", Null), Get(m, "source", Null), Get(m, "file_name", Null), Get(m, "title", Null)]
  }

  /** A candidate that does not settle the source: empty, None or "unknown". */
  predicate Unresolved(v: Value) {
    !Truthy(v) || v == Str("unknown")
  }

  /** The first candidate that settles the source, or "unknown". */
  function FirstResolved(cs: seq<Value>): (v: Value)
    ensures !Unresolved(v) || v == Str("unknown")
    ensures v in cs || v == Str("unknown")
  {
    if cs == [] then Str("unknown")
    else if !Unresolved(cs[0]) then cs[0]
    else FirstResolved(cs[1..])
  }

  /** The source of one document, reassigned step by step as the tool does it. */
  method ResolveSource(doc: Dict) returns (source: Value)
    ensures source == FirstResolved(Candidates(doc))
  {
    source := Get(doc, "source", Null);
    var metadata := MetadataOf(doc);
    if Unresolved(source) {
      source := Get(metadata, "source", Null);
    }
    if Unresolved(source) {
      source := Get(metadata, "file_name", Null);
    }
    if Unresolved(source) {
      source := Get(metadata, "title", Null);
    }
    if !Truthy(source) {
      source := Str("unknown");
    }
    FirstResolvedOfFour(Candidates(doc));
  }

  /** FirstResolved on the four candidates, unfolded. */
  lemma FirstResolvedOfFour(cs: seq<Value>)
    requires |cs| == 4
    ensures FirstResolved(cs) == if !Unresolved(cs[0]) then cs[0] else if !Unresolved(cs[1]) then cs[1]
      else if !Unresolved(cs[2]) then cs[2] else if !Unresolved(cs[3]) then cs[3] else Str("unknown")
  {
    var c1, c2, c3 := cs[1..], cs[1..][1..], cs[1..][1..][1..];
    assert c1[0] == cs[1] && c2[0] == cs[2] && c3[0] == cs[3] && c3[1..] == [];
    assert FirstResolved(c3) == if !Unresolved(cs[3]) then cs[3] else Str("unknown");
    assert FirstResolved(c2) == if !Unresolved(cs[2]) then cs[2] else FirstResolved(c3);
    assert FirstResolved(c1) == if !Unresolved(cs[1]) then cs[1] else FirstResolved(c2);
  }

  /** The resolved source is the earliest candidate that is neither empty nor "unknown". */
  lemma {:induction false} FirstResolvedIsEarliest(cs: seq<Value>, k: nat)
    requires k < |cs| && !Unresolved(cs[k])
    requires forall i | 0 <= i < k :: Unresolved(cs[i])
    ensures FirstResolved(cs) == cs[k]
  {
    if k > 0 {
      assert Unresolved(cs[0]);
      FirstResolvedIsEarliest(cs[1..], k - 1);
    }
  }

  /** With no candidate settling it, the source is "unknown". */
  lemma {:induction false} FirstResolvedNone(cs: seq<Value>)
    requires forall i | 0 <= i < |cs| :: Unresolved(cs[i])
    ensures FirstResolved(cs) == Str("unknown")
  {
    if cs != [] {
      assert Unresolved(cs[0]);
      FirstResolvedNone(cs[1..]);
    }
  }

  // ---- rendering ----

  /** `doc.get("rerank_score", doc.get("bm25_score", 0.0))` */
  function ScoreOf(doc: Dict): Value {
    Get(doc, "rerank_score", Get(doc, "bm25_score", Real(0.0)))
  }

  function Header(found: nat, shown: nat): string {
    "### Search found " + NatToString(found) + " documents (Showing top " + NatToString(shown) + "):"
  }

  /** The block for the i-th shown document (1-based) with the given source; `fmt` renders a score with two decimals. */
  function BlockWith(i: nat, doc: Dict, source: Value, fmt: Value -> string): string {
    "[" + NatToString(i) + "] Document (Score: " + fmt(ScoreOf(doc)) + ")\n"
      + "   Source: " + Show(source) + "\n"
      + "   Content: " + Show(Get(doc, "content", Str(""))) + "\n"
  }

  /** The block for the i-th shown document, with its resolved source. */
  function Block(i: nat, doc: Dict, fmt: Value -> string): string {
    BlockWith(i, doc, FirstResolved(Candidates(doc)), fmt)
  }

  /** Block as a function of the position and the document. */
  function BlockOf(fmt: Value -> string): (nat, Dict) -> string {
    (i: nat, doc: Dict) => Block(i, doc, fmt)
  }

  /** The header, then one block per displayed document. */
  function Lines(sourceResults: seq<Dict>, fmt: Value -> string): seq<string> {
    var display := Prefix(sourceResults, DisplayLimit);
    [Header(|sourceResults|, |display|)] + Filter.Numbered(display, BlockOf(fmt))
  }

  /** The rendered text for the list the tool settled on. */
  function Render(sourceResults: seq<Dict>, fmt: Value -> string): string {
    Text.Join(Lines(sourceResults, fmt), "\n")
  }

  /** The list that is rendered: the reranked results, or the first top_k merged ones if reranking failed. */
  function SourceResults(query: string, merged: seq<Dict>, k: int, settings: Config.Settings, model: RerankTool.CrossEncoder): seq<Dict> {
    var reranked := RerankTool.Rerank(query, merged, Some(k), settings, model);
    if reranked.status == RerankTool.StatusSuccess then reranked.results else Prefix(merged, k)
  }

  /** The value `search_knowledge_base` returns. */
  function KnowledgeSearch(query: string, topK: Option<int>, settings: Config.Settings, tools: Tools, fmt: Value -> string): Output {
    var k := topK.GetOr(settings.retrievalTopK);
    var merged := MergeResults(tools.searchSimilar(query, k * 3), tools.searchKeyword(query, k * 3));
    if merged == [] then EmptyDict
    else Rendered(Render(SourceResults(query, merged, k, settings, tools.model), fmt))
  }

  /** `search_knowledge_base`, with its merge loop and its rendering loop. */
  method SearchKnowledgeBase(query: string, topK: Option<int>, settings: Config.Settings, tools: Tools, fmt: Value -> string)
    returns (out: Output)
    ensures out == KnowledgeSearch(query, topK, settings, tools, fmt)
  {
    var k := if topK.Some? then topK.value else settings.retrievalTopK;
    var vectorResults := tools.searchSimilar(query, k * 3);
    var keywordResults := tools.searchKeyword(query, k * 3);

    var allRawResults: seq<Dict> := [];
    if vectorResults.status == "success" {
      allRawResults := allRawResults + vectorResults.results;
    }
    if keywordResults.status == "success" {
      allRawResults := allRawResults + keywordResults.results;
    }
    assert allRawResults == Contributed(vectorResults) + Contributed(keywordResults);

    var mergedResults := MergeLoop(allRawResults);
    if mergedResults == [] {
      return EmptyDict;
    }

    var reranked := RerankTool.RerankResults(query, mergedResults, Some(k), settings, tools.model);
    var sourceResults := if reranked.status == RerankTool.StatusSuccess then reranked.results else Prefix(mergedResults, k);
    var text := RenderLoop(sourceResults, fmt);
    out := Rendered(text);
  }

  /** The `seen_ids` / `merged_results` loop. */
  method MergeLoop(allRawResults: seq<Dict>) returns (mergedResults: seq<Dict>)
    ensures mergedResults == Dedup.DedupFrom(allRawResults, IdValue, {})
  {
    var seenIds: set<Value> := {};
    mergedResults := [];
    var i := 0;
    while i < |allRawResults|
      invariant 0 <= i <= |allRawResults|
      invariant seenIds == Dedup.Keys(allRawResults[..i], IdValue)
      invariant mergedResults == Dedup.DedupFrom(allRawResults[..i], IdValue, {})
    {
      var res := allRawResults[i];
      assert allRawResults[..i + 1] == allRawResults[..i] + [res];
      Dedup.DedupSnoc(allRawResults[..i], res, IdValue, {});
      var resId := IdValue(res);
      if resId !in seenIds {
        seenIds := seenIds + {resId};
        mergedResults := mergedResults + [res];
      }
      i := i + 1;
    }
    assert allRawResults[..i] == allRawResults;
  }

  /** The `output_lines` loop over the displayed documents. */
  method RenderLoop(sourceResults: seq<Dict>, fmt: Value -> string) returns (text: string)
    ensures text == Render(sourceResults, fmt)
  {
    var displayResults := Prefix(sourceResults, DisplayLimit);
    var header := Header(|sourceResults|, |displayResults|);
    var outputLines := [header];
    var j := 0;
    while j < |displayResults|
      invariant 0 <= j <= |displayResults|
      invariant outputLines == [header] + Filter.Numbered(displayResults[..j], BlockOf(fmt))
    {
      var doc := displayResults[j];
      var source := ResolveSource(doc);
      var docInfo := BlockWith(j + 1, doc, source, fmt);
      RenderStep(displayResults, j, source, fmt);
      outputLines := outputLines + [docInfo];
      j := j + 1;
    }
    assert displayResults[..j] == displayResults;
    text := Text.Join(outputLines, "\n");
  }

  /** The block of the (j+1)-th shown document extends the numbered blocks of the first j. */
  lemma RenderStep(display: seq<Dict>, j: nat, source: Value, fmt: Value -> string)
    requires j < |display| && source == FirstResolved(Candidates(display[j]))
    ensures Filter.Numbered(display[..j + 1], BlockOf(fmt))
      == Filter.Numbered(display[..j], BlockOf(fmt)) + [BlockWith(j + 1, display[j], source, fmt)]
  {
    assert BlockWith(j + 1, display[j], source, fmt) == BlockOf(fmt)(j + 1, display[j]);
    assert display[..j + 1] == display[..j] + [display[j]];
    Filter.NumberedSnoc(display[..j], display[j], BlockOf(fmt));
  }

  // ---- what `search_knowledge_base` promises ----

  /**
   * Only successful searches contribute; the merged list has each id once, by its first
   * occurrence, in order, the vector results' survivors first.
   */
  lemma MergeSpec(vector: ToolResult, keyword: ToolResult)
    ensures var all := Contributed(vector) + Contributed(keyword);
      var m := MergeResults(vector, keyword);
      && Dedup.Distinct(m, IdValue)
      && Dedup.Keys(m, IdValue) == Dedup.Keys(all, IdValue)
      && Dedup.IsSubseq(m, all)
      && (forall j | 0 <= j < |all| && (forall i | 0 <= i < j :: IdValue(all[i]) != IdValue(all[j])) :: all[j] in m)
      && m == Dedup.DedupFrom(Contributed(vector), IdValue, {})
              + Dedup.DedupFrom(Contributed(keyword), IdValue, Dedup.Keys(Contributed(vector), IdValue))
      && (vector.status != "success" && keyword.status != "success" ==> m == [])
  {
    var all := Contributed(vector) + Contributed(keyword);
    Dedup.DedupSpec(all, IdValue, {});
    Dedup.DedupAppend(Contributed(vector), Contributed(keyword), IdValue, {});
    assert {} + Dedup.Keys(Contributed(vector), IdValue) == Dedup.Keys(Contributed(vector), IdValue);
  }

  /** Nothing merged: the empty-result dictionary, and reranking is skipped. */
  lemma EmptyMergeIsEmptyDict(query: string, topK: Option<int>, settings: Config.Settings, tools: Tools, fmt: Value -> string)
    ensures var k := topK.GetOr(settings.retrievalTopK);
      (KnowledgeSearch(query, topK, settings, tools, fmt) == EmptyDict) <==>
        (MergeResults(tools.searchSimilar(query, k * 3), tools.searchKeyword(query, k * 3)) == [])
  {
  }

  /** A failing reranker leaves the first top_k merged results, in merge order. */
  lemma RerankFailureKeepsMerged(query: string, merged: seq<Dict>, k: int, settings: Config.Settings, message: string)
    ensures SourceResults(query, merged, k, settings, RerankTool.Broken(message)) == Prefix(merged, k)
  {
  }

  /**
   * The rendering: a header counting the settled list and the shown documents, then one block
   * for each of the first min(n, 10) documents.
   */
  lemma RenderShowsAtMostTen(sourceResults: seq<Dict>, fmt: Value -> string)
    ensures var lines := Lines(sourceResults, fmt);
      && |lines| == 1 + (if |sourceResults| < 10 then |sourceResults| else 10)
      && lines[0] == Header(|sourceResults|, |lines| - 1)
      && (forall i | 0 <= i < |lines| - 1 :: lines[i + 1] == Block(i + 1, sourceResults[i], fmt))
  {
    var display := Prefix(sourceResults, DisplayLimit);
    PrefixNonNegative(sourceResults, DisplayLimit);
    var lines := Lines(sourceResults, fmt);
    Filter.NumberedPrefix(Header(|sourceResults|, |display|), sourceResults, display, BlockOf(fmt));
    forall i | 0 <= i < |lines| - 1 ensures lines[i + 1] == Block(i + 1, sourceResults[i], fmt) {
      assert lines[i + 1] == BlockOf(fmt)(i + 1, sourceResults[i]);
    }
  }

  // ---- evaluate_retrieval_quality ----

  datatype Quality = Poor | Good

  datatype Evaluation = Evaluation(quality: Quality, score: Value, needsWebSearch: bool, reason: string)

  /** `v < 0.0` in Python for the values that compare with a float (a bool counts as 0 or 1). */
  function BelowZero(v: Value): Option<bool> {
    match v
    case Real(r) => Some(r < 0.0)
    case Int(i) => Some(i < 0)
    case Bool(_) => Some(false)
    case _ => None
  }

  /**
   * `evaluate_retrieval_quality`; a top score that does not compare with a float raises a
   * TypeError, the failure case. `fmt` renders a score with two decimals.
   */
  function EvaluateRetrievalQuality(query: string, results: seq<Dict>, fmt: Value -> string): (r: Result<Evaluation>)
    ensures results == [] ==> r == Success(Evaluation(Poor, Real(0.0), true, "No results found in knowledge base"))
    ensures r.Success? ==> (r.value.needsWebSearch <==> r.value.quality == Poor)
    ensures results != [] ==> (r.Failure? <==> BelowZero(Get(results[0], "rerank_score", Real(-999.0))).None?)
    ensures results != [] && r.Success? ==>
      r.value.score == Get(results[0], "rerank_score", Real(-999.0))
      && (r.value.needsWebSearch <==> BelowZero(r.value.score) == Some(true))
  {
    if results == [] then
      Success(Evaluation(Poor, Real(0.0), true, "No results found in knowledge base"))
    else
      var topScore := Get(results[0], "rerank_score", Real(-999.0));
      match BelowZero(topScore)
      case None => Failure("TypeError: '<' not supported between the score and 'float'")
      case Some(below) =>
        if below then
          Success(Evaluation(Poor, topScore, true, "Top result score (" + fmt(topScore) + ") below threshold (0.0)"))
        else
          Success(Evaluation(Good, topScore, false, "Sufficient results from knowledge base"))
  }

  /** A top result without a rerank score counts as -999 and asks for a web search. */
  lemma MissingScoreNeedsWeb(query: string, results: seq<Dict>, fmt: Value -> string)
    requires results != [] && "rerank_score" !in results[0]
    ensures var r := EvaluateRetrievalQuality(query, results, fmt);
      r.Success? && r.value.needsWebSearch && r.value.score == Real(-999.0)
  {
  }

  /** A top score of exactly 0.0 is good. */
  lemma ZeroScoreIsGood(query: string, results: seq<Dict>, fmt: Value -> string)
    requires results != [] && Get(results[0], "rerank_score", Null) == Real(0.0)
    ensures var r := EvaluateRetrievalQuality(query, results, fmt);
      r.Success? && r.value.quality == Good && !r.value.needsWebSearch
  {
  }
}
