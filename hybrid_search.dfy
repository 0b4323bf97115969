/**
 * The hybrid search use case (application/use_cases/search.py): vector and keyword candidates,
 * merged without repeated ids, reranked, and, when the corrective mode (CRAG) is on and the best
 * reranked score is negative, topped up with unseen web results.
 */
module HybridSearch {
  import opened Wrappers
  import opened Py
  import opened Entities
  import Dedup
  import Text

  /** Cross-encoder scores above 0 usually indicate relevance. */
  const CragQualityThreshold: real := 0.0

  /** The repository, reranker and optional web search the use case is built with. */
  datatype Services = Services(
    searchSimilar: (string, int) -> seq<SearchResult>,
    searchKeyword: (string, int) -> seq<SearchResult>,
    rerank: (string, seq<SearchResult>, int) -> seq<SearchResult>,
    webSearch: Option<(string, int) -> seq<SearchResult>>)

  /** A request made to one of the services, with its arguments. */
  datatype Call =
    | SimilarCall(query: string, topK: int)
    | KeywordCall(query: string, topK: int)
    | RerankCall(query: string, documents: seq<SearchResult>, topK: int)
    | WebCall(query: string, numResults: int)

  // ---- resolving the CRAG switch ----

  /**
   * Line 52 as written: with no override it reads `settings.crag_enabled`, a field the
   * settings class does not declare, so the attribute access raises.
   */
  function ResolveCragAsWritten(enableCrag: Option<bool>): (r: Result<bool>)
    ensures enableCrag.Some? ==> r == Success(enableCrag.value)
  {
    match enableCrag
    case Some(b) => Success(b)
    case None => Failure("AttributeError: 'Settings' object has no attribute 'crag_enabled'")
  }

  /** Calling `execute` without an override fails before any search is made. */
  lemma ResolveCragDefaultFails()
    ensures ResolveCragAsWritten(None).Failure?
  {
  }

  /** As intended: the override when given, the configured switch otherwise. */
  function ResolveCrag(enableCrag: Option<bool>, configured: bool): (on: bool)
    ensures enableCrag.Some? ==> on == enableCrag.value
    ensures enableCrag.None? ==> on == configured
  {
    enableCrag.GetOr(configured)
  }

  /** The corrected switch agrees with the written one wherever the written one has a value. */
  lemma ResolveCragAgrees(enableCrag: Option<bool>, configured: bool)
    ensures ResolveCragAsWritten(enableCrag).Success? ==> ResolveCragAsWritten(enableCrag).value == ResolveCrag(enableCrag, configured)
    ensures ResolveCragAsWritten(enableCrag).Success? <==> enableCrag.Some?
  {
  }

  /** The results of `s` whose id is neither in `seen` nor on an earlier result. */
  function DedupFrom(s: seq<SearchResult>, seen: set<string>): seq<SearchResult> {
    Dedup.DedupFrom(s, IdOf, seen)
  }

  // ---- the use case, as a specification ----

  /** The vector-then-keyword candidates with repeated ids dropped. */
  function Merge(vector: seq<SearchResult>, keyword: seq<SearchResult>): seq<SearchResult> {
    DedupFrom(vector + keyword, {})
  }

  /** `_evaluate_quality`: the top result's score, or -999 when there is no result or no score. */
  function Quality(results: seq<SearchResult>): (q: real)
    ensures results == [] ==> q == -999.0
    ensures results != [] && results[0].score.None? ==> q == -999.0
    ensures results != [] && results[0].score.Some? ==> q == results[0].score.value
  {
    if results == [] then -999.0
    else match results[0].score
      case None => -999.0
      case Some(s) => s
  }

  /** The reranked list: the reranker's answer for a non-empty merge, empty otherwise. */
  function Reranked(query: string, merged: seq<SearchResult>, topK: int, svc: Services): seq<SearchResult> {
    if merged != [] then svc.rerank(query, merged, topK) else []
  }

  /** Whether the web fallback runs. */
  predicate Fallback(crag: bool, svc: Services, reranked: seq<SearchResult>) {
    crag && svc.webSearch.Some? && Quality(reranked) < CragQualityThreshold
  }

  /** The value `execute` returns (with the switch resolved as intended). */
  function Search(query: string, topK: int, crag: bool, svc: Services): seq<SearchResult> {
    var vector := svc.searchSimilar(query, topK * 3);
    var keyword := svc.searchKeyword(query, topK * 3);
    var merged := Merge(vector, keyword);
    var reranked := Reranked(query, merged, topK, svc);
    if Fallback(crag, svc, reranked) then
      Prefix(reranked + DedupFrom(svc.webSearch.value(query, topK), Ids(vector + keyword)), topK)
    else reranked
  }

  /** The requests `execute` makes, in order. */
  function Calls(query: string, topK: int, crag: bool, svc: Services): seq<Call> {
    var merged := Merge(svc.searchSimilar(query, topK * 3), svc.searchKeyword(query, topK * 3));
    var reranked := Reranked(query, merged, topK, svc);
    [SimilarCall(query, topK * 3), KeywordCall(query, topK * 3)]
      + (if merged != [] then [RerankCall(query, merged, topK)] else [])
      + (if Fallback(crag, svc, reranked) then [WebCall(query, topK)] else [])
  }

  /** The `seen_ids` / `merged` loop over the candidates. */
  method MergeLoop(candidates: seq<SearchResult>) returns (merged: seq<SearchResult>, seenIds: set<string>)
    ensures merged == DedupFrom(candidates, {})
    ensures seenIds == Ids(candidates)
  {
    seenIds := {};
    merged := [];
    var i := 0;
    while i < |candidates|
      invariant 0 <= i <= |candidates|
      invariant seenIds == Ids(candidates[..i])
      invariant merged == DedupFrom(candidates[..i], {})
    {
      var res := candidates[i];
      assert candidates[..i + 1] == candidates[..i] + [res];
      Dedup.DedupSnoc(candidates[..i], res, IdOf, {});
      if res.id !in seenIds {
        seenIds := seenIds + {res.id};
        merged := merged + [res];
      }
      i := i + 1;
    }
    assert candidates[..i] == candidates;
  }

  /** The loop appending each web result whose id is not yet seen. */
  method AppendUnseen(reranked: seq<SearchResult>, webResults: seq<SearchResult>, seen: set<string>)
    returns (out: seq<SearchResult>)
    ensures out == reranked + DedupFrom(webResults, seen)
  {
    var seenIds := seen;
    out := reranked;
    var j := 0;
    while j < |webResults|
      invariant 0 <= j <= |webResults|
      invariant seenIds == seen + Ids(webResults[..j])
      invariant out == reranked + DedupFrom(webResults[..j], seen)
    {
      var webRes := webResults[j];
      assert webResults[..j + 1] == webResults[..j] + [webRes];
      Dedup.DedupSnoc(webResults[..j], webRes, IdOf, seen);
      if webRes.id !in seenIds {
        seenIds := seenIds + {webRes.id};
        out := out + [webRes];
      }
      j := j + 1;
    }
    assert webResults[..j] == webResults;
  }

  /** `HybridSearchUseCase.execute`, step by step, returning the results and the requests made. */
  method Execute(query: string, topK: int, enableCrag: Option<bool>, cragConfigured: bool, svc: Services)
    returns (results: seq<SearchResult>, calls: seq<Call>)
    ensures results == Search(query, topK, ResolveCrag(enableCrag, cragConfigured), svc)
    ensures calls == Calls(query, topK, ResolveCrag(enableCrag, cragConfigured), svc)
  {
    var cragEnabled := if enableCrag.Some? then enableCrag.value else cragConfigured;
    var fetchK := topK * 3;
    var vectorResults := svc.searchSimilar(query, fetchK);
    var keywordResults := svc.searchKeyword(query, fetchK);
    calls := [SimilarCall(query, fetchK), KeywordCall(query, fetchK)];

    var merged, seenIds := MergeLoop(vectorResults + keywordResults);

    var reranked: seq<SearchResult>;
    if merged != [] {
      reranked := svc.rerank(query, merged, topK);
      calls := calls + [RerankCall(query, merged, topK)];
    } else {
      reranked := [];
    }

    if cragEnabled && svc.webSearch.Some? {
      var qualityScore := Quality(reranked);
      if qualityScore < CragQualityThreshold {
        var webResults := svc.webSearch.value(query, topK);
        calls := calls + [WebCall(query, topK)];
        reranked := AppendUnseen(reranked, webResults, seenIds);
        reranked := Prefix(reranked, topK);
      }
    }
    results := reranked;
  }

  // ---- what `execute` promises ----

  /** Both repository searches ask for three times top_k candidates, vector search first. */
  lemma FetchesThreeTimesTopK(query: string, topK: int, crag: bool, svc: Services)
    ensures var c := Calls(query, topK, crag, svc);
      |c| >= 2 && c[0] == SimilarCall(query, 3 * topK) && c[1] == KeywordCall(query, 3 * topK)
  {
  }

  /**
   * The merged list: distinct ids, exactly the ids of all candidates, each id by its first
   * occurrence, in candidate order, vector-derived entries before keyword-only ones.
   */
  lemma MergeDedups(vector: seq<SearchResult>, keyword: seq<SearchResult>)
    ensures var m := Merge(vector, keyword);
      && Dedup.Distinct(m, IdOf)
      && Ids(m) == Ids(vector + keyword)
      && Dedup.IsSubseq(m, vector + keyword)
      && (forall j | 0 <= j < |vector + keyword| && (forall i | 0 <= i < j :: (vector + keyword)[i].id != (vector + keyword)[j].id)
            :: (vector + keyword)[j] in m)
      && m == DedupFrom(vector, {}) + DedupFrom(keyword, Ids(vector))
  {
    var s := vector + keyword;
    Dedup.DedupSpec(s, IdOf, {});
    Dedup.DedupAppend(vector, keyword, IdOf, {});
    assert {} + Ids(vector) == Ids(vector);
  }

  /** An empty merge means no rerank request and an empty reranked list. */
  lemma EmptyMergeSkipsRerank(query: string, topK: int, crag: bool, svc: Services)
    requires Merge(svc.searchSimilar(query, topK * 3), svc.searchKeyword(query, topK * 3)) == []
    ensures forall c | c in Calls(query, topK, crag, svc) :: !c.RerankCall?
    ensures Search(query, topK, crag, svc) == [] || Fallback(crag, svc, [])
  {
  }

  /** The fallback runs iff CRAG is on, a web search is present and the quality is below 0. */
  lemma FallbackIff(query: string, topK: int, crag: bool, svc: Services)
    ensures var merged := Merge(svc.searchSimilar(query, topK * 3), svc.searchKeyword(query, topK * 3));
      var reranked := Reranked(query, merged, topK, svc);
      (WebCall(query, topK) in Calls(query, topK, crag, svc))
        <==> crag && svc.webSearch.Some? && Quality(reranked) < 0.0
  {
  }

  /** A top score of exactly 0.0 is good enough: no fallback. */
  lemma ZeroScoreNoFallback(crag: bool, svc: Services, reranked: seq<SearchResult>)
    requires reranked != [] && reranked[0].score == Some(0.0)
    ensures !Fallback(crag, svc, reranked)
  {
  }

  /** With CRAG on, a web search present and nothing found, the fallback always runs. */
  lemma NothingFoundFallsBack(svc: Services)
    requires svc.webSearch.Some?
    ensures Fallback(true, svc, [])
  {
  }

  /** Without fallback the reranker's output is returned as is, not truncated by the use case. */
  lemma NoFallbackIsReranked(query: string, topK: int, crag: bool, svc: Services)
    ensures var merged := Merge(svc.searchSimilar(query, topK * 3), svc.searchKeyword(query, topK * 3));
      var reranked := Reranked(query, merged, topK, svc);
      !Fallback(crag, svc, reranked) ==> Search(query, topK, crag, svc) == reranked
  {
  }

  /**
   * After fallback: the reranked list followed by the web results whose id is not among the
   * candidates (even those the reranker dropped) and not on an earlier web result, in order,
   * cut to top_k; for a non-negative top_k the knowledge-base results come first.
   */
  lemma FallbackAppendsUnseenWeb(query: string, topK: int, crag: bool, svc: Services)
    requires var merged := Merge(svc.searchSimilar(query, topK * 3), svc.searchKeyword(query, topK * 3));
      Fallback(crag, svc, Reranked(query, merged, topK, svc))
    ensures var vector := svc.searchSimilar(query, topK * 3);
      var keyword := svc.searchKeyword(query, topK * 3);
      var reranked := Reranked(query, Merge(vector, keyword), topK, svc);
      var web := DedupFrom(svc.webSearch.value(query, topK), Ids(vector + keyword));
      var out := Search(query, topK, crag, svc);
      && out == Prefix(reranked + web, topK)
      && Dedup.Distinct(web, IdOf)
      && Ids(web) !! Ids(vector + keyword)
      && Ids(web) == Ids(svc.webSearch.value(query, topK)) - Ids(vector + keyword)
      && (topK >= 0 ==> |out| <= topK)
      && (topK >= 0 && |out| > |reranked| ==> out[..|reranked|] == reranked)
      && (topK >= 0 && |out| <= |reranked| ==> out == reranked[..|out|])
  {
    var vector := svc.searchSimilar(query, topK * 3);
    var keyword := svc.searchKeyword(query, topK * 3);
    var webIn := svc.webSearch.value(query, topK);
    Dedup.DedupKeys(webIn, IdOf, Ids(vector + keyword));
    var reranked := Reranked(query, Merge(vector, keyword), topK, svc);
    var web := DedupFrom(webIn, Ids(vector + keyword));
    if topK >= 0 {
      PrefixNonNegative(reranked + web, topK);
    }
  }

  // ---- format_for_llm ----

  /** The citation label: the first truthy of source, file_name, title, else "unknown"; a truthy url overrides it. */
  function SourceLabel(metadata: Dict): string {
    var named := Or(Or(Or(Get(metadata, "source", Null), Get(metadata, "file_name", Null)), Get(metadata, "title", Null)), Str("unknown"));
    var url := Get(metadata, "url", Str(""));
    var title := Get(metadata, "title", Str(""));
    if Truthy(url) then (if Truthy(title) then Show(title) + " (" + Show(url) + ")" else Show(url))
    else Show(named)
  }

  /** How each label arises, from the metadata fields that are truthy. */
  lemma SourceLabelPrecedence(m: Dict)
    ensures var url := Get(m, "url", Null);
      var title := Get(m, "title", Null);
      && (Truthy(url) && Truthy(title) ==> SourceLabel(m) == Show(title) + " (" + Show(url) + ")")
      && (Truthy(url) && !Truthy(title) ==> SourceLabel(m) == Show(url))
      && (!Truthy(url) && Truthy(Get(m, "source", Null)) ==> SourceLabel(m) == Show(m["source"]))
      && (!Truthy(url) && !Truthy(Get(m, "source", Null)) && Truthy(Get(m, "file_name", Null)) ==>
            SourceLabel(m) == Show(m["file_name"]))
      && (!Truthy(url) && !Truthy(Get(m, "source", Null)) && !Truthy(Get(m, "file_name", Null)) && Truthy(title) ==>
            SourceLabel(m) == Show(title))
      && (!Truthy(url) && !Truthy(Get(m, "source", Null)) && !Truthy(Get(m, "file_name", Null)) && !Truthy(title) ==>
            SourceLabel(m) == "unknown")
  {
  }

  /** The block for the i-th result (1-based); `fmt` renders a score with two decimals. */
  function Block(i: nat, doc: SearchResult, fmt: real -> string): string {
    var score := if doc.score.Some? then doc.score.value else 0.0;
    "[" + NatToString(i) + "] Document (Score: " + fmt(score) + ")\n"
      + "   Source: " + SourceLabel(doc.metadata) + "\n"
      + "   Content: " + doc.content + "\n"
  }

  /** `format_for_llm`: a header line, then one block per result, joined by newlines. */
  method FormatForLlm(query: string, results: seq<SearchResult>, fmt: real -> string) returns (text: string)
    ensures results == [] ==> text == "### Search found 0 documents for: " + query
    ensures results != [] ==> exists lines: seq<string> ::
      && |lines| == |results| + 1
      && lines[0] == "### Search found " + NatToString(|results|) + " documents:"
      && (forall i | 0 <= i < |results| :: lines[i + 1] == Block(i + 1, results[i], fmt))
      && text == Text.Join(lines, "\n")
  {
    if results == [] {
      return "### Search found 0 documents for: " + query;
    }
    var outputLines := ["### Search found " + NatToString(|results|) + " documents:"];
    var i := 0;
    while i < |results|
      invariant 0 <= i <= |results|
      invariant |outputLines| == i + 1
      invariant outputLines[0] == "### Search found " + NatToString(|results|) + " documents:"
      invariant forall k | 0 <= k < i :: outputLines[k + 1] == Block(k + 1, results[k], fmt)
    {
      outputLines := outputLines + [Block(i + 1, results[i], fmt)];
      i := i + 1;
    }
    text := Text.Join(outputLines, "\n");
  }
}
