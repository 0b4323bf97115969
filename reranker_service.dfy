/**
 * The reranker adapter (infrastructure/ai/reranker_service.py): convert domain results to the
 * tool's dictionaries, rerank them, and convert back; on a tool error, keep the first top_k.
 */
module RerankerService {
  import opened Wrappers
  import opened Py
  import opened Entities
  import Config
  import RerankTool

  /** The tool-compatible dictionary built for one result. */
  function RawDoc(d: SearchResult): Dict {
    map["content" := Str(d.content), "metadata" := Obj(d.metadata), "id" := Str(d.id)]
  }

  function RawDocs(ds: seq<SearchResult>): (r: seq<Dict>)
    ensures |r| == |ds|
  {
    seq(|ds|, i requires 0 <= i < |ds| => RawDoc(ds[i]))
  }

  // Readers for the values of a reranked dictionary; the fallbacks are never taken for the
  // dictionaries this adapter builds (RerankSucceeds shows each result is a scored RawDoc).
  function AsString(v: Value): string { if v.Str? then v.s else "" }
  function AsDict(v: Value): Dict { if v.Obj? then v.d else map[] }
  function AsReal(v: Value): real { if v.Real? then v.r else 0.0 }

  /** `SearchResult(content=r["content"], metadata=r["metadata"], id=r["id"], score=r["rerank_score"])`. */
  function ToResult(r: Dict): SearchResult {
    SearchResult(AsString(Get(r, "content", Null)), AsDict(Get(r, "metadata", Null)), AsString(Get(r, "id", Null)),
                 Some(AsReal(Get(r, RerankTool.RerankScoreKey, Null))), None, None)
  }

  /**
   * `CrossEncoderReranker.rerank`. The tool's own settings matter only when it is given no
   * top_k, which this caller never does, so the defaults stand in for them.
   */
  function Rerank(query: string, documents: seq<SearchResult>, topK: int, model: RerankTool.CrossEncoder): seq<SearchResult> {
    if documents == [] then []
    else
      var res := RerankTool.Rerank(query, RawDocs(documents), Some(topK), Config.Defaults, model);
      if res.status != RerankTool.StatusSuccess then Prefix(documents, topK)
      else seq(|res.results|, i requires 0 <= i < |res.results| => ToResult(res.results[i]))
  }

  /** A result `d` rescored with `s`; its source and page number are not carried over. */
  function Rescored(d: SearchResult, s: real): SearchResult {
    d.(score := Some(s), source := None, pageNumber := None)
  }

  /**
   * With a working model: min(top_k, n) results, each an input result rescored with the model's
   * score for its content (source and page number dropped), in non-increasing score order.
   */
  lemma RerankSucceeds(query: string, documents: seq<SearchResult>, topK: int, score: (string, Value) -> real)
    requires documents != []
    ensures var out := Rerank(query, documents, topK, RerankTool.Model(score));
      && (topK >= 0 ==> |out| == if topK < |documents| then topK else |documents|)
      && (forall i | 0 <= i < |out| ::
            exists j | 0 <= j < |documents| :: out[i] == Rescored(documents[j], score(query, Str(documents[j].content))))
      && (forall i, j | 0 <= i < j < |out| :: out[i].score.value >= out[j].score.value)
  {
    var raw := RawDocs(documents);
    var res := RerankTool.Rerank(query, raw, Some(topK), Config.Defaults, RerankTool.Model(score));
    RerankTool.RerankSuccess(query, raw, Some(topK), Config.Defaults, score);
    var out := Rerank(query, documents, topK, RerankTool.Model(score));
    forall i | 0 <= i < |out|
      ensures exists j | 0 <= j < |documents| :: out[i] == Rescored(documents[j], score(query, Str(documents[j].content)))
      ensures out[i].score == Some(res.results[i][RerankTool.RerankScoreKey].r)
    {
      var j :| 0 <= j < |raw| && RerankTool.ScoredCopyOf(query, res.results[i], raw[j], score);
      assert out[i] == Rescored(documents[j], score(query, Str(documents[j].content)));
    }
  }

  /** With a failing model: the first top_k input results, unchanged and in order. */
  lemma RerankFallsBack(query: string, documents: seq<SearchResult>, topK: int, message: string)
    ensures Rerank(query, documents, topK, RerankTool.Broken(message)) == Prefix(documents, topK)
  {
  }

  /** No input, no output, whatever the model. */
  lemma RerankEmpty(query: string, topK: int, model: RerankTool.CrossEncoder)
    ensures Rerank(query, [], topK, model) == []
  {
  }
}
