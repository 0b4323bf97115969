/**
 * The rerank tool (tools/rerank.py): score every document against the query with a
 * cross-encoder, stable-sort by that score in descending order, keep the first top_k;
 * on any model failure fall back to the first top_k documents in their input order.
 */
module RerankTool {
  import opened Wrappers
  import opened Py
  import Config

  /** The cross-encoder: either it loads and scores each (query, content) pair, or loading or prediction raises. */
  datatype CrossEncoder = Model(score: (string, Value) -> real) | Broken(message: string)

  datatype Status = StatusSuccess | StatusError

  /** The dictionary `rerank_results` returns. */
  datatype RerankResponse = RerankResponse(
    status: Status,
    error: Option<string>,
    results: seq<Dict>,
    originalCount: nat,
    rerankedCount: nat)

  const RerankScoreKey: string := "rerank_score"

  /** An entry of `scored_docs`: the copied document carrying its score, and the sort key. */
  datatype Scored = Scored(doc: Dict, key: real)

  /** `doc.copy()` with `rerank_score` set to the model's score for `(query, doc.get("content", ""))`. */
  function ScoreDoc(query: string, doc: Dict, score: (string, Value) -> real): Scored {
    var s := score(query, Get(doc, "content", Str("")));
    Scored(doc[RerankScoreKey := Real(s)], s)
  }

  /** `scored_docs` before sorting: one entry per document, in input order. */
  function Annotate(query: string, docs: seq<Dict>, score: (string, Value) -> real): (r: seq<Scored>)
    ensures |r| == |docs|
    ensures forall i | 0 <= i < |docs| ::
      r[i].key == score(query, Get(docs[i], "content", Str(""))) && r[i].doc == docs[i][RerankScoreKey := Real(r[i].key)]
  {
    seq(|docs|, i requires 0 <= i < |docs| => ScoreDoc(query, docs[i], score))
  }

  /** Places `x` before the first entry whose key is not larger, so it stays ahead of its equals. */
  function Insert(x: Scored, t: seq<Scored>): seq<Scored> {
    if t == [] || x.key >= t[0].key then [x] + t else [t[0]] + Insert(x, t[1..])
  }

  /** `sorted(s, key=..., reverse=True)`: Python's stable sort in descending key order. */
  function SortDesc(s: seq<Scored>): seq<Scored> {
    if s == [] then [] else Insert(s[0], SortDesc(s[1..]))
  }

  predicate SortedDesc(s: seq<Scored>) {
    forall i, j | 0 <= i < j < |s| :: s[i].key >= s[j].key
  }

  /** The entries whose key equals v, in order. */
  function WithKey(s: seq<Scored>, v: real): seq<Scored> {
    if s == [] then [] else (if s[0].key == v then [s[0]] else []) + WithKey(s[1..], v)
  }

  function Docs(s: seq<Scored>): (r: seq<Dict>)
    ensures |r| == |s|
    ensures forall i | 0 <= i < |s| :: r[i] == s[i].doc
  {
    seq(|s|, i requires 0 <= i < |s| => s[i].doc)
  }

  /** The value `rerank_results` returns (top_k = None takes `settings.rerank_top_k`). */
  function Rerank(query: string, documents: seq<Dict>, topK: Option<int>, settings: Config.Settings,
                  model: CrossEncoder): RerankResponse
  {
    var k := topK.GetOr(settings.rerankTopK);
    if documents == [] then RerankResponse(StatusSuccess, None, [], 0, 0)
    else
      match model
      case Broken(message) => RerankResponse(StatusError, Some(message), Prefix(documents, k), |documents|, 0)
      case Model(score) =>
        var top := Prefix(Docs(SortDesc(Annotate(query, documents, score))), k);
        RerankResponse(StatusSuccess, None, top, |documents|, |top|)
  }

  /** `rerank_results`: the scoring loop, the in-place sort and the slice. */
  method RerankResults(query: string, documents: seq<Dict>, topK: Option<int>, settings: Config.Settings,
                       model: CrossEncoder) returns (response: RerankResponse)
    ensures response == Rerank(query, documents, topK, settings, model)
    ensures documents == [] ==> response == RerankResponse(StatusSuccess, None, [], 0, 0)
    ensures response.originalCount == |documents|
    ensures response.status == StatusError <==> documents != [] && model.Broken?
    ensures response.status == StatusError ==>
      response.results == Prefix(documents, topK.GetOr(settings.rerankTopK)) && response.rerankedCount == 0
    ensures response.status == StatusSuccess ==> response.rerankedCount == |response.results|
  {
    var k := if topK.Some? then topK.value else settings.rerankTopK;
    if documents == [] {
      return RerankResponse(StatusSuccess, None, [], 0, 0);
    }
    if model.Broken? {
      return RerankResponse(StatusError, Some(model.message), Prefix(documents, k), |documents|, 0);
    }
    var scoredDocs: seq<Scored> := [];
    var i := 0;
    while i < |documents|
      invariant 0 <= i <= |documents|
      invariant scoredDocs == Annotate(query, documents[..i], model.score)
    {
      scoredDocs := scoredDocs + [ScoreDoc(query, documents[i], model.score)];
      i := i + 1;
    }
    assert documents[..i] == documents;
    var sorted := SortDesc(scoredDocs);
    var topResults := Prefix(Docs(sorted), k);
    response := RerankResponse(StatusSuccess, None, topResults, |documents|, |topResults|);
  }

  // ---- the sort: a sorted permutation that keeps equal keys in input order ----

  lemma {:induction false} InsertPermutes(x: Scored, t: seq<Scored>)
    ensures multiset(Insert(x, t)) == multiset([x] + t)
  {
    if t != [] && x.key < t[0].key {
      InsertPermutes(x, t[1..]);
      assert [x] + t == [x] + [t[0]] + t[1..];
      assert t == [t[0]] + t[1..];
    }
  }

  lemma {:induction false} InsertSorted(x: Scored, t: seq<Scored>)
    requires SortedDesc(t)
    ensures SortedDesc(Insert(x, t))
  {
    if t == [] || x.key >= t[0].key {
      HeadBoundsSorted(t);
      SortedCons(x, t);
    } else {
      var r := Insert(x, t[1..]);
      InsertSorted(x, t[1..]);
      InsertMembers(x, t[1..]);
      HeadBoundsSorted(t);
      SortedCons(t[0], r);
    }
  }

  /** The head of a descending list bounds every later key. */
  lemma HeadBoundsSorted(t: seq<Scored>)
    requires SortedDesc(t)
    ensures t != [] ==> forall e | e in t[1..] :: t[0].key >= e.key
    ensures SortedDesc(if t == [] then [] else t[1..])
  {
    if t != [] {
      forall e | e in t[1..] ensures t[0].key >= e.key {
        var j :| 0 <= j < |t[1..]| && t[1..][j] == e;
        assert t[j + 1] == e;
      }
    }
  }

  /** An entry inserted into t is either x or an entry of t. */
  lemma {:induction false} InsertMembers(x: Scored, t: seq<Scored>)
    ensures forall e | e in Insert(x, t) :: e == x || e in t
  {
    if t != [] && x.key < t[0].key {
      InsertMembers(x, t[1..]);
      assert forall e | e in t[1..] :: e in t;
    }
  }

  /** A key at least every key of a descending list can go in front of it. */
  lemma SortedCons(h: Scored, r: seq<Scored>)
    requires SortedDesc(r) && forall e | e in r :: h.key >= e.key
    ensures SortedDesc([h] + r)
  {
    var s := [h] + r;
    forall i, j | 0 <= i < j < |s| ensures s[i].key >= s[j].key {
      assert s[j] == r[j - 1];
      if i > 0 {
        assert s[i] == r[i - 1];
      } else {
        assert s[j] in r;
      }
    }
  }

  /** The sorted list is a permutation of its input. */
  lemma {:induction false} SortDescPermutes(s: seq<Scored>)
    ensures multiset(SortDesc(s)) == multiset(s)
    ensures |SortDesc(s)| == |s|
  {
    if s != [] {
      SortDescPermutes(s[1..]);
      InsertPermutes(s[0], SortDesc(s[1..]));
      assert s == [s[0]] + s[1..];
      assert |multiset(SortDesc(s))| == |multiset(s)|;
    }
  }

  /** The sorted list is in non-increasing key order. */
  lemma {:induction false} SortDescSorted(s: seq<Scored>)
    ensures SortedDesc(SortDesc(s))
  {
    if s != [] {
      SortDescSorted(s[1..]);
      InsertSorted(s[0], SortDesc(s[1..]));
    }
  }

  lemma {:induction false} InsertKeepsKeyOrder(x: Scored, t: seq<Scored>, v: real)
    ensures WithKey(Insert(x, t), v) == WithKey([x] + t, v)
  {
    if t != [] && x.key < t[0].key {
      InsertKeepsKeyOrder(x, t[1..], v);
      assert ([t[0]] + Insert(x, t[1..]))[1..] == Insert(x, t[1..]);
      assert ([x] + t)[1..] == t;
      assert ([x] + t[1..])[1..] == t[1..];
    }
  }

  /** Stability: for every key, the entries with that key appear in the same order as in the input. */
  lemma {:induction false} SortDescStable(s: seq<Scored>, v: real)
    ensures WithKey(SortDesc(s), v) == WithKey(s, v)
  {
    if s != [] {
      SortDescStable(s[1..], v);
      InsertKeepsKeyOrder(s[0], SortDesc(s[1..]), v);
      assert ([s[0]] + SortDesc(s[1..]))[1..] == SortDesc(s[1..]);
    }
  }

  // ---- what `rerank_results` promises ----

  /** Empty input: success, no results, both counts 0 (the model is never consulted). */
  lemma RerankEmpty(query: string, topK: Option<int>, settings: Config.Settings, model: CrossEncoder)
    ensures Rerank(query, [], topK, settings, model) == RerankResponse(StatusSuccess, None, [], 0, 0)
  {
  }

  /** A document's own score, read back from its `rerank_score` entry. */
  predicate ScoredCopyOf(query: string, r: Dict, d: Dict, score: (string, Value) -> real) {
    r == d[RerankScoreKey := Real(score(query, Get(d, "content", Str(""))))]
  }

  /**
   * On success: min(top_k, n) results for a non-negative top_k, the counts agree, each result is
   * a copy of some input document with its own score added under `rerank_score`, and the results
   * are in non-increasing score order.
   */
  lemma RerankSuccess(query: string, documents: seq<Dict>, topK: Option<int>, settings: Config.Settings,
                      score: (string, Value) -> real)
    requires documents != []
    ensures var r := Rerank(query, documents, topK, settings, Model(score));
      var k := topK.GetOr(settings.rerankTopK);
      && r.status == StatusSuccess
      && r.originalCount == |documents|
      && r.rerankedCount == |r.results|
      && (k >= 0 ==> |r.results| == if k < |documents| then k else |documents|)
      && (forall i | 0 <= i < |r.results| ::
            exists j | 0 <= j < |documents| :: ScoredCopyOf(query, r.results[i], documents[j], score))
      && (forall i, j | 0 <= i < j < |r.results| ::
            r.results[i][RerankScoreKey].r >= r.results[j][RerankScoreKey].r)
  {
    var k := topK.GetOr(settings.rerankTopK);
    var a := Annotate(query, documents, score);
    var sorted := SortDesc(a);
    SortDescPermutes(a);
    SortDescSorted(a);
    var top := Prefix(Docs(sorted), k);
    assert |top| <= |sorted|;
    forall i | 0 <= i < |top|
      ensures exists j | 0 <= j < |documents| :: ScoredCopyOf(query, top[i], documents[j], score)
      ensures top[i][RerankScoreKey] == Real(sorted[i].key)
    {
      assert top[i] == sorted[i].doc;
      assert sorted[i] in multiset(a);
      var j :| 0 <= j < |a| && a[j] == sorted[i];
      assert ScoredCopyOf(query, top[i], documents[j], score);
    }
    if k >= 0 {
      PrefixNonNegative(Docs(sorted), k);
    }
  }

  /** Equal scores keep their input order: the score-v entries of the sorted list are those of the input, in order. */
  lemma RerankStable(query: string, documents: seq<Dict>, score: (string, Value) -> real, v: real)
    ensures WithKey(SortDesc(Annotate(query, documents, score)), v) == WithKey(Annotate(query, documents, score), v)
  {
    SortDescStable(Annotate(query, documents, score), v);
  }

  /** On a model error: status error, the first top_k documents in input order, reranked_count 0. */
  lemma RerankFailure(query: string, documents: seq<Dict>, topK: Option<int>, settings: Config.Settings, message: string)
    requires documents != []
    ensures var r := Rerank(query, documents, topK, settings, Broken(message));
      && r.status == StatusError && r.error == Some(message)
      && r.results == Prefix(documents, topK.GetOr(settings.rerankTopK))
      && r.originalCount == |documents| && r.rerankedCount == 0
  {
  }

  /** With top_k = None the default `rerank_top_k` of 5 applies. */
  lemma RerankDefaultTopK(query: string, documents: seq<Dict>, model: CrossEncoder)
    ensures Rerank(query, documents, None, Config.Defaults, model) == Rerank(query, documents, Some(5), Config.Defaults, model)
  {
  }
}
