/** The writer agent's helpers (agents/writer.py): the numbered source list and the disclaimer footer. */
module Writer {
  import opened Py
  import opened Text

  /** One entry of `format_sources`; the fields hold whatever the document dict stores. */
  datatype SourceEntry = SourceEntry(id: string, title: Value, source: Value, url: Value)

  /** The citation marker `f"[{idx}]"`. */
  function CitationId(idx: nat): string {
    "[" + NatToString(idx) + "]"
  }

  /** The entry built for the document at 1-based position idx. */
  function SourceOf(doc: Dict, idx: nat): SourceEntry {
    SourceEntry(CitationId(idx), Get(doc, "title", Str("Unknown")), Get(doc, "source", Str("knowledge_base")), Get(doc, "url", Str("")))
  }

  /** `format_sources(docs)`: one entry per document, in order, numbered from 1. */
  method FormatSources(docs: seq<Dict>) returns (sources: seq<SourceEntry>)
    ensures |sources| == |docs|
    ensures forall i | 0 <= i < |docs| :: sources[i] == SourceOf(docs[i], i + 1)
  {
    sources := [];
    var idx := 0;
    while idx < |docs|
      invariant 0 <= idx <= |docs|
      invariant |sources| == idx
      invariant forall i | 0 <= i < idx :: sources[i] == SourceOf(docs[i], i + 1)
    {
      sources := sources + [SourceOf(docs[idx], idx + 1)];
      idx := idx + 1;
    }
  }

  /** A missing field takes its default: "Unknown", "knowledge_base" and "". */
  lemma SourceDefaults(doc: Dict, idx: nat)
    ensures "title" !in doc ==> SourceOf(doc, idx).title == Str("Unknown")
    ensures "source" !in doc ==> SourceOf(doc, idx).source == Str("knowledge_base")
    ensures "url" !in doc ==> SourceOf(doc, idx).url == Str("")
    ensures "title" in doc ==> SourceOf(doc, idx).title == doc["title"]
  {
  }

  /** Different positions get different citation markers. */
  lemma CitationIdsDistinct(a: nat, b: nat)
    requires a != b
    ensures CitationId(a) != CitationId(b)
  {
    if CitationId(a) == CitationId(b) {
      var n := NatToString(a);
      var m := NatToString(b);
      assert CitationId(a)[1..|CitationId(a)| - 1] == n;
      assert CitationId(b)[1..|CitationId(b)| - 1] == m;
      NatToStringInjective(a, b);
    }
  }

  const LowConfidenceNotice: string := "⚠️ 此回答的信心度較低，建議進一步驗證。"
  const WebSourceNotice: string := "ℹ️ 部分資訊來自網路搜索，請注意時效性。"
  const DisclaimerSeparator: string := "\n\n---\n"

  /** The notices that apply, low confidence first. */
  function Disclaimers(confidence: real, hasWebSources: bool): (ds: seq<string>)
    ensures |ds| <= 2
    ensures LowConfidenceNotice in ds <==> confidence < 0.7
    ensures WebSourceNotice in ds <==> hasWebSources
    ensures ds == [] <==> confidence >= 0.7 && !hasWebSources
    ensures confidence < 0.7 ==> ds[0] == LowConfidenceNotice
  {
    (if confidence < 0.7 then [LowConfidenceNotice] else []) + (if hasWebSources then [WebSourceNotice] else [])
  }

  /** `add_disclaimer_if_needed(answer, confidence, has_web_sources)` */
  method AddDisclaimerIfNeeded(answer: string, confidence: real, hasWebSources: bool) returns (r: string)
    ensures r == answer <==> confidence >= 0.7 && !hasWebSources
    ensures answer <= r
    ensures r != answer ==> r == answer + DisclaimerSeparator + Join(Disclaimers(confidence, hasWebSources), "\n")
  {
    var disclaimers: seq<string> := [];
    if confidence < 0.7 {
      disclaimers := disclaimers + [LowConfidenceNotice];
    }
    if hasWebSources {
      disclaimers := disclaimers + [WebSourceNotice];
    }
    assert disclaimers == Disclaimers(confidence, hasWebSources);
    if disclaimers != [] {
      r := answer + DisclaimerSeparator + Join(disclaimers, "\n");
      assert |r| > |answer|;
      assert r[..|answer|] == answer;
    } else {
      r := answer;
    }
  }

  /** Both notices: low confidence comes first, on its own line before the web notice. */
  lemma BothNoticesInOrder(confidence: real)
    requires confidence < 0.7
    ensures Join(Disclaimers(confidence, true), "\n") == LowConfidenceNotice + "\n" + WebSourceNotice
  {
    assert Disclaimers(confidence, true) == [LowConfidenceNotice, WebSourceNotice];
  }

  /** A confidence of exactly 0.7 adds no low-confidence notice. */
  lemma ThresholdIsExclusive(hasWebSources: bool)
    ensures LowConfidenceNotice !in Disclaimers(0.7, hasWebSources)
    ensures Disclaimers(0.7, false) == []
  {
  }
}
