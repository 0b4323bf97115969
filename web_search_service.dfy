/**
 * The web search adapter (infrastructure/ai/web_search_service.py): a failed reply gives no
 * results; otherwise each raw hit becomes a domain result with its URL as id and score 0.0.
 */
module WebSearchService {
  import opened Wrappers
  import opened Py
  import opened Entities
  import WebSearchTool

  /** The reply of the multi-provider `search_web` it calls: a status and the raw hits. */
  datatype WebReply = WebReply(status: string, results: seq<Dict>)

  /** A text field of a raw hit (the hits carry strings; anything else reads as ""). */
  function TextOf(v: Value): string {
    if v.Str? then v.s else ""
  }

  /** One raw hit as a domain result. */
  function ToResult(r: Dict): SearchResult {
    SearchResult(
      TextOf(Get(r, "snippet", Str(""))),
      map["title" := Get(r, "title", Str("")),
          "url" := Get(r, "url", Str("")),
          "source" := Get(r, "source", Str("web_search"))],
      TextOf(Get(r, "url", Str(""))),
      Some(0.0),
      None,
      None)
  }

  /** `SerperWebSearchService.search`, given the reply of the search it delegates to. */
  function Search(reply: WebReply): (out: seq<SearchResult>)
    ensures reply.status != "success" ==> out == []
    ensures reply.status == "success" ==> |out| == |reply.results|
  {
    if reply.status != "success" then []
    else seq(|reply.results|, i requires 0 <= i < |reply.results| => ToResult(reply.results[i]))
  }

  /**
   * On success, result i comes from hit i: its snippet as content, its URL (default "") as id,
   * score 0.0, metadata with title, url and a source that defaults to "web_search".
   */
  lemma SearchMapsEachHit(reply: WebReply)
    requires reply.status == "success"
    ensures var out := Search(reply);
      forall i | 0 <= i < |out| ::
        var r := reply.results[i];
        && out[i].content == TextOf(Get(r, "snippet", Str("")))
        && out[i].id == TextOf(Get(r, "url", Str("")))
        && out[i].score == Some(0.0)
        && out[i].metadata["title"] == Get(r, "title", Str(""))
        && out[i].metadata["url"] == Get(r, "url", Str(""))
        && out[i].metadata["source"] == (if "source" in r then r["source"] else Str("web_search"))
  {
  }

  /**
   * Fed a Google reply, the domain results' ids are the items' links, their content the items'
   * snippets, and their source "google_search".
   */
  lemma GoogleLinksBecomeIds(items: seq<Dict>)
    requires forall i | 0 <= i < |items| :: Get(items[i], "link", Str("")).Str? && Get(items[i], "snippet", Str("")).Str?
    ensures var out := Search(WebReply("success", WebSearchTool.ToHits(items)));
      && |out| == |items|
      && forall i | 0 <= i < |items| ::
           && Str(out[i].id) == Get(items[i], "link", Str(""))
           && Str(out[i].content) == Get(items[i], "snippet", Str(""))
           && out[i].metadata["source"] == Str("google_search")
  {
  }
}
