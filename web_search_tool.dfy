/**
 * The Google Custom Search tool (tools/web_search.py): configuration checks before any request,
 * `num` capped at 10, and each returned item reshaped into a standard hit. The HTTP exchange is
 * a parameter.
 */
module WebSearchTool {
  import opened Wrappers
  import opened Py
  import Config

  /** The query parameters of the request. */
  datatype Request = Request(key: string, cx: string, q: string, num: int)

  /** The HTTP exchange: a decoded body whose `items` may be absent, or any exception's text. */
  datatype HttpOutcome = Ok(items: Option<seq<Dict>>) | Failed(message: string)

  /** The standardised reply; `query` and `count` are present only on success. */
  datatype SearchReply = SearchReply(
    status: string,
    error: Option<string>,
    query: Option<string>,
    count: Option<nat>,
    results: seq<Dict>)

  const MaxNum: int := 10

  /** `settings.google_search_api_key or settings.google_api_key` */
  function ApiKey(settings: Config.Settings): (key: string)
    ensures settings.googleSearchApiKey != "" ==> key == settings.googleSearchApiKey
    ensures settings.googleSearchApiKey == "" ==> key == settings.googleApiKey
  {
    if settings.googleSearchApiKey != "" then settings.googleSearchApiKey else settings.googleApiKey
  }

  /** The request made for a query, once the configuration checks pass. */
  function RequestFor(query: string, numResults: int, settings: Config.Settings): (r: Request)
    ensures r.num <= MaxNum && (r.num == numResults || r.num == MaxNum)
  {
    Request(ApiKey(settings), settings.googleSearchCseId, query, if numResults < MaxNum then numResults else MaxNum)
  }

  /** One Google item as a hit: missing fields become "", the link becomes `url`. */
  function ToHit(item: Dict): Dict {
    map["title" := Get(item, "title", Str("")),
        "url" := Get(item, "link", Str("")),
        "snippet" := Get(item, "snippet", Str("")),
        "source" := Str("google_search")]
  }

  function ToHits(items: seq<Dict>): (hits: seq<Dict>)
    ensures |hits| == |items|
    ensures forall i | 0 <= i < |items| :: hits[i] == ToHit(items[i])
  {
    seq(|items|, i requires 0 <= i < |items| => ToHit(items[i]))
  }

  /** The configuration error, if any: the key is checked before the engine id. */
  function ConfigError(settings: Config.Settings): Option<string> {
    if ApiKey(settings) == "" then Some("Google Search API Key not configured")
    else if settings.googleSearchCseId == "" then Some("Google CSE ID not configured")
    else None
  }

  /** The reply `search_google` gives for a given HTTP outcome. */
  function Reply(query: string, numResults: int, settings: Config.Settings, http: Request -> HttpOutcome): SearchReply {
    match ConfigError(settings)
    case Some(e) => SearchReply("error", Some(e), None, None, [])
    case None =>
      match http(RequestFor(query, numResults, settings))
      case Failed(message) => SearchReply("error", Some(message), None, None, [])
      case Ok(items) =>
        var hits := if items.Some? then ToHits(items.value) else [];
        SearchReply("success", None, Some(query), Some(|hits|), hits)
  }

  /** `search_google`: returns the reply and the request made, if one was. */
  method SearchGoogle(query: string, numResults: int, settings: Config.Settings, http: Request -> HttpOutcome)
    returns (reply: SearchReply, request: Option<Request>)
    ensures reply == Reply(query, numResults, settings, http)
    ensures request.Some? <==> ConfigError(settings).None?
    ensures request.Some? ==> request.value == RequestFor(query, numResults, settings)
  {
    var apiKey := if settings.googleSearchApiKey != "" then settings.googleSearchApiKey else settings.googleApiKey;
    var cseId := settings.googleSearchCseId;
    if apiKey == "" {
      return SearchReply("error", Some("Google Search API Key not configured"), None, None, []), None;
    }
    if cseId == "" {
      return SearchReply("error", Some("Google CSE ID not configured"), None, None, []), None;
    }
    var params := Request(apiKey, cseId, query, if numResults < MaxNum then numResults else MaxNum);
    request := Some(params);
    var data := http(params);
    if data.Failed? {
      return SearchReply("error", Some(data.message), None, None, []), request;
    }
    var searchResults: seq<Dict> := [];
    if data.items.Some? {
      var items := data.items.value;
      var i := 0;
      while i < |items|
        invariant 0 <= i <= |items|
        invariant searchResults == ToHits(items[..i])
      {
        searchResults := searchResults + [ToHit(items[i])];
        i := i + 1;
      }
      assert items[..i] == items;
    }
    reply := SearchReply("success", None, Some(query), Some(|searchResults|), searchResults);
  }

  /** A missing key is reported first, with no results, whatever the engine id. */
  lemma MissingKeyFirst(query: string, numResults: int, settings: Config.Settings, http: Request -> HttpOutcome)
    requires settings.googleSearchApiKey == "" && settings.googleApiKey == ""
    ensures Reply(query, numResults, settings, http) ==
      SearchReply("error", Some("Google Search API Key not configured"), None, None, [])
  {
  }

  /** With a key but no engine id: the engine-id error, with no results. */
  lemma MissingEngineId(query: string, numResults: int, settings: Config.Settings, http: Request -> HttpOutcome)
    requires ApiKey(settings) != "" && settings.googleSearchCseId == ""
    ensures Reply(query, numResults, settings, http) ==
      SearchReply("error", Some("Google CSE ID not configured"), None, None, [])
  {
  }

  /**
   * A successful exchange: status success and `count == len(results)`; no `items`
   * means no results; otherwise one hit per item, in order, each with source "google_search"
   * and url taken from the item's link.
   */
  lemma SuccessReshapesItems(query: string, numResults: int, settings: Config.Settings, http: Request -> HttpOutcome)
    requires ConfigError(settings).None? && http(RequestFor(query, numResults, settings)).Ok?
    ensures var r := Reply(query, numResults, settings, http);
      var items := http(RequestFor(query, numResults, settings)).items;
      && r.status == "success" && r.count == Some(|r.results|) && r.query == Some(query)
      && (items.None? ==> r.results == [])
      && (items.Some? ==> |r.results| == |items.value|)
      && (items.Some? ==>
            forall i | 0 <= i < |items.value| ::
              && r.results[i]["source"] == Str("google_search")
              && r.results[i]["url"] == Get(items.value[i], "link", Str(""))
              && r.results[i]["title"] == Get(items.value[i], "title", Str(""))
              && r.results[i]["snippet"] == Get(items.value[i], "snippet", Str("")))
  {
  }

  /** Any exception during the exchange: status error, its text, and no results. */
  lemma FailureIsError(query: string, numResults: int, settings: Config.Settings, http: Request -> HttpOutcome)
    requires ConfigError(settings).None? && http(RequestFor(query, numResults, settings)).Failed?
    ensures var r := Reply(query, numResults, settings, http);
      r.status == "error" && r.results == [] && r.error == Some(http(RequestFor(query, numResults, settings)).message)
  {
  }
}
