/**
 * The HTTP layer as the scraper sees it: responses, the three ways a request
 * can end, what each fetcher hands back and records for each of them, and
 * the browser-like header set sent with every request.
 */
module Http {
  import opened Wrappers

  /** A response: its status code and its body text. */
  datatype Response = Response(status: int, text: string)

  /**
   * How one GET ends, as decided by the network (an oracle of the model).
   * Completed: the request returned a response, whose body the fetcher records before
   *   it checks the status; an error status is then raised and caught, and the response
   *   is handed back all the same.
   * RaisedWithResponse: the request itself raised an error that carries a response
   *   (too many redirects, for one), before any body was recorded.
   * RaisedWithoutResponse: the connection failed or timed out; there is no response.
   */
  datatype FetchOutcome =
    | Completed(status: int, text: string)
    | RaisedWithResponse(status: int, text: string)
    | RaisedWithoutResponse

  /** What `get` returns and what it leaves in `last_response_content`. */
  datatype Delivery = Delivery(response: Option<Response>, content: Option<string>)

  /**
   * The result of `get` for one outcome. Both fetchers clear `last_response_content`
   * first and set it to the body once the request returns. The Tor fetcher hands back
   * any response attached to a raised error; the direct fetcher only does so for the
   * error raised by the status check, and returns None for the others.
   */
  function Deliver(outcome: FetchOutcome, isTor: bool): (d: Delivery)
    ensures d.content.Some? <==> outcome.Completed?
    ensures d.response.None? <==> outcome.RaisedWithoutResponse? || (outcome.RaisedWithResponse? && !isTor)
    ensures d.response.Some? ==> d.response.value == Response(outcome.status, outcome.text)
  {
    match outcome
    case Completed(status, text) => Delivery(Some(Response(status, text)), Some(text))
    case RaisedWithResponse(status, text) =>
      if isTor then Delivery(Some(Response(status, text)), None) else Delivery(None, None)
    case RaisedWithoutResponse => Delivery(None, None)
  }

  /**
   * The truth value of a requests Response (`Response.ok`): false exactly for the
   * client- and server-error statuses 400-599, on which `raise_for_status` raises.
   */
  predicate IsTruthy(r: Response) {
    !(400 <= r.status < 600)
  }

  /** One request as sent: its URL, header set and timeout in seconds. */
  datatype Request = Request(url: string, headers: map<string, string>, timeout: int)

  /**
   * The browser-like header set. The direct fetcher's session and the Tor fetcher
   * both start from this set; the source keeps two identical copies of it.
   */
  const BrowserHeaders: map<string, string> := map[
    "Accept" := "*/*",
    "Accept-Encoding" := "gzip, deflate, br, zstd",
    "Accept-Language" := "en-US,en;q=0.9,en-GB;q=0.8",
    "Cache-Control" := "no-cache",
    "Connection" := "keep-alive",
    "Referer" := "https://www.bing.com/",
    "Sec-Fetch-Dest" := "empty",
    "Sec-Fetch-Mode" := "cors",
    "Sec-Fetch-Site" := "same-origin",
    "User-Agent" := "Mozilla/5.0 (Windows NT 10.0; Win64; x64; rv:126.0) Gecko/20100101 Firefox/126.0"
  ]

  /**
   * A copy of `base` updated with `custom` when `custom` is given and non-empty
   * (`d = base.copy(); if custom: d.update(custom)`). `base` itself is a value
   * and stays as it was.
   */
  function MergeHeaders(base: map<string, string>, custom: Option<map<string, string>>): map<string, string> {
    if custom.Some? && |custom.value| > 0 then base + custom.value else base
  }

  /**
   * The merged header set has the keys of both; the custom entries win and
   * every other entry of `base` is kept; without custom headers it is `base`.
   */
  lemma MergeHeadersOverrides(base: map<string, string>, custom: Option<map<string, string>>)
    ensures var r := MergeHeaders(base, custom);
      && (custom.None? ==> r == base)
      && (custom.Some? ==> r.Keys == base.Keys + custom.value.Keys)
      && (custom.Some? ==> forall h :: h in custom.value ==> r[h] == custom.value[h])
      && (forall h :: h in base && (custom.None? || h !in custom.value) ==> h in r && r[h] == base[h])
  {
  }
}
