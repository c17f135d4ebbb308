/**
 * `scrape_fresh_session` and `extract_build_and_session_params`: the token is
 * taken from the whole page if possible and from its script blocks otherwise;
 * the build label, the flow id and the request counter come alongside.
 */
module SessionScrape {
  import opened Wrappers
  import opened Decimal
  import opened TokenSearch

  /** Build label used when the page has no `"bl":"…"` field (a stale snapshot). */
  const DefaultBuild: string := "boq_assistant-bard-web-server_20251217.07_p5"
  /** The request counter is the millisecond clock modulo this. */
  const ReqidModulus: int := 1000000

  /** Outcome of the page fetch: its text, or an exception raised while fetching. */
  datatype Fetch = Page(html: string) | FetchFailed

  /** The HTML parser: the `.string` of every script block of a page, in document order. */
  type ScriptParser = string -> seq<Option<string>>

  /** A value of the parameter dict: the build label and flow id are text, the counter a number. */
  datatype ParamValue = Text(text: string) | Number(number: int)

  /** The scraped session, without the connection it was fetched over. */
  datatype Session = Session(token: string, bl: string, fsid: string, reqid: int)

  /** The build label of a page: the first `"bl":"…"` capture, or the default. */
  function BuildLabel(search: Search, html: string): (bl: string)
    ensures search(BuildPattern, html) != [] ==> bl == search(BuildPattern, html)[0]
    ensures search(BuildPattern, html) == [] ==> bl == DefaultBuild
  {
    var capture := FirstCapture(search, BuildPattern, html);
    if capture.Some? then capture.value else DefaultBuild
  }

  /**
   * `extract_build_and_session_params(html)`. The two clock readings are the
   * values of `int(time.time() * 1000)` at the two places the source reads the
   * clock.
   */
  method ExtractBuildAndSessionParams(search: Search, html: string, fsidClockMs: int, reqidClockMs: int)
    returns (params: map<string, ParamValue>)
    ensures params.Keys == {"bl", "fsid", "reqid"}
    ensures search(BuildPattern, html) != [] ==> params["bl"] == Text(search(BuildPattern, html)[0])
    ensures search(BuildPattern, html) == [] ==> params["bl"] == Text(DefaultBuild)
    ensures params["fsid"] == Text(DecimalString(-fsidClockMs))
    ensures ParseDecimal(params["fsid"].text) == Some(-fsidClockMs)
    ensures params["reqid"] == Number(reqidClockMs % ReqidModulus)
    ensures 0 <= params["reqid"].number < ReqidModulus
    ensures (reqidClockMs - params["reqid"].number) % ReqidModulus == 0
  {
    params := map[];
    var captures := search(BuildPattern, html);
    if |captures| > 0 {
      params := params["bl" := Text(captures[0])];
    } else {
      params := params["bl" := Text(DefaultBuild)];
    }
    params := params["fsid" := Text(DecimalString(-1 * fsidClockMs))];
    params := params["reqid" := Number(reqidClockMs % ReqidModulus)];
  }

  /**
   * The session that `scrape_fresh_session` returns for a fetch outcome. Every
   * session carries a token longer than 20 characters, the page's build label, a
   * flow id that reads back to the negated clock, and a counter of at most six
   * digits.
   */
  function SessionOf(page: Fetch, search: Search, parse: ScriptParser, fsidClockMs: int, reqidClockMs: int): (session: Option<Session>)
    ensures page.FetchFailed? ==> session.None?
    ensures session.Some? ==>
              |session.value.token| > MinTokenLength
              && session.value.bl == BuildLabel(search, page.html)
              && ParseDecimal(session.value.fsid) == Some(-fsidClockMs)
              && 0 <= session.value.reqid < ReqidModulus
  {
    if page.FetchFailed? then None
    else
      var top := TokenFrom(search, page.html, 0);
      var token := if top.Some? then top else ScriptToken(search, parse(page.html));
      if token.None? then None
      else Some(Session(token.value, BuildLabel(search, page.html), DecimalString(-fsidClockMs), reqidClockMs % ReqidModulus))
  }

  /** `scrape_fresh_session()`, with the page fetch as an input. */
  method ScrapeFreshSession(page: Fetch, search: Search, parse: ScriptParser, fsidClockMs: int, reqidClockMs: int)
    returns (session: Option<Session>)
    ensures session == SessionOf(page, search, parse, fsidClockMs, reqidClockMs)
  {
    if page.FetchFailed? {
      return None;
    }
    var html := page.html;
    var token := ExtractToken(search, html);
    if token.None? {
      token := ExtractFromScriptTags(search, parse(html));
    }
    if token.None? {
      return None;
    }
    var params := ExtractBuildAndSessionParams(search, html, fsidClockMs, reqidClockMs);
    return Some(Session(token.value, params["bl"].text, params["fsid"].text, params["reqid"].number));
  }

  /**
   * The top-level search takes precedence: its token is used whenever it finds
   * one, and the script blocks decide only when it finds none.
   */
  lemma TopLevelTakesPrecedence(html: string, search: Search, parse: ScriptParser, fsidClockMs: int, reqidClockMs: int)
    ensures var session := SessionOf(Page(html), search, parse, fsidClockMs, reqidClockMs);
            var top := TokenFrom(search, html, 0);
            var fallback := ScriptToken(search, parse(html));
            (top.Some? ==> session.Some? && session.value.token == top.value)
            && (top.None? ==> session.Some? == fallback.Some? && (fallback.Some? ==> session.value.token == fallback.value))
  {
  }

  /**
   * There is no session exactly when the fetch failed, or when no token pattern
   * qualifies on the page and no considered script block yields a token.
   */
  lemma NoSessionExactlyWhenBothSearchesFail(page: Fetch, search: Search, parse: ScriptParser, fsidClockMs: int, reqidClockMs: int)
    ensures SessionOf(page, search, parse, fsidClockMs, reqidClockMs).None? <==>
              page.FetchFailed?
              || ((forall k | 0 <= k < PatternCount :: !Qualifies(FirstCapture(search, TokenPattern(k), page.html)))
                  && (forall j | 0 <= j < |parse(page.html)| :: !Yields(search, parse(page.html)[j])))
  {
    if page.Page? {
      TokenSelection(search, page.html);
      ScriptSelection(search, parse(page.html));
    }
  }
}
