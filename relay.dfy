/**
 * `chat_with_gemini` and the `/api/ask` endpoint: scrape a session, build the
 * form, post it, and map the outcome to a result and an HTTP status.
 */
module Relay {
  import opened Wrappers
  import opened Decimal
  import opened TokenSearch
  import opened Payload
  import opened SessionScrape

  /** Outcome of the POST: a response with its status and text, or a transport exception. */
  datatype PostOutcome = Response(statusCode: int, text: string) | RequestFailed(reason: string)

  /** The elapsed time and timestamp of a success, formatted by the clock and the date library. */
  datatype Metadata = Metadata(responseTime: string, timestamp: string)

  /** What `chat_with_gemini` returns: the raw upstream text, or an error message. */
  datatype ChatResult = Answered(response: string, metadata: Metadata) | Failed(error: string)

  /**
   * Everything one call takes from outside the relay: the page fetch, the regular
   * expression engine, the HTML parser, the serialiser, the two clock readings of
   * the scrape, the two fresh identifiers, the POST as a function of the URL and
   * the form it is sent, and the metadata of a success.
   */
  datatype Environment = Environment(
    page: Fetch,
    search: Search,
    parse: ScriptParser,
    dumps: Serializer,
    fsidClockMs: int,
    reqidClockMs: int,
    sessionId: string,
    requestUuid: string,
    post: (string, map<string, string>) -> PostOutcome,
    metadata: Metadata)

  const SessionFailure: string := "Failed to establish session"
  const MissingPrompt: string := "Missing or empty prompt"
  const BaseUrl: string := "https://gemini.google.com/_/BardChatUi/data/assistant.lamda.BardFrontendService/StreamGenerate"

  /** The URL of the POST, built from the session (app.py line 197). */
  function RequestUrl(s: Session): string {
    BaseUrl + "?bl=" + s.bl + "&f.sid=" + s.fsid + "&hl=en-US&_reqid=" + DecimalString(s.reqid) + "&rt=c"
  }

  /** The error for a non-200 upstream status: `HTTP ` and the code in decimal. */
  function HttpError(code: int): (e: string)
    ensures |e| > 5 && e[..5] == "HTTP " && ParseDecimal(e[5..]) == Some(code)
  {
    var e := "HTTP " + DecimalString(code);
    assert e[5..] == DecimalString(code);
    e
  }

  /**
   * The result of `chat_with_gemini(prompt)` in a given environment: without a
   * session it is the session failure, and a success carries the metadata of the
   * environment.
   */
  function ChatOf(prompt: string, env: Environment): (result: ChatResult)
    ensures SessionOf(env.page, env.search, env.parse, env.fsidClockMs, env.reqidClockMs).None? ==>
              result == Failed(SessionFailure)
    ensures result.Answered? ==>
              SessionOf(env.page, env.search, env.parse, env.fsidClockMs, env.reqidClockMs).Some?
              && result.metadata == env.metadata
  {
    var session := SessionOf(env.page, env.search, env.parse, env.fsidClockMs, env.reqidClockMs);
    if session.None? then Failed(SessionFailure)
    else
      var form := BuildPayload(prompt, session.value.token, env.sessionId, env.requestUuid, env.dumps);
      match env.post(RequestUrl(session.value), form)
      case RequestFailed(reason) => Failed(reason)
      case Response(code, text) => if code != 200 then Failed(HttpError(code)) else Answered(text, env.metadata)
  }

  /** `chat_with_gemini(prompt)`. */
  method ChatWithGemini(prompt: string, env: Environment) returns (result: ChatResult)
    ensures result == ChatOf(prompt, env)
  {
    var scraped := ScrapeFreshSession(env.page, env.search, env.parse, env.fsidClockMs, env.reqidClockMs);
    if scraped.None? {
      return Failed(SessionFailure);
    }
    var session := scraped.value;
    var url := RequestUrl(session);
    var payload := BuildPayload(prompt, session.token, env.sessionId, env.requestUuid, env.dumps);
    var response := env.post(url, payload);
    if response.RequestFailed? {
      return Failed(response.reason);
    }
    if response.statusCode != 200 {
      return Failed(HttpError(response.statusCode));
    }
    return Answered(response.text, env.metadata);
  }

  /** Without a session nothing is posted: the result does not depend on the POST at all. */
  lemma NoSessionNoPost(prompt: string, env: Environment, otherPost: (string, map<string, string>) -> PostOutcome)
    requires SessionOf(env.page, env.search, env.parse, env.fsidClockMs, env.reqidClockMs).None?
    ensures ChatOf(prompt, env) == ChatOf(prompt, env.(post := otherPost)) == Failed(SessionFailure)
  {
  }

  /**
   * The POST is sent to the session's URL with a form whose `f.req` field reads
   * back to the serialised array carrying the escaped prompt and the token, and a
   * non-200 status becomes the error `HTTP <code>`, which reads back to the code.
   */
  lemma UpstreamStatusMapping(prompt: string, env: Environment)
    requires SessionOf(env.page, env.search, env.parse, env.fsidClockMs, env.reqidClockMs).Some?
    ensures var session := SessionOf(env.page, env.search, env.parse, env.fsidClockMs, env.reqidClockMs).value;
            var form := BuildPayload(prompt, session.token, env.sessionId, env.requestUuid, env.dumps);
            var data := PayloadDataOf(prompt, session.token, env.sessionId, env.requestUuid);
            ReadRequestField(form[RequestField]) == Some(env.dumps(data))
            && match env.post(RequestUrl(session), form)
               case RequestFailed(reason) => ChatOf(prompt, env) == Failed(reason)
               case Response(code, text) =>
                 if code == 200 then ChatOf(prompt, env) == Answered(text, env.metadata)
                 else ChatOf(prompt, env) == Failed(HttpError(code))
  {
    var session := SessionOf(env.page, env.search, env.parse, env.fsidClockMs, env.reqidClockMs).value;
    PromptSurvivesBothLayers(prompt, session.token, env.sessionId, env.requestUuid, env.dumps);
  }

  /** An upstream 503 becomes the error `HTTP 503`. */
  lemma Upstream503(prompt: string, env: Environment)
    requires SessionOf(env.page, env.search, env.parse, env.fsidClockMs, env.reqidClockMs).Some?
    requires forall url, form :: env.post(url, form).Response? && env.post(url, form).statusCode == 503
    ensures ChatOf(prompt, env) == Failed("HTTP 503")
  {
    assert Digits(5) == "5";
    assert Digits(50) == Digits(5) + ['0'];
    assert Digits(503) == Digits(50) + ['3'];
    assert DecimalString(503) == "503";
  }

  /** Python's `str.isspace`, the characters `str.strip()` removes. */
  predicate IsSpace(c: char): (space: bool)
    ensures c == ' ' || c == '\t' || c == '\n' || c == '\r' ==> space
    ensures space ==> !('0' <= c <= '9') && !('a' <= c <= 'z') && !('A' <= c <= 'Z')
  {
    ('\t' <= c <= '\r') || ((28 as char) <= c <= (32 as char)) || c == (0x85 as char) || c == (0xA0 as char)
    || c == (0x1680 as char) || ((0x2000 as char) <= c <= (0x200A as char)) || c == (0x2028 as char)
    || c == (0x2029 as char) || c == (0x202F as char) || c == (0x205F as char) || c == (0x3000 as char)
  }

  function StripStart(s: string): (r: string)
    ensures |r| <= |s| && r == s[|s| - |r|..]
    ensures forall i | 0 <= i < |s| - |r| :: IsSpace(s[i])
    ensures r != [] ==> !IsSpace(r[0])
  {
    if s != [] && IsSpace(s[0]) then StripStart(s[1..]) else s
  }

  function StripEnd(s: string): (r: string)
    ensures |r| <= |s| && r == s[..|r|]
    ensures forall i | |r| <= i < |s| :: IsSpace(s[i])
    ensures r != [] ==> !IsSpace(r[|r| - 1])
  {
    if s != [] && IsSpace(s[|s| - 1]) then StripEnd(s[..|s| - 1]) else s
  }

  /**
   * `s.strip()`: the part of `s` between its leading and trailing whitespace. It
   * is empty exactly when `s` is all whitespace.
   */
  function Strip(s: string): (r: string)
    ensures r == [] <==> forall i | 0 <= i < |s| :: IsSpace(s[i])
    ensures r != [] ==> !IsSpace(r[0]) && !IsSpace(r[|r| - 1])
    ensures Contains(s, r)
  {
    var t := StripStart(s);
    assert OccursAt(s, StripEnd(t), |s| - |t|);
    StripEnd(t)
  }

  /**
   * The request is rejected when the prompt is missing, empty or only whitespace,
   * that is, exactly when it is missing or every character of it is whitespace.
   */
  predicate IsBlank(prompt: Option<string>): (blank: bool)
    ensures blank <==> prompt.None? || forall i | 0 <= i < |prompt.value| :: IsSpace(prompt.value[i])
  {
    prompt.None? || prompt.value == [] || |Strip(prompt.value)| == 0
  }

  /** The body of the endpoint's JSON reply. */
  datatype ReplyBody = Rejected(error: string) | Relayed(result: ChatResult, prompt: string)

  datatype Reply = Reply(status: int, body: ReplyBody)

  /**
   * `ask_gemini()` for the query parameter `prompt`. A blank prompt is answered
   * with 400 whatever the environment holds, so nothing is fetched or posted;
   * otherwise the chat result is returned with the prompt, under 200 exactly when
   * it is a success and 500 otherwise.
   */
  method AskGemini(prompt: Option<string>, env: Environment) returns (reply: Reply)
    ensures IsBlank(prompt) ==> reply == Reply(400, Rejected(MissingPrompt))
    ensures !IsBlank(prompt) ==>
              var result := ChatOf(prompt.value, env);
              reply == Reply(if result.Answered? then 200 else 500, Relayed(result, prompt.value))
  {
    if prompt.None? || prompt.value == [] || |Strip(prompt.value)| == 0 {
      return Reply(400, Rejected(MissingPrompt));
    }
    var result := ChatWithGemini(prompt.value, env);
    var status := if result.Answered? then 200 else 500;
    return Reply(status, Relayed(result, prompt.value));
  }
}
