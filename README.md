# Gemini relay: token scraping, payload escaping and endpoint mapping

This project models the deterministic core of a small HTTP relay (`app.py`). The relay
scrapes a session token from the Gemini web page. It then wraps a user prompt in the
positional request array that the web client sends, posts the array, and answers
`/api/ask` with the raw response.

The model covers:

- **Escaping and form wrapping** (`Escaping`, `Payload`). The prompt goes through three
  chained `replace` calls (backslash, then quote, then newline). The serialised array
  goes through two more (backslash, then quote). The result is wrapped as `[null,"…"]`
  in the field `f.req`, next to an empty field. Python's one-character `str.replace` is
  modelled as `Escaping.Replace`. The lemmas show that each chain is a single
  per-character map. They also show that a lenient JSON-string reader (`Escaping.Unescape`)
  inverts each escape layer on its own. The serialiser's own escaping between the
  two layers is not part of the model (see "## Left out").
- **Token selection** (`TokenSearch`). This covers the loop over the thirteen patterns
  and the loop over script blocks, each with an early return. The regular-expression
  engine is an oracle: for a pattern and a text it gives the first-group capture of each
  match, in order. The loop looks only at the first capture. The parsed page is a
  sequence of optional script texts.
- **Session parameters and precedence** (`SessionScrape`). This covers the parameter
  dict (build label or its default, flow id, request counter) and the rule that the
  page-level search takes precedence over the script fallback.
- **Chat and endpoint** (`Relay`). A missing session gives `Failed to establish session`.
  A transport error gives its description. A non-200 status gives `HTTP <code>`. A
  blank prompt gives 400. Otherwise the status is 200 on success and 500 on failure.

The outside world is a parameter, bundled in `Relay.Environment`:
- the outcome of the page fetch;
- the regex engine, the HTML parser and the JSON serialiser;
- the two reads of `int(time.time() * 1000)` inside `extract_build_and_session_params`;
- the two fresh UUID strings;
- the POST, as a function of the URL and the form;
- the formatted metadata.

Two behaviours of the source are easy to miss:
- A GET that answers with a non-success status is not a failure. `scrape_fresh_session`
  never looks at `response.status_code`. It searches `response.text` whatever the
  status. None comes only from a page with no token (app.py:86-87) or from an
  exception (app.py:99-100).
- The clock is read twice, once for `fsid` and once for `reqid` (app.py:62-63). The two
  readings are separate inputs.

The first escaping layer leaves tab, carriage return and the other control characters
unchanged (`Escaping.EscapePromptIsCharwise`: only `\`, `"` and newline change). Those
raw characters do not reach the wire. `json.dumps` (app.py:174) writes them as escapes,
and it also escapes the prompt slot's backslashes and quotes once more. So a reader
that decodes `f.req` and then the serialised array gets the escaped prompt (`a"b`
arrives as `a\"b`). It gets the prompt itself only after a third JSON-string decode.
`Escaping.PromptRoundTrip` proves that for a lenient decode that lets raw control
characters through; a strict decode refuses a prompt holding a tab or carriage return.

## Model

| member | source | states |
|---|---|---|
| `Escaping.EscapePromptIsCharwise` | app.py:104 | The three chained replaces equal one left-to-right per-character map: `\` to `\\`, `"` to `\"`, newline to `\n`, every other character unchanged. Inserted backslashes are never doubled. |
| `Escaping.EscapePromptLength` | app.py:104 | The escaped prompt is as long as the prompt plus the number of its backslashes, quotes and newlines. |
| `Escaping.Replace` | app.py:104 | Python's one-character `str.replace`. Text without the needle is unchanged, and when the replacement lacks the needle, so does the result. |
| `Escaping.EscapePrompt` | app.py:104 | The prompt escape contains no raw newline. `EscapePromptIsCharwise`, `EscapePromptLength` and `PromptRoundTrip` carry its other properties. |
| `Escaping.PromptRoundTrip` | app.py:104 | Reading the escaped prompt with the lenient JSON-string reader returns the original prompt exactly. |
| `Escaping.QuoteFirstOrderBreaksRoundTrip` | app.py:104 | Escaping a `"` with the quote replace first and the backslash replace second does not read back. The order the source uses does. |
| `Escaping.EscapePayloadIsCharwise` | app.py:175 | The second layer is the per-character map that changes only `\` and `"`. |
| `Escaping.EscapePayload` | app.py:175 | The second layer is the identity on text without backslashes or quotes. `EscapePayloadIsCharwise`, `EscapePayloadKeepsOthers` and `PayloadRoundTrip` carry its other properties. |
| `Escaping.EscapePayloadKeepsOthers` | app.py:175 | Any other character, newlines included, stays in place when no backslash or quote comes before it. |
| `Escaping.PayloadRoundTrip` | app.py:175 | Undoing the second layer returns the serialised payload exactly, raw newlines included. |
| `Payload.PayloadDataOf` | app.py:104-172 | The array's prompt slot holds the escaped prompt, which reads back to the prompt and has no newline. The token and the two identifiers are stored unchanged. |
| `Payload.BuildForm` | app.py:177-180 | The form has exactly two keys. `f.req` maps to `[null,"` + second-layer escape + `"]`, and `''` maps to `''`. |
| `Payload.FormRoundTrip` | app.py:175-178 | Stripping the `[null,"…"]` wrapper from `f.req` and unescaping returns the serialised array exactly. |
| `Payload.BuildPayload` | app.py:103-180 | `build_payload` gives a form with exactly the keys `f.req` and `''`. `f.req` reads back to the serialised array of this call. `PromptSurvivesBothLayers` adds the prompt slot. |
| `Payload.PromptSurvivesBothLayers` | app.py:103-180 | For the form of `build_payload`, reading `f.req` gives the serialised array of this call. Its prompt slot reads back to the prompt, and its token and identifier slots are unchanged. |
| `TokenSearch.FirstCapture` | app.py:30-32 | `re.search(...).group(1)`: there is a capture exactly when the pattern matches, and it is the first match's capture. |
| `TokenSearch.TokenFrom` | app.py:29-35 | Any token selected from the patterns is longer than 20 characters. |
| `TokenSearch.ExtractToken` | app.py:12-35 | The pattern loop with early return gives exactly the token of the selection rule. |
| `TokenSearch.TokenSelection` | app.py:29-35 | The result is the first capture of the earliest pattern, in list order, whose first match captures more than 20 characters. The result is None exactly when no pattern qualifies. |
| `TokenSearch.OnlyFirstMatchesMatter` | app.py:30-33 | Only each pattern's first match counts: engines that agree on first captures select the same token. |
| `TokenSearch.ScriptToken` | app.py:42-50 | Any token from the script fallback is longer than 20 characters. |
| `TokenSearch.ExtractFromScriptTags` | app.py:38-50 | The script loop with early return gives exactly the token of the fallback rule. |
| `TokenSearch.ScriptSelection` | app.py:42-50 | The first block in document order that has non-empty text naming `SNlM0e` or `FdrFJe` and yields a token supplies it. The result is None exactly when no block does. |
| `TokenSearch.Contains` | app.py:46 | Python's `in` on strings: the empty string occurs in every string, and a needle longer than the haystack never does. |
| `TokenSearch.UnmentionedScriptSkipped` | app.py:46 | A block whose text names neither alias is skipped, whatever it contains. |
| `SessionScrape.BuildLabel` | app.py:56-60 | The build label is the first `"bl"` capture when one exists, otherwise the literal `boq_assistant-bard-web-server_20251217.07_p5`. |
| `SessionScrape.ExtractBuildAndSessionParams` | app.py:53-65 | The dict has exactly the keys `bl`, `fsid` and `reqid`. `bl` is the first `"bl"` capture, or the default `boq_assistant-bard-web-server_20251217.07_p5`. `fsid` is `str` of the negated clock and reads back to it. `reqid` is the clock mod 1000000, in [0, 999999]. |
| `SessionScrape.ScrapeFreshSession` | app.py:68-100 | A failed fetch gives None. Otherwise the session is built from the page token, or from the script token when there is no page token, plus the parameters. There is no session when neither search finds a token. |
| `SessionScrape.TopLevelTakesPrecedence` | app.py:82-84 | A page-level token is always used. The script fallback decides only when the page search finds nothing. |
| `SessionScrape.NoSessionExactlyWhenBothSearchesFail` | app.py:82-87 | There is no session exactly when the fetch failed, or when no pattern qualifies on the page and no considered script block yields a token. |
| `SessionScrape.SessionOf` | app.py:68-100 | A failed fetch gives no session. Every session has a token longer than 20 characters, the page's build label, a flow id reading back to the negated clock, and a counter in [0, 999999]. `TopLevelTakesPrecedence` and `NoSessionExactlyWhenBothSearchesFail` state its selection rule. |
| `Relay.HttpError` | app.py:211-212 | The error string is `HTTP ` followed by a decimal that reads back to the status code. |
| `Relay.ChatOf` | app.py:185-227 | Without a session the result is `Failed to establish session`. A success means a session existed, and it carries the environment's metadata. `UpstreamStatusMapping` states the other branches. |
| `Relay.ChatWithGemini` | app.py:183-227 | The method gives exactly the chat result of the model: session failure, transport error, `HTTP <code>` for a status other than 200, otherwise the raw response text. |
| `Relay.NoSessionNoPost` | app.py:185-188 | Without a session the result is `Failed to establish session`, whatever the POST would do. |
| `Relay.UpstreamStatusMapping` | app.py:197-227 | The POST gets a form whose `f.req` reads back to this call's serialised array. A transport error becomes its description. Status 200 becomes the response text. Any other status becomes an error that reads back to the code. |
| `Relay.Upstream503` | app.py:211-212 | An upstream 503 gives exactly the error `HTTP 503`. |
| `Relay.IsSpace` | app.py:250 | The whitespace set of `str.strip()`. It includes space, tab, newline and carriage return, and excludes digits and ASCII letters. |
| `Relay.Strip` | app.py:250 | `strip()` is empty exactly when the string is all whitespace. Otherwise it neither starts nor ends with whitespace and occurs in the string. |
| `Relay.AskGemini` | app.py:246-259 | A missing, empty or whitespace-only prompt gives 400 with the same reply in every environment, so nothing is fetched or posted. Otherwise the reply carries the chat result and the prompt, with status 200 exactly on success and 500 exactly on failure. |
| `Relay.IsBlank` | app.py:250 | A prompt is rejected exactly when it is missing or all whitespace. |
| `Decimal.DecimalString` | app.py:62 | `str(n)` reads back to `n`, so the flow id and the status code print without loss. It is also the `str` inside the f-string of app.py:212. |

## Left out

- Network I/O is not modelled: the `requests.Session`, the GET and the POST, their
  timeouts and cookies. Only their outcomes are inputs (`Fetch`, `PostOutcome`).
- Flask routing, `jsonify`, the home route and the 404/500 handlers are framework glue
  with constant bodies.
- The regex engine is an oracle. The thirteen pattern texts, `IGNORECASE` and the `{50,}`
  quantifier of the `at` pattern are not modelled.
- BeautifulSoup parsing is an oracle. It gives each script block's `.string`, in
  document order.
- `json.dumps` and the constant slots of the positional array are not modelled. The
  serialiser is an opaque function of the four varying slots.
- `uuid.uuid4` and the clock are inputs: the two millisecond readings and the two
  identifier strings.
- The `response_time` rounding is floating point. `datetime.utcnow().isoformat()` is a
  foreign formatter. Both are inside the input `Metadata`.
- `RequestUrl` builds the POST URL from the session fields as written at app.py:197. No
  property is proved about it.
- Exceptions inside `scrape_fresh_session` other than a failed GET are not modelled, for
  example a parser crash. All of them end as `FetchFailed`.
- `Payload.PromptSurvivesBothLayers` reads `f.req` and then the prompt slot with
  `Unescape`. It skips the escaping that the opaque serialiser does in between.
  Undoing that layer would need a model of `json.dumps`.
- `Escaping.PromptRoundTrip`: the reader it inverts is lenient. It accepts raw
  U+0000–U+001F, which RFC 8259 section 7 forbids unescaped inside a string, and the
  first layer (app.py:104) leaves them raw. So a strict reader would not decode a
  prompt holding a tab or a carriage return.
- `Escaping.Unescape` only decodes JSON's single-character escapes, not `\uXXXX`. The
  escaped texts never contain `\u`.
- Python strings can hold lone surrogate code points. A Dafny `char` cannot, so such
  prompts are outside the model.
