/**
 * The request body of `build_payload`: the escaped prompt goes into a positional
 * array, the array is serialised, escaped a second time and wrapped as the value
 * of the `f.req` form field, next to an empty field.
 */
module Payload {
  import opened Wrappers
  import opened Escaping

  /**
   * The four slots of the positional array (app.py lines 109-172) that vary from
   * call to call; every other slot holds a fixed constant.
   */
  datatype PayloadData = PayloadData(prompt: string, token: string, sessionId: string, requestUuid: string)

  /** Compact JSON serialisation of the array, a foreign library taken as a parameter. */
  type Serializer = PayloadData -> string

  const RequestField: string := "f.req"
  const WrapperStart: string := "[null,\""
  const WrapperEnd: string := "\"]"

  /** The array of one call: the prompt goes in escaped, the other slots as given. */
  function PayloadDataOf(prompt: string, token: string, sessionId: string, requestUuid: string): (d: PayloadData)
    ensures Unescape(d.prompt) == Some(prompt)
    ensures '\n' !in d.prompt
    ensures d.token == token && d.sessionId == sessionId && d.requestUuid == requestUuid
  {
    PromptRoundTrip(prompt);
    PayloadData(EscapePrompt(prompt), token, sessionId, requestUuid)
  }

  /** The form of app.py lines 175-180, built around the serialised array. */
  function BuildForm(serialized: string): (form: map<string, string>)
    ensures form.Keys == {RequestField, ""} && |form| == 2
    ensures form[""] == ""
    ensures form[RequestField] == WrapperStart + EscapePayload(serialized) + WrapperEnd
  {
    map[RequestField := WrapperStart + EscapePayload(serialized) + WrapperEnd, "" := ""]
  }

  /**
   * `build_payload(prompt, snlm0e)`, given the two fresh identifiers and the
   * serialiser: a two-field form whose `f.req` reads back to the serialised array
   * of this call.
   */
  function BuildPayload(prompt: string, token: string, sessionId: string, requestUuid: string,
                        dumps: Serializer): (form: map<string, string>)
    ensures form.Keys == {RequestField, ""} && form[""] == ""
    ensures ReadRequestField(form[RequestField]) == Some(dumps(PayloadDataOf(prompt, token, sessionId, requestUuid)))
  {
    var serialized := dumps(PayloadDataOf(prompt, token, sessionId, requestUuid));
    FormRoundTrip(serialized);
    BuildForm(serialized)
  }

  /**
   * What the receiving side does with the `f.req` value: strip the two-element
   * array wrapper and read its second element as a JSON string body.
   */
  function ReadRequestField(value: string): Option<string> {
    var n := |WrapperStart|;
    if |value| >= n + |WrapperEnd| && value[..n] == WrapperStart && value[|value| - |WrapperEnd|..] == WrapperEnd
    then Unescape(value[n..|value| - |WrapperEnd|])
    else None
  }

  /** Reading the `f.req` field back gives exactly the serialised array. */
  lemma FormRoundTrip(serialized: string)
    ensures ReadRequestField(BuildForm(serialized)[RequestField]) == Some(serialized)
  {
    var e := EscapePayload(serialized);
    var v := WrapperStart + e + WrapperEnd;
    assert v[..|WrapperStart|] == WrapperStart;
    assert v[|v| - |WrapperEnd|..] == WrapperEnd;
    assert v[|WrapperStart|..|v| - |WrapperEnd|] == e;
    PayloadRoundTrip(serialized);
  }

  /**
   * Both layers undone: the `f.req` field reads back to the serialised array of
   * this call, whose prompt slot reads back to the prompt, and whose other slots
   * hold the token and the two identifiers unchanged.
   */
  lemma PromptSurvivesBothLayers(prompt: string, token: string, sessionId: string, requestUuid: string,
                                 dumps: Serializer)
    ensures var d := PayloadDataOf(prompt, token, sessionId, requestUuid);
            ReadRequestField(BuildPayload(prompt, token, sessionId, requestUuid, dumps)[RequestField]) == Some(dumps(d))
            && Unescape(d.prompt) == Some(prompt)
            && d.token == token && d.sessionId == sessionId && d.requestUuid == requestUuid
  {
    FormRoundTrip(dumps(PayloadDataOf(prompt, token, sessionId, requestUuid)));
  }
}
