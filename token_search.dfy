/**
 * Token selection of `extract_snlm0e_token` and `extract_from_script_tags`. The
 * regular-expression engine and the HTML parser are foreign; each search is an
 * oracle and the parsed script blocks are an input sequence.
 */
module TokenSearch {
  import opened Wrappers

  /** The thirteen token patterns, tried in list order (app.py lines 13-27). */
  const PatternCount: nat := 13
  /** A capture must be longer than this to be accepted as a token. */
  const MinTokenLength: nat := 20

  /** A pattern of the relay: the k-th token pattern, or the `"bl":"…"` build pattern. */
  datatype Pattern = TokenPattern(index: nat) | BuildPattern

  /**
   * The regular-expression engine: the first capture group of every match of a
   * pattern in a text, in the order the matches occur.
   */
  type Search = (Pattern, string) -> seq<string>

  /** What `re.search(...).group(1)` gives: the capture of the first match only. */
  function FirstCapture(search: Search, p: Pattern, text: string): (capture: Option<string>)
    ensures capture.Some? <==> search(p, text) != []
    ensures capture.Some? ==> capture.value == search(p, text)[0]
  {
    var captures := search(p, text);
    if |captures| == 0 then None else Some(captures[0])
  }

  predicate Qualifies(capture: Option<string>) {
    capture.Some? && |capture.value| > MinTokenLength
  }

  /** Pattern k is the one chosen: it qualifies and no earlier pattern does. */
  ghost predicate ChosenAt(search: Search, text: string, k: nat) {
    k < PatternCount && Qualifies(FirstCapture(search, TokenPattern(k), text))
    && forall j | 0 <= j < k :: !Qualifies(FirstCapture(search, TokenPattern(j), text))
  }

  /** The token selected from the patterns `from` onwards. */
  function TokenFrom(search: Search, text: string, from: nat): (token: Option<string>)
    ensures token.Some? ==> |token.value| > MinTokenLength
    decreases PatternCount - from
  {
    if from >= PatternCount then None
    else
      var capture := FirstCapture(search, TokenPattern(from), text);
      if Qualifies(capture) then capture else TokenFrom(search, text, from + 1)
  }

  /** `extract_snlm0e_token(text)`: the search loop with early return. */
  method ExtractToken(search: Search, text: string) returns (token: Option<string>)
    ensures token == TokenFrom(search, text, 0)
  {
    for i := 0 to PatternCount
      invariant TokenFrom(search, text, i) == TokenFrom(search, text, 0)
    {
      var captures := search(TokenPattern(i), text);
      if |captures| > 0 {
        var candidate := captures[0];
        if |candidate| > MinTokenLength {
          return Some(candidate);
        }
      }
    }
    return None;
  }

  lemma {:induction false} TokenFromChosen(search: Search, text: string, from: nat, k: nat)
    requires from <= k && ChosenAt(search, text, k)
    ensures TokenFrom(search, text, from) == FirstCapture(search, TokenPattern(k), text)
    decreases k - from
  {
    if from < k {
      TokenFromChosen(search, text, from + 1, k);
    }
  }

  lemma {:induction false} TokenFromNone(search: Search, text: string, from: nat)
    requires forall j | from <= j < PatternCount :: !Qualifies(FirstCapture(search, TokenPattern(j), text))
    ensures TokenFrom(search, text, from) == None
    decreases PatternCount - from
  {
    if from < PatternCount {
      TokenFromNone(search, text, from + 1);
    }
  }

  lemma {:induction false} TokenFromQualifying(search: Search, text: string, from: nat, k: nat)
    requires from <= k < PatternCount && Qualifies(FirstCapture(search, TokenPattern(k), text))
    ensures TokenFrom(search, text, from).Some?
    decreases k - from
  {
    if from < k && !Qualifies(FirstCapture(search, TokenPattern(from), text)) {
      TokenFromQualifying(search, text, from + 1, k);
    }
  }

  lemma {:induction false} TokenFromFound(search: Search, text: string, from: nat)
    requires TokenFrom(search, text, from).Some?
    requires forall j | 0 <= j < from :: !Qualifies(FirstCapture(search, TokenPattern(j), text))
    ensures exists k :: ChosenAt(search, text, k) && TokenFrom(search, text, from) == FirstCapture(search, TokenPattern(k), text)
    decreases PatternCount - from
  {
    if Qualifies(FirstCapture(search, TokenPattern(from), text)) {
      assert ChosenAt(search, text, from);
    } else {
      TokenFromFound(search, text, from + 1);
    }
  }

  /**
   * The selection rule, both ways: the token is the first capture of the earliest
   * pattern in list order whose first match captures more than 20 characters,
   * and there is none exactly when no pattern qualifies.
   */
  lemma {:induction false} TokenSelection(search: Search, text: string)
    ensures forall k :: ChosenAt(search, text, k) ==> TokenFrom(search, text, 0) == FirstCapture(search, TokenPattern(k), text)
    ensures TokenFrom(search, text, 0).Some? ==>
              exists k :: ChosenAt(search, text, k) && TokenFrom(search, text, 0) == FirstCapture(search, TokenPattern(k), text)
    ensures TokenFrom(search, text, 0).None? <==>
              forall k | 0 <= k < PatternCount :: !Qualifies(FirstCapture(search, TokenPattern(k), text))
  {
    forall k | ChosenAt(search, text, k)
      ensures TokenFrom(search, text, 0) == FirstCapture(search, TokenPattern(k), text)
    {
      TokenFromChosen(search, text, 0, k);
    }
    if TokenFrom(search, text, 0).Some? {
      TokenFromFound(search, text, 0);
    }
    if forall k | 0 <= k < PatternCount :: !Qualifies(FirstCapture(search, TokenPattern(k), text)) {
      TokenFromNone(search, text, 0);
    } else {
      var k :| 0 <= k < PatternCount && Qualifies(FirstCapture(search, TokenPattern(k), text));
      TokenFromQualifying(search, text, 0, k);
    }
  }

  lemma {:induction false} FirstMatchesDecideFrom(s1: Search, s2: Search, text: string, from: nat)
    requires forall k | 0 <= k < PatternCount :: FirstCapture(s1, TokenPattern(k), text) == FirstCapture(s2, TokenPattern(k), text)
    ensures TokenFrom(s1, text, from) == TokenFrom(s2, text, from)
    decreases PatternCount - from
  {
    if from < PatternCount {
      FirstMatchesDecideFrom(s1, s2, text, from + 1);
    }
  }

  /**
   * Only the first match of each pattern is looked at: two engines that agree on
   * every pattern's first capture select the same token, whatever later matches
   * they report.
   */
  lemma {:induction false} OnlyFirstMatchesMatter(s1: Search, s2: Search, text: string)
    requires forall k | 0 <= k < PatternCount :: FirstCapture(s1, TokenPattern(k), text) == FirstCapture(s2, TokenPattern(k), text)
    ensures TokenFrom(s1, text, 0) == TokenFrom(s2, text, 0)
  {
    FirstMatchesDecideFrom(s1, s2, text, 0);
  }

  predicate OccursAt(haystack: string, needle: string, i: nat) {
    i + |needle| <= |haystack| && haystack[i..i + |needle|] == needle
  }

  /** Python's `needle in haystack` for strings. */
  predicate Contains(haystack: string, needle: string): (found: bool)
    ensures needle == [] ==> found
    ensures |needle| > |haystack| ==> !found
  {
    assert needle == [] ==> OccursAt(haystack, needle, 0);
    exists i: nat | i <= |haystack| :: OccursAt(haystack, needle, i)
  }

  /** A script block the fallback looks at: it has text, and the text names one of two aliases. */
  predicate Considered(script: Option<string>) {
    script.Some? && script.value != [] && (Contains(script.value, "SNlM0e") || Contains(script.value, "FdrFJe"))
  }

  /** A script block the fallback takes its token from. */
  predicate Yields(search: Search, script: Option<string>) {
    Considered(script) && TokenFrom(search, script.value, 0).Some?
  }

  /** The token of the first considered script block, in document order, that yields one. */
  function ScriptToken(search: Search, scripts: seq<Option<string>>): (token: Option<string>)
    ensures token.Some? ==> |token.value| > MinTokenLength
  {
    if scripts == [] then None
    else if Yields(search, scripts[0]) then TokenFrom(search, scripts[0].value, 0)
    else ScriptToken(search, scripts[1..])
  }

  /** `extract_from_script_tags`, over the script blocks the parser found. */
  method ExtractFromScriptTags(search: Search, scripts: seq<Option<string>>) returns (token: Option<string>)
    ensures token == ScriptToken(search, scripts)
  {
    for i := 0 to |scripts|
      invariant ScriptToken(search, scripts[i..]) == ScriptToken(search, scripts)
    {
      assert scripts[i..][0] == scripts[i] && scripts[i..][1..] == scripts[i + 1..];
      var script := scripts[i];
      if script.Some? && script.value != [] {
        var content := script.value;
        if Contains(content, "SNlM0e") || Contains(content, "FdrFJe") {
          var found := ExtractToken(search, content);
          if found.Some? {
            return found;
          }
        }
      }
    }
    assert scripts[|scripts|..] == [];
    return None;
  }

  lemma {:induction false} ScriptTokenFirst(search: Search, scripts: seq<Option<string>>, i: nat)
    requires i < |scripts| && Yields(search, scripts[i])
    requires forall j | 0 <= j < i :: !Yields(search, scripts[j])
    ensures ScriptToken(search, scripts) == TokenFrom(search, scripts[i].value, 0)
  {
    if i > 0 {
      ScriptTokenFirst(search, scripts[1..], i - 1);
    }
  }

  lemma {:induction false} ScriptTokenNone(search: Search, scripts: seq<Option<string>>)
    ensures ScriptToken(search, scripts).None? <==> forall j | 0 <= j < |scripts| :: !Yields(search, scripts[j])
  {
    if scripts != [] {
      ScriptTokenNone(search, scripts[1..]);
      assert forall j | 1 <= j < |scripts| :: scripts[j] == scripts[1..][j - 1];
    }
  }

  /**
   * The fallback rule, both ways: the first script block in document order that
   * has text naming `SNlM0e` or `FdrFJe` and yields a token supplies it, and there
   * is none exactly when no such block exists.
   */
  lemma {:induction false} ScriptSelection(search: Search, scripts: seq<Option<string>>)
    ensures forall i | 0 <= i < |scripts| ::
              Yields(search, scripts[i]) && (forall j | 0 <= j < i :: !Yields(search, scripts[j]))
              ==> ScriptToken(search, scripts) == TokenFrom(search, scripts[i].value, 0)
    ensures ScriptToken(search, scripts).None? <==> forall j | 0 <= j < |scripts| :: !Yields(search, scripts[j])
  {
    forall i | 0 <= i < |scripts| && Yields(search, scripts[i]) && (forall j | 0 <= j < i :: !Yields(search, scripts[j]))
      ensures ScriptToken(search, scripts) == TokenFrom(search, scripts[i].value, 0)
    {
      ScriptTokenFirst(search, scripts, i);
    }
    ScriptTokenNone(search, scripts);
  }

  /** A block whose text names neither alias is skipped, whatever tokens its text holds. */
  lemma UnmentionedScriptSkipped(search: Search, script: string, rest: seq<Option<string>>)
    requires !Contains(script, "SNlM0e") && !Contains(script, "FdrFJe")
    ensures ScriptToken(search, [Some(script)] + rest) == ScriptToken(search, rest)
  {
  }
}
