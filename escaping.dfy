/**
 * The two escaping layers of `build_payload`: the prompt is escaped for a JSON
 * string (backslash, then double quote, then newline) before it is placed in the
 * payload array, and the serialised array is escaped again (backslash, then
 * double quote) before it is placed in the form field.
 */
module Escaping {
  import opened Wrappers

  /**
   * Python's `str.replace` with a one-character needle: scanning left to right,
   * every occurrence of `needle` in `s` becomes `replacement`, and the inserted
   * text is never scanned again.
   */
  function Replace(s: string, needle: char, replacement: string): (r: string)
    ensures needle !in s ==> r == s
    ensures needle !in replacement ==> needle !in r
  {
    if s == [] then []
    else (if s[0] == needle then replacement else [s[0]]) + Replace(s[1..], needle, replacement)
  }

  /** Applies a per-character map left to right and concatenates the pieces. */
  function MapChars(s: string, f: char -> string): string {
    if s == [] then [] else f(s[0]) + MapChars(s[1..], f)
  }

  /** The escape applied to the prompt (app.py line 104): no raw newline survives it. */
  function EscapePrompt(prompt: string): (escaped: string)
    ensures '\n' !in escaped
  {
    Replace(Replace(Replace(prompt, '\\', "\\\\"), '"', "\\\""), '\n', "\\n")
  }

  /**
   * The escape applied to the serialised payload (app.py line 175): the identity
   * on text without backslashes and quotes.
   */
  function EscapePayload(serialized: string): (escaped: string)
    ensures '\\' !in serialized && '"' !in serialized ==> escaped == serialized
  {
    Replace(Replace(serialized, '\\', "\\\\"), '"', "\\\"")
  }

  /** What the prompt escape does to one character. */
  function PromptEscapeOf(c: char): string {
    if c == '\\' then "\\\\" else if c == '"' then "\\\"" else if c == '\n' then "\\n" else [c]
  }

  /** What the payload escape does to one character: newlines are left alone. */
  function PayloadEscapeOf(c: char): string {
    if c == '\\' then "\\\\" else if c == '"' then "\\\"" else [c]
  }

  /** The character a JSON string escape `\x` stands for (single-character escapes only). */
  function EscapedChar(x: char): Option<char> {
    if x == '"' then Some('"')
    else if x == '\\' then Some('\\')
    else if x == '/' then Some('/')
    else if x == 'b' then Some(8 as char)
    else if x == 'f' then Some(12 as char)
    else if x == 'n' then Some('\n')
    else if x == 'r' then Some('\r')
    else if x == 't' then Some('\t')
    else None
  }

  function Prepend(c: char, rest: Option<string>): Option<string> {
    if rest.None? then None else Some([c] + rest.value)
  }

  /**
   * What a lenient reader of the body of a JSON string literal recovers from
   * `s`: `\x` escapes are decoded, an unescaped `"` (which would end the literal)
   * or a dangling or unknown escape is an error, and every other character,
   * raw control characters included, stands for itself.
   */
  function Unescape(s: string): (r: Option<string>)
    ensures r.Some? ==> |r.value| <= |s|
    decreases |s|
  {
    if s == [] then Some([])
    else if s[0] == '"' then None
    else if s[0] != '\\' then Prepend(s[0], Unescape(s[1..]))
    else if |s| == 1 then None
    else
      match EscapedChar(s[1])
      case None => None
      case Some(c) => Prepend(c, Unescape(s[2..]))
  }

  lemma {:induction false} ReplaceAppend(a: string, b: string, needle: char, replacement: string)
    ensures Replace(a + b, needle, replacement) == Replace(a, needle, replacement) + Replace(b, needle, replacement)
  {
    if a != [] {
      assert (a + b)[0] == a[0];
      assert (a + b)[1..] == a[1..] + b;
      ReplaceAppend(a[1..], b, needle, replacement);
    } else {
      assert a + b == b;
    }
  }

  lemma ReplaceSingle(c: char, needle: char, replacement: string)
    ensures Replace([c], needle, replacement) == if c == needle then replacement else [c]
  {
  }

  lemma EscapePromptSingle(c: char)
    ensures EscapePrompt([c]) == PromptEscapeOf(c)
  {
    ReplaceSingle(c, '\\', "\\\\");
    if c != '\\' {
      ReplaceSingle(c, '"', "\\\"");
      if c != '"' {
        ReplaceSingle(c, '\n', "\\n");
      }
    }
  }

  lemma EscapePayloadSingle(c: char)
    ensures EscapePayload([c]) == PayloadEscapeOf(c)
  {
    ReplaceSingle(c, '\\', "\\\\");
    if c != '\\' {
      ReplaceSingle(c, '"', "\\\"");
    }
  }

  /**
   * The chained replaces of the prompt escape act as one left-to-right
   * per-character map: because backslashes are replaced first, the backslashes
   * that the later replaces insert are never doubled.
   */
  lemma {:induction false} EscapePromptIsCharwise(prompt: string)
    ensures EscapePrompt(prompt) == MapChars(prompt, PromptEscapeOf)
  {
    if prompt != [] {
      var c, rest := prompt[0], prompt[1..];
      assert prompt == [c] + rest;
      var r1 := Replace([c], '\\', "\\\\");
      var r2 := Replace(r1, '"', "\\\"");
      ReplaceAppend([c], rest, '\\', "\\\\");
      ReplaceAppend(r1, Replace(rest, '\\', "\\\\"), '"', "\\\"");
      ReplaceAppend(r2, Replace(Replace(rest, '\\', "\\\\"), '"', "\\\""), '\n', "\\n");
      assert EscapePrompt(prompt) == EscapePrompt([c]) + EscapePrompt(rest);
      EscapePromptSingle(c);
      EscapePromptIsCharwise(rest);
    }
  }

  /** The same for the payload escape: a per-character map that changes only `\` and `"`. */
  lemma {:induction false} EscapePayloadIsCharwise(serialized: string)
    ensures EscapePayload(serialized) == MapChars(serialized, PayloadEscapeOf)
  {
    if serialized != [] {
      var c, rest := serialized[0], serialized[1..];
      assert serialized == [c] + rest;
      ReplaceAppend([c], rest, '\\', "\\\\");
      ReplaceAppend(Replace([c], '\\', "\\\\"), Replace(rest, '\\', "\\\\"), '"', "\\\"");
      assert EscapePayload(serialized) == EscapePayload([c]) + EscapePayload(rest);
      EscapePayloadSingle(c);
      EscapePayloadIsCharwise(rest);
    }
  }

  lemma {:induction false} PromptMapLength(s: string)
    ensures |MapChars(s, PromptEscapeOf)| == |s| + multiset(s)['\\'] + multiset(s)['"'] + multiset(s)['\n']
  {
    if s != [] {
      assert s == [s[0]] + s[1..];
      assert multiset(s) == multiset{s[0]} + multiset(s[1..]);
      PromptMapLength(s[1..]);
    }
  }

  /** The escaped prompt is one character longer per backslash, quote and newline of the prompt. */
  lemma EscapePromptLength(prompt: string)
    ensures |EscapePrompt(prompt)| == |prompt| + multiset(prompt)['\\'] + multiset(prompt)['"'] + multiset(prompt)['\n']
  {
    EscapePromptIsCharwise(prompt);
    PromptMapLength(prompt);
  }

  lemma {:induction false} PromptMapUnescapes(s: string)
    ensures Unescape(MapChars(s, PromptEscapeOf)) == Some(s)
  {
    if s != [] {
      var c, t := s[0], MapChars(s[1..], PromptEscapeOf);
      var e := PromptEscapeOf(c) + t;
      PromptMapUnescapes(s[1..]);
      if c == '\\' || c == '"' || c == '\n' {
        assert e[0] == '\\' && e[2..] == t;
      } else {
        assert e[0] == c && e[1..] == t;
      }
      assert s == [c] + s[1..];
    }
  }

  /** Reading the escaped prompt as the body of a JSON string gives back the prompt exactly. */
  lemma PromptRoundTrip(prompt: string)
    ensures Unescape(EscapePrompt(prompt)) == Some(prompt)
  {
    EscapePromptIsCharwise(prompt);
    PromptMapUnescapes(prompt);
  }

  lemma {:induction false} PayloadMapUnescapes(s: string)
    ensures Unescape(MapChars(s, PayloadEscapeOf)) == Some(s)
  {
    if s != [] {
      var c, t := s[0], MapChars(s[1..], PayloadEscapeOf);
      var e := PayloadEscapeOf(c) + t;
      PayloadMapUnescapes(s[1..]);
      if c == '\\' || c == '"' {
        assert e[0] == '\\' && e[2..] == t;
      } else {
        assert e[0] == c && e[1..] == t;
      }
      assert s == [c] + s[1..];
    }
  }

  /** Undoing the payload escape gives back the serialised payload, raw newlines included. */
  lemma PayloadRoundTrip(serialized: string)
    ensures Unescape(EscapePayload(serialized)) == Some(serialized)
  {
    EscapePayloadIsCharwise(serialized);
    PayloadMapUnescapes(serialized);
  }

  lemma {:induction false} PayloadMapKeeps(s: string, i: nat)
    requires i < |s| && s[i] != '\\' && s[i] != '"'
    requires forall j | 0 <= j < i :: s[j] != '\\' && s[j] != '"'
    ensures i < |MapChars(s, PayloadEscapeOf)| && MapChars(s, PayloadEscapeOf)[i] == s[i]
  {
    if i > 0 {
      PayloadMapKeeps(s[1..], i - 1);
    }
  }

  /**
   * The payload escape leaves every other character, newlines included, where it
   * was: a character with no backslash or quote before it keeps its position.
   */
  lemma EscapePayloadKeepsOthers(serialized: string, i: nat)
    requires i < |serialized| && serialized[i] != '\\' && serialized[i] != '"'
    requires forall j | 0 <= j < i :: serialized[j] != '\\' && serialized[j] != '"'
    ensures i < |EscapePayload(serialized)| && EscapePayload(serialized)[i] == serialized[i]
  {
    EscapePayloadIsCharwise(serialized);
    PayloadMapKeeps(serialized, i);
  }

  /**
   * Why backslashes go first: replacing the quote first and the backslash second
   * doubles the backslash just inserted, and the result no longer reads back.
   */
  lemma QuoteFirstOrderBreaksRoundTrip()
    ensures Unescape(Replace(Replace("\"", '"', "\\\""), '\\', "\\\\")) == None
    ensures Unescape(EscapePrompt("\"")) == Some("\"")
  {
    ReplaceSingle('"', '"', "\\\"");
    var once := "\\\"";
    assert once == ['\\'] + ['"'];
    ReplaceAppend(['\\'], ['"'], '\\', "\\\\");
    ReplaceSingle('\\', '\\', "\\\\");
    ReplaceSingle('"', '\\', "\\\\");
    PromptRoundTrip("\"");
  }
}
