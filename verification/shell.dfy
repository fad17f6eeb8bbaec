/** How the main process and the native wrapper hand AppleScript to
    `osascript`: the script travels as one single-quoted shell word
    (`osascript -e '<script>'`), string values inside the script are
    AppleScript string literals, and `executeAppleScript` turns the process
    outcome into a value or an error.

    To state what quoting achieves, the module carries a small reader of
    shell words after the quoting rules of the POSIX Shell Command Language
    (sections 2.2.2 and 2.2.3: inside single quotes every character is
    literal; inside double quotes every character except `"`, `\`, `$` and
    the backquote is literal) and a reader of AppleScript string-literal
    bodies (the escapes `\"`, `\\`, `\n`, `\t` and `\r`). */
module Shell {
  import opened Wrappers
  import opened Text

  /** Where the shell-word reader stands: outside quotes, inside single
      quotes, or inside double quotes. */
  datatype QuoteState = Bare | InSingle | InDouble

  /** Characters this reader accepts outside quotes; anything else (blanks,
      operators, expansions) lies outside the modelled subset of words. */
  predicate IsBareWordChar(c: char) {
    ('a' <= c <= 'z') || ('A' <= c <= 'Z') || ('0' <= c <= '9')
    || c == '-' || c == '_' || c == '.' || c == '/' || c == ':' || c == ',' || c == '@' || c == '+'
  }

  /** Characters that are not literal inside double quotes. */
  predicate IsDoubleQuoteSpecial(c: char) {
    c == '"' || c == '\\' || c == '$' || c == '`'
  }

  function Prepend(c: char, o: Option<string>): (r: Option<string>)
    ensures r.Some? <==> o.Some?
    ensures r.Some? ==> r.value == [c] + o.value
  {
    match o
    case Some(t) => Some([c] + t)
    case None => None
  }

  /** The single argument the shell makes of the word `w`, read from state
      `st`: `None` for an unterminated quote or a word outside the subset. */
  function ReadWord(w: string, st: QuoteState): (r: Option<string>)
    decreases |w|
  {
    if |w| == 0 then (if st == Bare then Some("") else None)
    else
      var c := w[0];
      match st
      case Bare =>
        if c == '\'' then ReadWord(w[1..], InSingle)
        else if c == '"' then ReadWord(w[1..], InDouble)
        else if IsBareWordChar(c) then Prepend(c, ReadWord(w[1..], Bare))
        else None
      case InSingle =>
        if c == '\'' then ReadWord(w[1..], Bare)
        else Prepend(c, ReadWord(w[1..], InSingle))
      case InDouble =>
        if c == '"' then ReadWord(w[1..], Bare)
        else if IsDoubleQuoteSpecial(c) then None
        else Prepend(c, ReadWord(w[1..], InDouble))
  }

  /** What each `'` of the script becomes: close the single quotes, a
      double-quoted `'`, and reopen them. */
  const QuoteBreak: string := "'\"'\"'"

  /** `script.replace(/'/g, "'\"'\"'")`. */
  function EscapeSingleQuotes(s: string): (r: string)
    ensures '\'' !in s ==> r == s
  {
    ReplaceEveryChar(s, '\'', QuoteBreak)
  }

  /** The script as one single-quoted shell word, quotes escaped. */
  function ShellQuote(script: string): string {
    "'" + EscapeSingleQuotes(script) + "'"
  }

  /** The command line `executeAppleScript` runs. */
  function OsascriptCommand(word: string): string {
    "osascript -e " + word
  }

  lemma {:induction false} EscapedBodyReads(s: string)
    ensures ReadWord(EscapeSingleQuotes(s) + "'", InSingle) == Some(s)
  {
    if |s| == 0 {
      assert EscapeSingleQuotes(s) + "'" == "'";
    } else {
      var t := EscapeSingleQuotes(s[1..]) + "'";
      EscapedBodyReads(s[1..]);
      if s[0] == '\'' {
        var w := EscapeSingleQuotes(s) + "'";
        assert w == QuoteBreak + t;
        assert w[0] == '\'' && w[1..] == "\"'\"'" + t;
        var w1 := w[1..];
        assert w1[0] == '"' && w1[1..] == "'\"'" + t;
        var w2 := w1[1..];
        assert w2[0] == '\'' && w2[1..] == "\"'" + t;
        var w3 := w2[1..];
        assert w3[0] == '"' && w3[1..] == "'" + t;
        var w4 := w3[1..];
        assert w4[0] == '\'' && w4[1..] == t;
        assert ReadWord(w, InSingle) == ReadWord(w1, Bare);
        assert ReadWord(w1, Bare) == ReadWord(w2, InDouble);
        assert ReadWord(w2, InDouble) == Prepend('\'', ReadWord(w3, InDouble));
        assert ReadWord(w3, InDouble) == ReadWord(w4, Bare);
        assert ReadWord(w4, Bare) == ReadWord(t, InSingle);
        assert s == [s[0]] + s[1..];
      } else {
        var w := EscapeSingleQuotes(s) + "'";
        assert w == [s[0]] + t;
        assert w[1..] == t;
        assert s == [s[0]] + s[1..];
      }
    }
  }

  /** The shell hands `osascript` exactly the script, whatever quotes it
      contains. */
  lemma ShellQuoteRoundTrip(script: string)
    ensures ReadWord(ShellQuote(script), Bare) == Some(script)
  {
    var w := ShellQuote(script);
    assert w[0] == '\'' && w[1..] == EscapeSingleQuotes(script) + "'";
    EscapedBodyReads(script);
  }

  /** A word the shell accepts that ends in a `'` yields at most as many
      characters as precede that quote. */
  lemma {:induction false} QuoteEndedWordShrinks(v: string, st: QuoteState)
    ensures ReadWord(v + "'", st).Some? ==> |ReadWord(v + "'", st).value| <= |v|
    decreases |v|
  {
    var w := v + "'";
    if |v| > 0 {
      assert w[1..] == v[1..] + "'";
      QuoteEndedWordShrinks(v[1..], st);
      QuoteEndedWordShrinks(v[1..], Bare);
      QuoteEndedWordShrinks(v[1..], InSingle);
      QuoteEndedWordShrinks(v[1..], InDouble);
    } else {
      assert w == "'" && w[1..] == "";
    }
  }

  /** Inside single quotes, a body holding a `'` loses at least one character
      on the way through the shell. */
  lemma {:induction false} QuoteInBodyIsLost(u: string)
    requires '\'' in u
    ensures ReadWord(u + "'", InSingle).Some? ==> |ReadWord(u + "'", InSingle).value| < |u|
    decreases |u|
  {
    var w := u + "'";
    assert w[1..] == u[1..] + "'";
    if u[0] == '\'' {
      QuoteEndedWordShrinks(u[1..], Bare);
    } else {
      assert '\'' in u[1..] by {
        var k :| 0 <= k < |u| && u[k] == '\'';
        assert u[1..][k - 1] == '\'';
      }
      QuoteInBodyIsLost(u[1..]);
    }
  }

  /** Wrapping a script in single quotes without escaping delivers it intact
      only if it holds no `'`. */
  lemma UnescapedQuoteBreaksWord(script: string)
    requires '\'' in script
    ensures ReadWord("'" + script + "'", Bare) != Some(script)
  {
    var w := "'" + script + "'";
    assert w[0] == '\'' && w[1..] == script + "'";
    QuoteInBodyIsLost(script);
  }

  /** An AppleScript string-literal body read back into the string it
      denotes: `None` when a bare `"` would end the literal early or an
      escape is not one of `\"`, `\\`, `\n`, `\t`, `\r`. */
  function AppleStringValue(body: string): (r: Option<string>)
    decreases |body|
  {
    if |body| == 0 then Some("")
    else if body[0] == '"' then None
    else if body[0] == '\\' then
      if |body| < 2 then None
      else
        var e := body[1];
        if e == '"' || e == '\\' then Prepend(e, AppleStringValue(body[2..]))
        else if e == 'n' then Prepend('\n', AppleStringValue(body[2..]))
        else if e == 't' then Prepend('\t', AppleStringValue(body[2..]))
        else if e == 'r' then Prepend('\r', AppleStringValue(body[2..]))
        else None
    else Prepend(body[0], AppleStringValue(body[1..]))
  }

  /** The outcome of running a command: the error `exec` reported, if any,
      and the two output streams. */
  datatype ExecOutcome = ExecOutcome(error: Option<string>, stdout: string, stderr: string)

  /** What `executeAppleScript` resolves with: a parsed JSON value or the
      trimmed text. */
  datatype ScriptValue<T> = Parsed(value: T) | Raw(text: string)

  const ErrorPrefix: string := "AppleScript error: "
  const StderrPrefix: string := "AppleScript stderr: "

  /** Output that looks like structured data. */
  predicate LooksStructured(s: string) {
    StartsWith(s, "{") || StartsWith(s, "[")
  }

  /** `executeAppleScript` after the process ends: an exec error, then any
      stderr output, reject; otherwise the trimmed stdout resolves, parsed as
      JSON when it starts with `{` or `[` and parsing succeeds. `parse` is
      `JSON.parse`, `None` when it throws. */
  function ScriptResult<T>(out: ExecOutcome, parse: string -> Option<T>)
    : (r: Result<ScriptValue<T>, string>)
    ensures out.error.Some? ==> r == Failure(ErrorPrefix + out.error.value)
    ensures out.error.None? && out.stderr != "" ==> r == Failure(StderrPrefix + out.stderr)
    ensures r.Success? <==> out.error.None? && out.stderr == ""
    ensures r.Success? && r.value.Parsed? ==>
      LooksStructured(Trim(out.stdout)) && parse(Trim(out.stdout)) == Some(r.value.value)
    ensures r.Success? && r.value.Raw? ==>
      r.value.text == Trim(out.stdout)
      && (!LooksStructured(r.value.text) || parse(r.value.text).None?)
  {
    if out.error.Some? then Failure(ErrorPrefix + out.error.value)
    else if out.stderr != "" then Failure(StderrPrefix + out.stderr)
    else
      var trimmed := Trim(out.stdout);
      if LooksStructured(trimmed) then
        match parse(trimmed)
        case Some(v) => Success(Parsed(v))
        case None => Success(Raw(trimmed))
      else Success(Raw(trimmed))
  }

  /** Raw text never carries the surrounding blanks of the output, and blank
      output resolves to the empty string. */
  lemma RawResultIsTrimmed<T>(out: ExecOutcome, parse: string -> Option<T>)
    requires out.error.None? && out.stderr == ""
    ensures var r := ScriptResult(out, parse);
      r.value.Raw? && |r.value.text| > 0 ==>
        !IsJsWhitespace(r.value.text[0]) && !IsJsWhitespace(r.value.text[|r.value.text| - 1])
    ensures IsBlank(out.stdout) ==> ScriptResult(out, parse) == Success(Raw(""))
  {
    var t := TrimStart(out.stdout);
    var trimmed := TrimEnd(t);
    assert Trim(out.stdout) == trimmed;
    if |trimmed| > 0 {
      assert trimmed == t[..|trimmed|];
      assert |t| > 0 && trimmed[0] == t[0];
    }
    if IsBlank(out.stdout) {
      TrimEmptyIffBlank(out.stdout);
      assert trimmed == "";
      assert !LooksStructured(trimmed);
    }
  }

  const MailPrefix: string := "Mail integration failed: "

  /** `get-mail-context`: the script's value, or its error message behind
      the mail prefix. The script itself runs inside `osascript` and is
      opaque here. */
  function MailContextResult<T>(out: ExecOutcome, parse: string -> Option<T>)
    : (r: Result<ScriptValue<T>, string>)
    ensures r.Success? <==> ScriptResult(out, parse).Success?
    ensures r.Success? ==> r.value == ScriptResult(out, parse).value
    ensures r.Failure? ==> r.error == MailPrefix + ScriptResult(out, parse).error
  {
    match ScriptResult(out, parse)
    case Success(v) => Success(v)
    case Failure(m) => Failure(MailPrefix + m)
  }
}
