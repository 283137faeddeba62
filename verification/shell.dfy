/** POSIX shell quoting as Python's `shlex.quote` does it, and the reading of
    a quoted word by a POSIX shell (single and double quotes, section 2.2 of
    POSIX.1-2017, Shell Command Language) that it must agree with. */
module Shell {
  import opened Errors
  import opened Config
  import opened Strings

  /** The characters `shlex.quote` leaves bare: `[A-Za-z0-9_@%+=:,./-]`. */
  predicate SafeChar(c: char)
  {
    ('a' <= c <= 'z') || ('A' <= c <= 'Z') || ('0' <= c <= '9')
    || c == '_' || c == '@' || c == '%' || c == '+' || c == '=' || c == ':'
    || c == ',' || c == '.' || c == '/' || c == '-'
  }

  predicate AllSafe(s: string)
  {
    forall i :: 0 <= i < |s| ==> SafeChar(s[i])
  }

  /** `s.replace("'", "'\"'\"'")`: each single quote closes the quoted text,
      is written inside double quotes, and opens a new quoted text. */
  function EscapeQuotes(s: string): (r: string)
    ensures |r| >= |s|
  {
    if s == [] then []
    else (if s[0] == '\'' then "'\"'\"'" else [s[0]]) + EscapeQuotes(s[1..])
  }

  /** `EscapeQuotes` is what `str.replace` does with that pattern. */
  lemma {:induction false} EscapeIsReplace(s: string)
    ensures Replace(s, "'", "'\"'\"'") == EscapeQuotes(s)
  {
    if s != [] {
      EscapeIsReplace(s[1..]);
      if s[0] == '\'' {
        assert "'" <= s;
      } else {
        assert !("'" <= s);
      }
    }
  }

  /** Quoting adds no characters but quotes. */
  lemma QuoteChars(s: string)
    ensures forall c :: c in Quote(s) ==> c in s || c == '\'' || c == '"'
  {
    EscapeChars(s);
  }

  lemma {:induction false} EscapeChars(s: string)
    ensures forall c :: c in EscapeQuotes(s) ==> c in s || c == '\'' || c == '"'
  {
    if s != [] {
      EscapeChars(s[1..]);
      assert forall c :: c in s[1..] ==> c in s;
    }
  }

  /** `shlex.quote(s)` for a string. */
  function Quote(s: string): (r: string)
    ensures r != ""
    ensures r == s <==> s != "" && AllSafe(s)
  {
    if s == "" then "''"
    else if AllSafe(s) then s
    else "'" + EscapeQuotes(s) + "'"
  }

  /** `shlex.quote(v)` for any loaded value: a false value (empty string,
      `None`, `0`, `False`, an empty container) gives `''` before its type is
      looked at; any other non-string is refused. */
  function PyQuote(v: Value): (r: Result<string>)
    ensures !Truthy(v) ==> r == Ok("''")
    ensures Truthy(v) ==> (r.Ok? <==> v.VStr?)
    ensures v.VStr? ==> r == Ok(Quote(v.s))
  {
    if !Truthy(v) then Ok("''")
    else if v.VStr? then Ok(Quote(v.s))
    else Fail(TypeError, "expected string object")
  }

  /** Where the shell's reader is inside a word. */
  datatype QuoteState = Bare | InSingle | InDouble

  /** The text a shell makes of one word, or `None` when the word is not a
      single plain word (an unquoted special character, an unterminated
      quote, or an expansion inside double quotes). */
  function Unquote(w: string): Option<string>
  {
    Read(Bare, w)
  }

  function Read(st: QuoteState, w: string): Option<string>
    decreases |w|
  {
    if w == [] then (if st == Bare then Some("") else None)
    else
      var c := w[0];
      match st
      case Bare =>
        if c == '\'' then Read(InSingle, w[1..])
        else if c == '"' then Read(InDouble, w[1..])
        else if SafeChar(c) then Prepend(c, Read(Bare, w[1..]))
        else None
      case InSingle =>
        if c == '\'' then Read(Bare, w[1..]) else Prepend(c, Read(InSingle, w[1..]))
      case InDouble =>
        if c == '"' then Read(Bare, w[1..])
        else if c == '$' || c == '`' || c == '\\' then None
        else Prepend(c, Read(InDouble, w[1..]))
  }

  function Prepend(c: char, r: Option<string>): Option<string>
  {
    if r.Some? then Some([c] + r.value) else None
  }

  /** Reading what `Quote` wrote gives back the original string: the quoting
      is lossless for every input. */
  lemma QuoteRoundTrip(s: string)
    ensures Unquote(Quote(s)) == Some(s)
  {
    if s == "" {
      assert Read(InSingle, "'") == Some("");
    } else if AllSafe(s) {
      ReadBare(s);
    } else {
      assert Quote(s) == ['\''] + (EscapeQuotes(s) + "'");
      ReadEscaped(s);
    }
  }

  /** The text the shell sees for a value passed through `shlex.quote`: a
      false value becomes the empty word. */
  function ShellText(v: Value): string
  {
    if Truthy(v) && v.VStr? then v.s else ""
  }

  /** Whatever value `shlex.quote` accepts, the shell reads back its text. */
  lemma PyQuoteRoundTrip(v: Value)
    requires PyQuote(v).Ok?
    ensures Unquote(PyQuote(v).value) == Some(ShellText(v))
  {
    if Truthy(v) {
      QuoteRoundTrip(v.s);
    } else {
      QuoteRoundTrip("");
    }
  }

  lemma {:induction false} ReadBare(s: string)
    requires AllSafe(s)
    ensures Read(Bare, s) == Some(s)
  {
    if s != [] {
      ReadBare(s[1..]);
      assert [s[0]] + s[1..] == s;
    }
  }

  lemma {:induction false} ReadEscaped(s: string)
    ensures Read(InSingle, EscapeQuotes(s) + "'") == Some(s)
  {
    if s == [] {
      assert EscapeQuotes(s) + "'" == "'";
    } else {
      var rest := EscapeQuotes(s[1..]) + "'";
      ReadEscaped(s[1..]);
      assert s == [s[0]] + s[1..];
      if s[0] == '\'' {
        assert EscapeQuotes(s) + "'" == "'\"'\"'" + rest;
        ReadEscapedQuote(rest);
      } else {
        assert EscapeQuotes(s) + "'" == [s[0]] + rest;
      }
    }
  }

  /** The escape of one single quote closes the quoted part, gives the
      quote inside double quotes and opens a new quoted part. */
  lemma ReadEscapedQuote(rest: string)
    ensures Read(InSingle, "'\"'\"'" + rest) == Prepend('\'', Read(InSingle, rest))
  {
    var w := "'\"'\"'" + rest;
    assert w[1..] == "\"'\"'" + rest;
    assert w[1..][1..] == "'\"'" + rest;
    assert w[1..][1..][1..] == "\"'" + rest;
    assert w[1..][1..][1..][1..] == "'" + rest;
    assert w[1..][1..][1..][1..][1..] == rest;
    assert Read(InSingle, w) == Read(Bare, w[1..]);
    assert Read(Bare, w[1..]) == Read(InDouble, w[1..][1..]);
    assert Read(InDouble, w[1..][1..]) == Prepend('\'', Read(InDouble, w[1..][1..][1..]));
    assert Read(InDouble, w[1..][1..][1..]) == Read(Bare, w[1..][1..][1..][1..]);
  }
}
