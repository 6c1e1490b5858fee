/**
 * A concrete instance of the processor's literal escape, `FormatHelper.FormatSqlEscape`.
 * FormatHelper is not part of this model, so the processor takes the escape as a
 * parameter; this module states the usual rule as an explicit assumption: the
 * character-string-literal rule of ISO/IEC 9075-2, section 5.3 <literal>, under which a
 * quote inside a literal is written as two quotes.  `ReadLiteral` is the matching
 * lexer, and the round trip below is what makes the escape safe: an escaped name put
 * between quotes is read back as exactly that name, and the literal ends where the
 * closing quote was written.
 */
module SqlLiteral {
  import opened Wrappers

  const Quote: char := '\''

  /** Writes every quote of `s` twice. */
  function DoubleQuotes(s: string): (r: string)
    ensures |r| >= |s|
    decreases |s|
  {
    if s == [] then ""
    else (if s[0] == Quote then [Quote, Quote] else [s[0]]) + DoubleQuotes(s[1..])
  }

  /**
   * Reads the body of a literal whose opening quote has been consumed: a doubled quote
   * stands for one quote, a single quote ends the literal.  Returns the content and the
   * text after the closing quote, or None when the literal is never closed.
   */
  function ReadBody(s: string): (r: Option<(string, string)>)
    ensures r.Some? ==> |r.value.1| < |s|
    decreases |s|
  {
    if s == [] then None
    else if s[0] == Quote then
      if |s| >= 2 && s[1] == Quote then
        match ReadBody(s[2..])
        case None => None
        case Some((content, rest)) => Some(([Quote] + content, rest))
      else Some(("", s[1..]))
    else
      match ReadBody(s[1..])
      case None => None
      case Some((content, rest)) => Some(([s[0]] + content, rest))
  }

  /** Reads one quoted literal at the start of `s`. */
  function ReadLiteral(s: string): Option<(string, string)> {
    if s != [] && s[0] == Quote then ReadBody(s[1..]) else None
  }

  /** The content read so far, with `prefix` put in front of it. */
  function PrependContent(prefix: string, r: Option<(string, string)>): Option<(string, string)> {
    match r
    case None => None
    case Some((content, rest)) => Some((prefix + content, rest))
  }

  lemma ReadBodyOfPair(t: string)
    ensures ReadBody([Quote, Quote] + t) == PrependContent([Quote], ReadBody(t))
  {
    assert ([Quote, Quote] + t)[2..] == t;
  }

  lemma ReadBodyOfChar(ch: char, t: string)
    requires ch != Quote
    ensures ReadBody([ch] + t) == PrependContent([ch], ReadBody(t))
  {
    assert ([ch] + t)[1..] == t;
  }

  lemma ReadBodyOfClose(rest: string)
    requires rest == [] || rest[0] != Quote
    ensures ReadBody([Quote] + rest) == Some(("", rest))
  {
    assert ([Quote] + rest)[1..] == rest;
  }

  lemma {:induction false} ReadBodyOfEscaped(x: string, rest: string)
    requires rest == [] || rest[0] != Quote
    ensures ReadBody(DoubleQuotes(x) + [Quote] + rest) == Some((x, rest))
    decreases |x|
  {
    if x == [] {
      assert DoubleQuotes(x) + [Quote] + rest == [Quote] + rest;
      ReadBodyOfClose(rest);
    } else {
      var head := if x[0] == Quote then [Quote, Quote] else [x[0]];
      var tail := DoubleQuotes(x[1..]) + [Quote] + rest;
      assert DoubleQuotes(x) == head + DoubleQuotes(x[1..]);
      assert DoubleQuotes(x) + [Quote] + rest == head + tail;
      ReadBodyOfEscaped(x[1..], rest);
      if x[0] == Quote {
        ReadBodyOfPair(tail);
      } else {
        ReadBodyOfChar(x[0], tail);
      }
      assert [x[0]] + x[1..] == x;
    }
  }

  /**
   * An escaped value between quotes never lets the literal end early: the lexer returns
   * the original value, and what follows the closing quote is left untouched.
   */
  lemma LiteralRoundTrip(x: string, rest: string)
    requires rest == [] || rest[0] != Quote
    ensures ReadLiteral([Quote] + DoubleQuotes(x) + [Quote] + rest) == Some((x, rest))
  {
    var body := DoubleQuotes(x) + [Quote] + rest;
    var s := [Quote] + DoubleQuotes(x) + [Quote] + rest;
    assert s == [Quote] + body;
    assert s[0] == Quote && s[1..] == body;
    ReadBodyOfEscaped(x, rest);
  }
}
