/**
 * The part of .NET's composite formatting (`string.Format(template, args)`) that the
 * processor relies on: literal text, `{{` and `}}` escapes, and numbered holes `{n}`
 * filled with string arguments.  A template is held either as text, as callers pass it,
 * or as a sequence of segments; `Parse` and `Text` translate between the two.
 */
module CompositeFormat {
  import opened Wrappers

  datatype Segment = Lit(text: string) | Hole(index: nat)

  type Template = seq<Segment>

  /** The two ways `string.Format` throws a FormatException on these templates. */
  datatype FormatError =
    | Malformed                   // a brace that is neither an escape nor a `{digits}` hole
    | IndexOutOfRange(index: nat) // a hole numbered at or beyond the argument count

  /** Every hole of `t` names one of `n` arguments. */
  predicate HolesBelow(t: Template, n: nat) {
    forall k :: 0 <= k < |t| && t[k].Hole? ==> t[k].index < n
  }

  /** Fills the holes of `t` left to right; the first hole without an argument is the error. */
  function Format(t: Template, args: seq<string>): (r: Result<string, FormatError>)
    ensures r.Success? <==> HolesBelow(t, |args|)
    ensures r.Failure? ==>
      && r.error.IndexOutOfRange?
      && r.error.index >= |args|
      && exists k :: 0 <= k < |t| && t[k] == Hole(r.error.index)
    decreases |t|
  {
    if t == [] then Success("")
    else
      match t[0]
      case Lit(s) =>
        (match Format(t[1..], args)
         case Success(rest) => Success(s + rest)
         case Failure(e) => Failure(e))
      case Hole(i) =>
        if i < |args| then
          (match Format(t[1..], args)
           case Success(rest) => Success(args[i] + rest)
           case Failure(e) => Failure(e))
        else Failure(IndexOutOfRange(i))
  }

  /** Formatting a concatenation formats the two halves and joins them; the left error wins. */
  lemma {:induction false} FormatAppend(t1: Template, t2: Template, args: seq<string>)
    ensures Format(t1 + t2, args) ==
      match Format(t1, args)
      case Failure(e) => Failure(e)
      case Success(a) =>
        (match Format(t2, args)
         case Failure(e) => Failure(e)
         case Success(b) => Success(a + b))
  {
    if t1 == [] {
      assert t1 + t2 == t2;
      match Format(t2, args) {
        case Failure(_) =>
        case Success(b) => assert "" + b == b;
      }
    } else {
      assert (t1 + t2)[0] == t1[0];
      assert (t1 + t2)[1..] == t1[1..] + t2;
      FormatAppend(t1[1..], t2, args);
      match Format(t1[1..], args) {
        case Failure(_) =>
        case Success(a) =>
          match Format(t2, args) {
            case Failure(_) =>
            case Success(b) =>
              var head := match t1[0] case Lit(s) => s case Hole(i) => if i < |args| then args[i] else "";
              assert head + (a + b) == (head + a) + b;
          }
      }
    }
  }

  lemma FormatLitThen(s: string, t: Template, args: seq<string>)
    requires Format(t, args).Success?
    ensures Format([Lit(s)] + t, args) == Success(s + Format(t, args).value)
  {
    assert ([Lit(s)] + t)[1..] == t;
  }

  lemma FormatHoleThen(i: nat, t: Template, args: seq<string>)
    requires i < |args| && Format(t, args).Success?
    ensures Format([Hole(i)] + t, args) == Success(args[i] + Format(t, args).value)
  {
    assert ([Hole(i)] + t)[1..] == t;
  }

  // ---------------------------------------------------------------------------
  // The text form of a template.

  predicate IsDigit(c: char) {
    '0' <= c <= '9'
  }

  predicate AllDigits(s: string) {
    forall j :: 0 <= j < |s| ==> IsDigit(s[j])
  }

  function Digit(d: nat): (c: char)
    requires d < 10
    ensures IsDigit(c) && (c as int) - ('0' as int) == d
  {
    (('0' as int) + d) as char
  }

  /** The number written by a non-empty run of decimal digits (leading zeros allowed). */
  function DecimalValue(ds: string): nat
    requires AllDigits(ds)
    decreases |ds|
  {
    if ds == [] then 0
    else 10 * DecimalValue(ds[..|ds| - 1]) + ((ds[|ds| - 1] as int) - ('0' as int))
  }

  /** The shortest decimal numeral of `n`. */
  function Decimal(n: nat): (ds: string)
    ensures |ds| > 0 && AllDigits(ds)
    ensures DecimalValue(ds) == n
    decreases n
  {
    if n < 10 then [Digit(n)]
    else
      var prefix := Decimal(n / 10);
      var ds := prefix + [Digit(n % 10)];
      assert ds[..|ds| - 1] == prefix;
      ds
  }

  /** The length of the run of digits that starts `s`. */
  function DigitRun(s: string): (k: nat)
    ensures k <= |s| && AllDigits(s[..k])
    ensures k < |s| ==> !IsDigit(s[k])
    decreases |s|
  {
    if s == [] || !IsDigit(s[0]) then 0
    else
      var k := 1 + DigitRun(s[1..]);
      assert s[..k] == [s[0]] + s[1..][..k - 1];
      k
  }

  /** Literal text with its braces doubled, as composite formatting requires. */
  function EscapeBraces(s: string): string
    decreases |s|
  {
    if s == [] then ""
    else (if s[0] == '{' then "{{" else if s[0] == '}' then "}}" else [s[0]]) + EscapeBraces(s[1..])
  }

  function SegmentText(seg: Segment): string {
    match seg
    case Lit(s) => EscapeBraces(s)
    case Hole(i) => "{" + Decimal(i) + "}"
  }

  /** The composite-format string that denotes `t`. */
  function Text(t: Template): string
    decreases |t|
  {
    if t == [] then "" else SegmentText(t[0]) + Text(t[1..])
  }

  function Prepend(p: Template, r: Result<Template, FormatError>): Result<Template, FormatError> {
    match r
    case Success(t) => Success(p + t)
    case Failure(e) => Failure(e)
  }

  /** The length of the run of spaces that starts `s`. */
  function SpaceRun(s: string): (k: nat)
    ensures k <= |s|
    ensures forall j :: 0 <= j < k ==> s[j] == ' '
    ensures k < |s| ==> s[k] != ' '
    decreases |s|
  {
    if s == [] || s[0] != ' ' then 0 else 1 + SpaceRun(s[1..])
  }

  lemma HolesBelowCons(t: Template, n: nat)
    requires t != []
    ensures HolesBelow(t, n) <==> (t[0].Hole? ==> t[0].index < n) && HolesBelow(t[1..], n)
  {
    if (t[0].Hole? ==> t[0].index < n) && HolesBelow(t[1..], n) {
      forall k | 0 <= k < |t| && t[k].Hole? ensures t[k].index < n {
        if k > 0 {
          assert t[k] == t[1..][k - 1];
        }
      }
    }
  }

  lemma HolesBelowPrepend(p: Template, r: Result<Template, FormatError>, n: nat)
    requires HolesBelow(p, n) && (r.Success? ==> HolesBelow(r.value, n))
    ensures Prepend(p, r).Success? ==> HolesBelow(Prepend(p, r).value, n)
  {
    if r.Success? {
      var t := p + r.value;
      forall k | 0 <= k < |t| && t[k].Hole? ensures t[k].index < n {
        if k >= |p| {
          assert t[k] == r.value[k - |p|];
        }
      }
    }
  }

  /**
   * Reads a composite-format string for `n` arguments into segments, one literal segment
   * per character, left to right as .NET does.  `{{` and `}}` stand for one brace;
   * `{digits}`, with spaces allowed before the `}`, is a hole; any other brace is
   * malformed.  A hole numbered `n` or more fails as soon as it has been read, before the
   * text after it is looked at.
   */
  function Parse(s: string, n: nat): (r: Result<Template, FormatError>)
    ensures r.Success? ==> HolesBelow(r.value, n)
    ensures r.Failure? ==> r.error.Malformed? || (r.error.IndexOutOfRange? && r.error.index >= n)
    decreases |s|
  {
    if s == [] then Success([])
    else if s[0] == '{' then
      if |s| >= 2 && s[1] == '{' then
        HolesBelowPrepend([Lit("{")], Parse(s[2..], n), n);
        Prepend([Lit("{")], Parse(s[2..], n))
      else
        var k := DigitRun(s[1..]);
        var close := 1 + k + SpaceRun(s[1 + k..]);
        if k == 0 || close >= |s| || s[close] != '}' then Failure(Malformed)
        else
          assert s[1..1 + k] == s[1..][..k];
          var index := DecimalValue(s[1..1 + k]);
          if index < n then
            HolesBelowPrepend([Hole(index)], Parse(s[close + 1..], n), n);
            Prepend([Hole(index)], Parse(s[close + 1..], n))
          else Failure(IndexOutOfRange(index))
    else if s[0] == '}' then
      if |s| >= 2 && s[1] == '}' then
        HolesBelowPrepend([Lit("}")], Parse(s[2..], n), n);
        Prepend([Lit("}")], Parse(s[2..], n))
      else Failure(Malformed)
    else
      HolesBelowPrepend([Lit([s[0]])], Parse(s[1..], n), n);
      Prepend([Lit([s[0]])], Parse(s[1..], n))
  }

  /** `string.Format(template, args)` on a template given as text: it fails exactly where reading does. */
  function FormatText(template: string, args: seq<string>): (r: Result<string, FormatError>)
    ensures r.Success? <==> Parse(template, |args|).Success?
    ensures r.Failure? ==> r.error == Parse(template, |args|).error
  {
    match Parse(template, |args|)
    case Failure(e) => Failure(e)
    case Success(t) => Format(t, args)
  }

  /** Spaces may stand between the number of a hole and its closing brace. */
  lemma SpacesBeforeClosingBrace()
    ensures FormatText("{0 }", ["a"]) == Success("a")
  {
    var s := "{0 }";
    assert DigitRun(s[1..]) == 1 by {
      assert s[1..][1..] == " }";
    }
    assert SpaceRun(s[2..]) == 1 by {
      assert s[2..][1..] == "}";
    }
    assert s[1..2] == "0";
    assert DecimalValue("0") == 0 by {
      assert "0"[..0] == "";
    }
    assert s[3] == '}' && s[4..] == "";
    assert Parse(s[4..], 1) == Success([]);
    assert [Hole(0)] + [] == [Hole(0)];
    assert Parse(s, 1) == Prepend([Hole(0)], Parse(s[4..], 1));
    assert Format([Hole(0)], ["a"]) == Success("a" + "") by {
      assert [Hole(0)][1..] == [];
    }
    assert "a" + "" == "a";
    assert |["a"]| == 1;
  }

  /** A hole numbered past the arguments fails before any later malformed brace is read. */
  lemma IndexCheckedInTextOrder()
    ensures FormatText("{5}{", ["a"]) == Failure(IndexOutOfRange(5))
  {
    var s := "{5}{";
    assert DigitRun(s[1..]) == 1 by {
      assert s[1..][1..] == "}{";
    }
    assert SpaceRun(s[2..]) == 0;
    assert s[1..2] == "5";
    assert DecimalValue("5") == 5 by {
      assert "5"[..0] == "";
    }
  }

  // ---------------------------------------------------------------------------
  // Round trip: the text of a template formats exactly as the template does.

  /** One literal segment per character of `s`. */
  function CharLits(s: string): (t: Template)
    ensures |t| == |s|
    decreases |s|
  {
    if s == [] then [] else [Lit([s[0]])] + CharLits(s[1..])
  }

  /** `t` with every literal split into single characters. */
  function Explode(t: Template): Template
    decreases |t|
  {
    if t == [] then []
    else (match t[0] case Lit(s) => CharLits(s) case Hole(i) => [Hole(i)]) + Explode(t[1..])
  }

  /**
   * What `Parse` yields on the text of `t` for `n` arguments: `t` exploded into single
   * characters when every hole is below `n`, and otherwise the first hole that is not.
   */
  function ExplodeBelow(t: Template, n: nat): (r: Result<Template, FormatError>)
    ensures r.Success? <==> HolesBelow(t, n)
    ensures r.Success? ==> r.value == Explode(t)
    ensures r.Failure? ==> r.error.IndexOutOfRange? && FirstHoleFrom(t, n, r.error.index)
    decreases |t|
  {
    if t == [] then Success([])
    else
      HolesBelowCons(t, n);
      match t[0]
      case Lit(s) =>
        var rest := ExplodeBelow(t[1..], n);
        if rest.Failure? then FirstHoleCons(t, n, rest.error.index); Failure(rest.error)
        else Prepend(CharLits(s), rest)
      case Hole(i) =>
        if i < n then
          var rest := ExplodeBelow(t[1..], n);
          if rest.Failure? then FirstHoleCons(t, n, rest.error.index); Failure(rest.error)
          else Prepend([Hole(i)], rest)
        else
          assert t[..0] == [];
          Failure(IndexOutOfRange(i))
  }

  /** Hole `i` is numbered `n` or more and is the leftmost such hole of `t`. */
  ghost predicate FirstHoleFrom(t: Template, n: nat, i: nat) {
    i >= n && exists k :: 0 <= k < |t| && t[k] == Hole(i) && HolesBelow(t[..k], n)
  }

  lemma FirstHoleCons(t: Template, n: nat, i: nat)
    requires t != [] && (t[0].Hole? ==> t[0].index < n)
    requires FirstHoleFrom(t[1..], n, i)
    ensures FirstHoleFrom(t, n, i)
  {
    var k :| 0 <= k < |t[1..]| && t[1..][k] == Hole(i) && HolesBelow(t[1..][..k], n);
    assert t[k + 1] == Hole(i);
    var p := t[..k + 1];
    forall j | 0 <= j < |p| && p[j].Hole? ensures p[j].index < n {
      if j > 0 {
        assert p[j] == t[1..][..k][j - 1];
      }
    }
  }

  lemma PrependPrepend(p: Template, q: Template, r: Result<Template, FormatError>)
    ensures Prepend(p, Prepend(q, r)) == Prepend(p + q, r)
  {
    if r.Success? {
      assert p + (q + r.value) == (p + q) + r.value;
    }
  }

  lemma ParseBraceEscape(b: char, t: string, n: nat)
    requires b == '{' || b == '}'
    ensures Parse([b, b] + t, n) == Prepend([Lit([b])], Parse(t, n))
  {
    assert ([b, b] + t)[2..] == t;
  }

  lemma ParsePlain(c: char, t: string, n: nat)
    requires c != '{' && c != '}'
    ensures Parse([c] + t, n) == Prepend([Lit([c])], Parse(t, n))
  {
    assert ([c] + t)[1..] == t;
  }

  lemma {:induction false} ParseEscaped(s: string, rest: string, n: nat)
    ensures Parse(EscapeBraces(s) + rest, n) == Prepend(CharLits(s), Parse(rest, n))
    decreases |s|
  {
    if s == [] {
      assert EscapeBraces(s) + rest == rest;
      assert Prepend([], Parse(rest, n)) == Parse(rest, n) by {
        if Parse(rest, n).Success? {
          assert [] + Parse(rest, n).value == Parse(rest, n).value;
        }
      }
    } else {
      var c := s[0];
      var head := if c == '{' then "{{" else if c == '}' then "}}" else [c];
      var tail := EscapeBraces(s[1..]) + rest;
      assert EscapeBraces(s) == head + EscapeBraces(s[1..]);
      assert EscapeBraces(s) + rest == head + tail;
      ParseEscaped(s[1..], rest, n);
      if c == '{' || c == '}' {
        assert head == [c, c];
        ParseBraceEscape(c, tail, n);
      } else {
        ParsePlain(c, tail, n);
      }
      PrependPrepend([Lit([c])], CharLits(s[1..]), Parse(rest, n));
      assert CharLits(s) == [Lit([c])] + CharLits(s[1..]);
    }
  }

  lemma {:induction false} DigitRunOfNumeral(ds: string, tail: string)
    requires AllDigits(ds)
    requires tail != [] && !IsDigit(tail[0])
    ensures DigitRun(ds + tail) == |ds|
    decreases |ds|
  {
    var s := ds + tail;
    if ds == [] {
      assert s == tail;
      assert s != [] && !IsDigit(s[0]);
    } else {
      assert s != [] && s[0] == ds[0] && IsDigit(s[0]);
      assert s[1..] == ds[1..] + tail;
      assert AllDigits(ds[1..]);
      DigitRunOfNumeral(ds[1..], tail);
      assert DigitRun(s) == 1 + DigitRun(s[1..]);
    }
  }

  lemma ParseHole(i: nat, rest: string, n: nat)
    ensures Parse(SegmentText(Hole(i)) + rest, n) ==
      if i < n then Prepend([Hole(i)], Parse(rest, n)) else Failure(IndexOutOfRange(i))
  {
    var ds := Decimal(i);
    var s := "{" + ds + "}" + rest;
    assert s[1..] == ds + ("}" + rest);
    DigitRunOfNumeral(ds, "}" + rest);
    var k := |ds|;
    assert s[1 + k..] == "}" + rest;
    assert SpaceRun(s[1 + k..]) == 0;
    assert s[1 + k] == '}';
    assert s[1..1 + k] == ds;
    assert s[2 + k..] == rest;
  }

  /** Reading the text of a template gives back its segments, or its first hole without an argument. */
  lemma {:induction false} ParseText(t: Template, n: nat)
    ensures Parse(Text(t), n) == ExplodeBelow(t, n)
    decreases |t|
  {
    if t != [] {
      ParseText(t[1..], n);
      match t[0] {
        case Lit(s) =>
          ParseEscaped(s, Text(t[1..]), n);
        case Hole(i) =>
          ParseHole(i, Text(t[1..]), n);
      }
    }
  }

  lemma {:induction false} FormatCharLits(s: string, args: seq<string>)
    ensures Format(CharLits(s), args) == Success(s)
    decreases |s|
  {
    if s != [] {
      FormatCharLits(s[1..], args);
      assert CharLits(s)[1..] == CharLits(s[1..]);
      assert [s[0]] + s[1..] == s;
    }
  }

  lemma {:induction false} FormatExplode(t: Template, args: seq<string>)
    ensures Format(Explode(t), args) == Format(t, args)
    decreases |t|
  {
    if t != [] {
      var head := match t[0] case Lit(s) => CharLits(s) case Hole(i) => [Hole(i)];
      FormatAppend(head, Explode(t[1..]), args);
      FormatExplode(t[1..], args);
      match t[0] {
        case Lit(s) => FormatCharLits(s, args);
        case Hole(i) => assert [Hole(i)][1..] == [];
      }
      FormatAppend([t[0]], t[1..], args);
      assert [t[0]] + t[1..] == t;
      assert [t[0]][1..] == [];
    }
  }

  /** When reading the text of `t` fails, formatting `t` fails with the same error. */
  lemma {:induction false} ExplodeBelowFailure(t: Template, args: seq<string>)
    requires ExplodeBelow(t, |args|).Failure?
    ensures Format(t, args) == Failure(ExplodeBelow(t, |args|).error)
    decreases |t|
  {
    var e := ExplodeBelow(t, |args|).error;
    match t[0] {
      case Lit(s) =>
        ExplodeBelowFailure(t[1..], args);
      case Hole(i) =>
        if i < |args| {
          ExplodeBelowFailure(t[1..], args);
        }
    }
  }

  /** Formatting the text of a template is formatting the template itself. */
  lemma FormatTextOfTemplate(t: Template, args: seq<string>)
    ensures FormatText(Text(t), args) == Format(t, args)
  {
    ParseText(t, |args|);
    if HolesBelow(t, |args|) {
      FormatExplode(t, args);
    } else {
      ExplodeBelowFailure(t, args);
    }
  }
}
