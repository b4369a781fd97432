/** The parts of Python 2's built-ins that the live-rewrite handler leans on:
    int() applied to a header value, str.format with one positional argument,
    and str.lower() on ASCII header names. */
module PyBuiltins {
  import opened LiveTypes

  predicate IsDigit(c: char) {
    '0' <= c <= '9'
  }

  /** The characters C's isspace() accepts in the "C" locale */
  predicate IsSpace(c: char) {
    c == ' ' || c == '\t' || c == '\n' || c == '\r' || c as int == 11 || c as int == 12
  }

  predicate AllDigits(s: string) {
    forall i :: 0 <= i < |s| ==> IsDigit(s[i])
  }

  /** s without its leading whitespace */
  function TrimLeft(s: string): (r: string)
    ensures |r| <= |s| && r == s[|s| - |r|..]
    ensures forall i :: 0 <= i < |s| - |r| ==> IsSpace(s[i])
    ensures r != [] ==> !IsSpace(r[0])
  {
    if s != [] && IsSpace(s[0]) then TrimLeft(s[1..]) else s
  }

  /** s without its trailing whitespace */
  function TrimRight(s: string): (r: string)
    ensures |r| <= |s| && r == s[..|r|]
    ensures forall i :: |r| <= i < |s| ==> IsSpace(s[i])
    ensures r != [] ==> !IsSpace(r[|r| - 1])
  {
    if s != [] && IsSpace(s[|s| - 1]) then TrimRight(s[..|s| - 1]) else s
  }

  function DigitValue(c: char): nat
    requires IsDigit(c)
  {
    c as int - '0' as int
  }

  function DigitChar(d: nat): (c: char)
    requires d < 10
    ensures IsDigit(c) && DigitValue(c) == d
  {
    ('0' as int + d) as char
  }

  /** The number a run of decimal digits denotes, most significant first */
  function DigitsValue(s: string): nat
    requires AllDigits(s)
  {
    if s == [] then 0 else DigitsValue(s[..|s| - 1]) * 10 + DigitValue(s[|s| - 1])
  }

  /** The decimal numeral of n, as str(n) writes it */
  function Decimal(n: nat): (r: string)
    ensures r != [] && AllDigits(r)
  {
    if n < 10 then [DigitChar(n)] else Decimal(n / 10) + [DigitChar(n % 10)]
  }

  /** Python 2's int(s) on a str: optional surrounding whitespace, an optional
      sign (CPython 2 lets whitespace follow it), then one or more decimal
      digits. None stands for the ValueError int() raises on anything else. */
  function ParseInt(s: string): (r: Option<int>)
    ensures r.Some? ==> exists i :: 0 <= i < |s| && IsDigit(s[i])
    ensures r.Some? && r.value < 0 ==> exists i :: 0 <= i < |s| && s[i] == '-'
  {
    var l := TrimLeft(s);
    var t := TrimRight(l);
    assert forall j :: 0 <= j < |t| ==> t[j] == s[|s| - |l| + j];
    ParseTrimmed(t)
  }

  /** int() once the surrounding whitespace is gone */
  function ParseTrimmed(t: string): (r: Option<int>)
    ensures r.Some? ==> exists j :: 0 <= j < |t| && IsDigit(t[j])
    ensures r.Some? && r.value < 0 ==> t != [] && t[0] == '-'
  {
    if t != [] && (t[0] == '+' || t[0] == '-') then
      var u := TrimLeft(t[1..]);
      if u != [] && AllDigits(u) then
        Some(if t[0] == '-' then 0 - DigitsValue(u) else DigitsValue(u))
      else None
    else if t != [] && AllDigits(t) then Some(DigitsValue(t))
    else None
  }

  lemma {:induction false} DecimalValue(n: nat)
    ensures DigitsValue(Decimal(n)) == n
  {
    if n >= 10 {
      DecimalValue(n / 10);
      var d := Decimal(n);
      assert d[..|d| - 1] == Decimal(n / 10);
    }
  }

  /** A string that starts and ends with something other than whitespace is
      left alone by int()'s trimming */
  lemma TrimmedAlready(s: string)
    requires s != [] && !IsSpace(s[0]) && !IsSpace(s[|s| - 1])
    ensures TrimRight(TrimLeft(s)) == s
  {
    assert TrimLeft(s) == s;
  }

  /** int() reads a bare run of digits as the number it denotes */
  lemma ParseDigits(d: string)
    requires d != [] && AllDigits(d)
    ensures ParseInt(d) == Some(DigitsValue(d))
  {
    assert IsDigit(d[0]) && IsDigit(d[|d| - 1]);
    TrimmedAlready(d);
  }

  /** int() reads back every numeral str() writes */
  lemma ParseDecimal(n: nat)
    ensures ParseInt(Decimal(n)) == Some(n)
  {
    ParseDigits(Decimal(n));
    DecimalValue(n);
  }

  lemma TrimLeftNoop(u: string)
    requires u != [] && !IsSpace(u[0])
    ensures TrimLeft(u) == u
  {
  }

  /** A minus sign directly followed by digits, once trimmed, is negated */
  lemma ParseSignedTrimmed(t: string, u: string)
    requires t == ['-'] + u && u != [] && AllDigits(u)
    ensures ParseTrimmed(t) == Some(0 - DigitsValue(u))
  {
    assert t[1..] == u;
    TrimLeftNoop(u);
  }

  /** int() reads a minus sign followed by digits as a negative number */
  lemma ParseNegativeDigits(d: string)
    requires d != [] && AllDigits(d)
    ensures ParseInt("-" + d) == Some(0 - DigitsValue(d))
  {
    var t := "-" + d;
    ParseSignedTrimmed(t, d);
    assert IsDigit(t[|t| - 1]);
    TrimmedAlready(t);
  }

  /** int() raises ValueError on any string holding a character that is not
      whitespace, a sign or a digit */
  lemma RejectsStrayCharacter(s: string, i: nat)
    requires i < |s| && !IsDigit(s[i]) && !IsSpace(s[i]) && s[i] != '+' && s[i] != '-'
    ensures ParseInt(s) == None
  {
    var l := TrimLeft(s);
    var t := TrimRight(l);
    var a := |s| - |l|;
    assert i >= a;
    assert l[i - a] == s[i];
    assert i - a < |t|;
    assert t[i - a] == s[i];
    if t[0] == '+' || t[0] == '-' {
      var u := TrimLeft(t[1..]);
      var b := |t[1..]| - |u|;
      assert t[1..][i - a - 1] == s[i];
      assert i - a - 1 >= b;
      assert u[i - a - 1 - b] == s[i];
    } else {
      assert !IsDigit(t[i - a]);
    }
  }

  predicate NoBraces(s: string) {
    forall i :: 0 <= i < |s| ==> s[i] != '{' && s[i] != '}'
  }

  function Prepend(p: string, r: Option<string>): Option<string> {
    if r.Some? then Some(p + r.value) else None
  }

  /** template.format(arg) for templates whose replacement fields are all "{0}":
      "{{" and "}}" stand for single braces, "{0}" for arg. None stands for the
      exception str.format raises on a lone brace or any other field. */
  function Format(template: string, arg: string): (r: Option<string>)
    ensures r.None? ==> exists i :: 0 <= i < |template| && (template[i] == '{' || template[i] == '}')
    decreases |template|
  {
    var t := template;
    if t == [] then Some("")
    else if |t| >= 2 && t[0] == '{' && t[1] == '{' then Prepend("{", Format(t[2..], arg))
    else if |t| >= 2 && t[0] == '}' && t[1] == '}' then Prepend("}", Format(t[2..], arg))
    else if |t| >= 3 && t[0] == '{' && t[1] == '0' && t[2] == '}' then Prepend(arg, Format(t[3..], arg))
    else if t[0] == '{' || t[0] == '}' then None
    else Prepend([t[0]], Format(t[1..], arg))
  }

  /** A template without fields formats to itself */
  lemma {:induction false} FormatLiteral(t: string, arg: string)
    requires NoBraces(t)
    ensures Format(t, arg) == Some(t)
  {
    if t != [] {
      FormatLiteral(t[1..], arg);
      assert [t[0]] + t[1..] == t;
    }
  }

  /** A template with one "{0}" field formats to the argument spliced in */
  lemma {:induction false} FormatOneField(p: string, q: string, arg: string)
    requires NoBraces(p) && NoBraces(q)
    ensures Format(p + "{0}" + q, arg) == Some(p + arg + q)
  {
    if p == [] {
      var t := p + "{0}" + q;
      assert t == "{0}" + q;
      assert t[0] == '{' && t[1] == '0' && t[2] == '}';
      assert t[3..] == q;
      assert p + arg + q == arg + q;
      FormatLiteral(q, arg);
    } else {
      FormatOneField(p[1..], q, arg);
      assert (p + "{0}" + q)[1..] == p[1..] + "{0}" + q;
      assert [p[0]] + (p[1..] + arg + q) == p + arg + q;
    }
  }

  /** In the modelled subset of str.format, a "{" that opens neither "{{" nor
      "{0}" is rejected, whatever literal text precedes it */
  lemma {:induction false} FormatStrayBrace(p: string, q: string, arg: string)
    requires NoBraces(p)
    requires q == [] || (q[0] != '{' && !(|q| >= 2 && q[0] == '0' && q[1] == '}'))
    ensures Format(p + "{" + q, arg) == None
  {
    var t := p + "{" + q;
    if p == [] {
      assert t == "{" + q;
      assert t[0] == '{';
      assert |t| >= 2 ==> t[1] == q[0];
      assert |t| >= 3 ==> t[2] == q[1];
    } else {
      FormatStrayBrace(p[1..], q, arg);
      assert t[1..] == p[1..] + "{" + q;
      assert t[0] == p[0];
    }
  }

  function LowerChar(c: char): char {
    if 'A' <= c <= 'Z' then (c as int + 32) as char else c
  }

  /** str.lower() on ASCII text */
  function Lower(s: string): string {
    seq(|s|, i requires 0 <= i < |s| => LowerChar(s[i]))
  }
}
