/** JavaScript notions the dialer's handlers lean on: values as they arrive in
    a JSON body, truthiness, `??`, `startsWith`, `String(n)` of an integer and
    `Number.parseInt(s, 10)`. */
module Js {

  datatype Option<+T> = None | Some(value: T)

  /** A field of a JSON object as a handler reads it. `Undefined` is a key that
      is absent; `Null` is an explicit null (also what JSON makes of NaN). */
  datatype Value = Undefined | Null | Str(s: string) | Num(n: int)

  /** JavaScript truthiness: absent, null, "" and 0 are falsy. */
  predicate Truthy(v: Value) {
    match v
    case Undefined => false
    case Null => false
    case Str(s) => s != ""
    case Num(n) => n != 0
  }

  /** The values `??` replaces. */
  predicate Nullish(v: Value) {
    v.Undefined? || v.Null?
  }

  /** `v ?? fallback` */
  function Coalesce(v: Value, fallback: Value): Value {
    if Nullish(v) then fallback else v
  }

  /** `s.startsWith(prefix)` */
  predicate StartsWith(s: string, prefix: string) {
    |prefix| <= |s| && s[..|prefix|] == prefix
  }

  lemma StartsWithIsPrefix(s: string, prefix: string)
    ensures StartsWith(s, prefix) <==> prefix <= s
  {
  }

  predicate IsDigit(c: char) {
    '0' <= c <= '9'
  }

  predicate AllDigits(s: string) {
    forall i :: 0 <= i < |s| ==> IsDigit(s[i])
  }

  function DigitChar(d: nat): (c: char)
    requires d < 10
    ensures IsDigit(c) && c as int - '0' as int == d
  {
    ('0' as int + d) as char
  }

  /** `String(n)` for a natural number: its decimal digits, no leading zero. */
  function NatToDecimal(n: nat): (s: string)
    ensures s != [] && AllDigits(s)
    ensures s[0] == '0' ==> n == 0
  {
    if n < 10 then [DigitChar(n)] else NatToDecimal(n / 10) + [DigitChar(n % 10)]
  }

  /** `String(n)` for an integer. */
  function IntToDecimal(n: int): (s: string)
    ensures n >= 0 ==> s != [] && AllDigits(s)
    ensures n < 0 ==> |s| >= 2 && s[0] == '-' && AllDigits(s[1..])
  {
    if n < 0 then "-" + NatToDecimal(-n) else NatToDecimal(n)
  }

  /** The number a run of decimal digits denotes. */
  function DigitsValue(s: string): nat
    requires AllDigits(s)
  {
    if s == [] then 0 else 10 * DigitsValue(s[..|s| - 1]) + (s[|s| - 1] as int - '0' as int)
  }

  lemma {:induction false} DigitsValueOfDecimal(n: nat)
    ensures DigitsValue(NatToDecimal(n)) == n
  {
    if n >= 10 {
      var s := NatToDecimal(n);
      assert s[..|s| - 1] == NatToDecimal(n / 10);
      DigitsValueOfDecimal(n / 10);
    }
  }

  /** Length of the longest prefix of `s` made of decimal digits. */
  function DigitRun(s: string): (k: nat)
    ensures k <= |s| && AllDigits(s[..k])
    ensures k < |s| ==> !IsDigit(s[k])
  {
    if s != [] && IsDigit(s[0]) then
      var k := 1 + DigitRun(s[1..]);
      assert s[..k] == [s[0]] + s[1..][..k - 1];
      k
    else
      0
  }

  /** The characters `parseInt` skips before the number: white space and line
      terminators of ECMAScript (tab, vertical tab, form feed, space, no-break
      space, byte order mark, the other space separators, LF, CR, U+2028,
      U+2029). */
  predicate IsJsWhitespace(c: char) {
    || c == '\t' || c == '\n' || c == '\U{B}' || c == '\U{C}' || c == '\r' || c == ' '
    || c == '\U{A0}' || c == '\U{1680}' || ('\U{2000}' <= c <= '\U{200A}')
    || c == '\U{2028}' || c == '\U{2029}' || c == '\U{202F}' || c == '\U{205F}'
    || c == '\U{3000}' || c == '\U{FEFF}'
  }

  /** `s` without its leading white space. */
  function TrimStart(s: string): (t: string)
    ensures |t| <= |s| && t == s[|s| - |t|..]
    ensures t != [] ==> !IsJsWhitespace(t[0])
    ensures forall i :: 0 <= i < |s| - |t| ==> IsJsWhitespace(s[i])
  {
    if s != [] && IsJsWhitespace(s[0]) then TrimStart(s[1..]) else s
  }

  /** The digits of an unsigned number at the start of `u`, negated when
      `negative`; NaN (None) when `u` does not start with a digit. */
  function LeadingNumber(u: string, negative: bool): (r: Option<int>)
    ensures r.None? <==> u == [] || !IsDigit(u[0])
  {
    var k := DigitRun(u);
    var magnitude: int := DigitsValue(u[..k]);
    if k == 0 then None
    else if negative then Some(-magnitude)
    else Some(magnitude)
  }

  /** What `Number.parseInt` reads once white space is skipped: an optional
      sign, then the longest run of decimal digits; no digit gives NaN (None). */
  function SignedDigits(t: string): (r: Option<int>)
    ensures t != [] && AllDigits(t) ==> r == Some(DigitsValue(t))
  {
    assert t != [] && AllDigits(t) ==> LeadingNumber(t, false) == Some(DigitsValue(t)) by {
      if t != [] && AllDigits(t) {
        LeadingNumberOfRun(t, [], false);
        assert t + [] == t;
      }
    }
    if t != [] && (t[0] == '-' || t[0] == '+') then LeadingNumber(t[1..], t[0] == '-')
    else LeadingNumber(t, false)
  }

  /** `Number.parseInt(s, 10)`: skip leading white space, then read a signed
      run of digits. */
  function ParseInt10(s: string): (r: Option<int>)
    ensures s != [] && AllDigits(s) ==> r == Some(DigitsValue(s))
  {
    assert s != [] && AllDigits(s) ==> TrimStart(s) == s;
    SignedDigits(TrimStart(s))
  }

  lemma TrimStartKeeps(s: string)
    requires s != [] && !IsJsWhitespace(s[0])
    ensures TrimStart(s) == s
  {
  }

  lemma {:induction false} DigitRunOfPrefix(d: string, rest: string)
    requires AllDigits(d)
    requires rest == [] || !IsDigit(rest[0])
    ensures DigitRun(d + rest) == |d|
  {
    if d != [] {
      assert (d + rest)[1..] == d[1..] + rest;
      DigitRunOfPrefix(d[1..], rest);
    }
  }

  /** After an optional sign, `parseInt` reads the leading run of digits and
      ignores whatever follows it. */
  lemma SignedDigitsReadsLeadingRun(sign: string, d: string, rest: string)
    requires sign == "" || sign == "-" || sign == "+"
    requires d != [] && AllDigits(d)
    requires rest == [] || !IsDigit(rest[0])
    ensures SignedDigits(sign + d + rest) ==
      Some(if sign == "-" then -(DigitsValue(d) as int) else DigitsValue(d))
  {
    var u := d + rest;
    assert sign + d + rest == sign + u;
    assert u[0] == d[0];
    SignedDigitsAfterSign(sign, u);
    LeadingNumberOfRun(d, rest, sign == "-");
  }

  /** After an optional sign, the number is read from what follows it. */
  lemma SignedDigitsAfterSign(sign: string, u: string)
    requires sign == "" || sign == "-" || sign == "+"
    requires u != [] && IsDigit(u[0])
    ensures SignedDigits(sign + u) == LeadingNumber(u, sign == "-")
  {
    if sign == "" {
      assert sign + u == u;
    } else {
      assert (sign + u)[0] == sign[0] && (sign + u)[1..] == u;
    }
  }

  lemma LeadingNumberOfRun(d: string, rest: string, negative: bool)
    requires d != [] && AllDigits(d)
    requires rest == [] || !IsDigit(rest[0])
    ensures LeadingNumber(d + rest, negative) ==
      Some(if negative then -(DigitsValue(d) as int) else DigitsValue(d))
  {
    var u := d + rest;
    DigitRunOfPrefix(d, rest);
    assert u[..DigitRun(u)] == d;
  }

  /** Without a digit after the optional sign, `parseInt` gives NaN. */
  lemma SignedDigitsWithoutDigits(sign: string, rest: string)
    requires sign == "" || sign == "-" || sign == "+"
    requires rest == [] || !IsDigit(rest[0])
    requires sign == "" && rest != [] ==> rest[0] != '-' && rest[0] != '+'
    ensures SignedDigits(sign + rest).None?
  {
    var t := sign + rest;
    if sign != "" {
      assert t[1..] == rest;
    } else {
      assert t == rest;
    }
  }

  lemma {:induction false} TrimStartSkips(w: string, t: string)
    requires forall i :: 0 <= i < |w| ==> IsJsWhitespace(w[i])
    requires t == [] || !IsJsWhitespace(t[0])
    ensures TrimStart(w + t) == t
  {
    if w == [] {
      assert w + t == t;
    } else {
      assert (w + t)[1..] == w[1..] + t;
      TrimStartSkips(w[1..], t);
    }
  }

  /** `parseInt` skips leading white space and line terminators. */
  lemma ParseIntSkipsWhitespace(w: string, t: string)
    requires forall i :: 0 <= i < |w| ==> IsJsWhitespace(w[i])
    requires t == [] || !IsJsWhitespace(t[0])
    ensures ParseInt10(w + t) == SignedDigits(t)
  {
    TrimStartSkips(w, t);
  }

  /** A minus sign before a run of digits negates it. */
  lemma ParseIntOfNegated(d: string)
    requires d != [] && AllDigits(d)
    ensures ParseInt10("-" + d) == Some(-(DigitsValue(d) as int))
  {
    TrimStartKeeps("-" + d);
    SignedDigitsReadsLeadingRun("-", d, "");
    assert "-" + d + "" == "-" + d;
  }

  lemma ParseIntOfNatDecimal(m: nat)
    ensures ParseInt10(NatToDecimal(m)) == Some(m as int)
  {
    DigitsValueOfDecimal(m);
  }

  lemma ParseIntOfNegatedDecimal(m: nat)
    ensures ParseInt10("-" + NatToDecimal(m)) == Some(-(m as int))
  {
    ParseIntOfNegated(NatToDecimal(m));
    DigitsValueOfDecimal(m);
  }

  /** `Number.parseInt(String(n), 10) == n` for every integer. */
  lemma ParseIntOfDecimal(n: int)
    ensures ParseInt10(IntToDecimal(n)) == Some(n)
  {
    if n < 0 {
      var m: nat := -n;
      var d := NatToDecimal(m);
      assert IntToDecimal(n) == "-" + d;
      ParseIntOfNegatedDecimal(m);
      assert -(m as int) == n;
    } else {
      assert IntToDecimal(n) == NatToDecimal(n);
      ParseIntOfNatDecimal(n);
    }
  }
}
