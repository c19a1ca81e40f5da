/** Request elements (projects, works and processes) and the JavaScript value
    conversions the stores apply to their fields. */
module Elements {
  import opened Wrappers

  /** FormEntryType: every field value is a string or a number. Numbers are
      modelled as integers. */
  datatype Value = Str(s: string) | Num(n: int)

  /** CloRequestElement: a plain record from field name to value. The optional,
      server-assigned identifier is stored under the field "Id". */
  type Element = map<string, Value>

  /** `e[field]`: undefined when the field is absent. */
  function Get(e: Element, field: string): (r: Option<Value>)
    ensures r.Some? <==> field in e
    ensures field in e ==> r == Some(e[field])
  {
    if field in e then Some(e[field]) else None
  }

  /** `map.set(field, v)` where `v` may be undefined; an undefined value reads
      back as absent, so it is modelled by removing the field. */
  function SetOpt(e: Element, field: string, v: Option<Value>): (r: Element)
    ensures Get(r, field) == v
    ensures forall f :: f != field ==> Get(r, f) == Get(e, f)
  {
    match v
    case Some(x) => e[field := x]
    case None => e - {field}
  }

  /** JavaScript truthiness of a field value: undefined, "" and 0 are falsy. */
  predicate Truthy(v: Option<Value>)
  {
    match v
    case None => false
    case Some(Str(s)) => s != ""
    case Some(Num(n)) => n != 0
  }

  predicate IsDigit(c: char)
  {
    '0' <= c <= '9'
  }

  function DigitChar(d: nat): (c: char)
    requires d < 10
    ensures IsDigit(c) && c as int - '0' as int == d
  {
    "0123456789"[d]
  }

  /** Decimal spelling of a natural number, most significant digit first. */
  function NatToString(n: nat): (s: string)
    ensures |s| >= 1
    ensures forall i :: 0 <= i < |s| ==> IsDigit(s[i])
    decreases n
  {
    if n < 10 then [DigitChar(n)] else NatToString(n / 10) + [DigitChar(n % 10)]
  }

  /** `String(n)` for an integer. */
  function IntToString(n: int): string
  {
    if n < 0 then "-" + NatToString(-n) else NatToString(n)
  }

  /** The value of a string of decimal digits; the empty string reads as 0. */
  function DigitsValue(s: string): nat
    requires forall i :: 0 <= i < |s| ==> IsDigit(s[i])
  {
    if s == [] then 0 else DigitsValue(s[..|s| - 1]) * 10 + DigitValue(s[|s| - 1])
  }

  function DigitValue(c: char): (d: nat)
    requires IsDigit(c)
    ensures d < 10
  {
    c as int - '0' as int
  }

  predicate AllDigits(s: string)
  {
    forall i :: 0 <= i < |s| ==> IsDigit(s[i])
  }

  /** `Number(s)` restricted to the spellings the stores meet: an optional sign
      followed by decimal digits. The empty string is 0, as in JavaScript; any
      other spelling is NaN, modelled as None. */
  function ParseNumber(s: string): (r: Option<int>)
    ensures s == "" ==> r == Some(0)
    ensures AllDigits(s) ==> r == Some(DigitsValue(s))
  {
    if s == "" then Some(0)
    else if AllDigits(s) then Some(DigitsValue(s))
    else if (s[0] == '-' || s[0] == '+') && |s| > 1 && AllDigits(s[1..]) then
      (var d: int := DigitsValue(s[1..]); if s[0] == '-' then Some(-d) else Some(d))
    else None
  }

  /** A sign before decimal digits negates or keeps their value; every spelling
      that is neither empty, digits, nor a sign before digits is NaN. */
  lemma ParseSigned(s: string)
    ensures |s| > 1 && s[0] == '-' && AllDigits(s[1..]) ==> ParseNumber(s) == Some(-(DigitsValue(s[1..]) as int))
    ensures |s| > 1 && s[0] == '+' && AllDigits(s[1..]) ==> ParseNumber(s) == Some(DigitsValue(s[1..]))
    ensures ParseNumber(s).None? <==>
      s != "" && !AllDigits(s) && !(|s| > 1 && (s[0] == '-' || s[0] == '+') && AllDigits(s[1..]))
  {
  }

  /** Parsing the decimal spelling of a natural number gives the number back. */
  lemma {:induction false} DigitsOfNat(n: nat)
    ensures DigitsValue(NatToString(n)) == n
    decreases n
  {
    if n >= 10 {
      DigitsOfNat(n / 10);
      var s := NatToString(n);
      assert s[..|s| - 1] == NatToString(n / 10);
    }
  }

  /** `Number(String(n)) == n` for every integer n. */
  lemma NumberOfIntToString(n: int)
    ensures ParseNumber(IntToString(n)) == Some(n)
  {
    if n < 0 {
      NumberOfNegative(-n);
      assert IntToString(n) == "-" + NatToString(-n);
    } else {
      DigitsOfNat(n);
    }
  }

  /** A minus sign followed by the digits of m reads as -m. */
  lemma NumberOfNegative(m: nat)
    ensures ParseNumber("-" + NatToString(m)) == Some(-(m as int))
  {
    var digits := NatToString(m);
    var s := "-" + digits;
    DigitsOfNat(m);
    assert s[1..] == digits;
    assert !AllDigits(s) by { assert !IsDigit(s[0]); }
    assert AllDigits(s[1..]);
  }

  /** `String(v)` and template-literal interpolation of a field value. */
  function ValueToString(v: Value): string
  {
    match v
    case Str(s) => s
    case Num(n) => IntToString(n)
  }

  /** `String(x)` of a possibly undefined value: undefined prints as "undefined". */
  function OptToString(v: Option<Value>): string
  {
    match v
    case None => "undefined"
    case Some(x) => ValueToString(x)
  }

  /** `${x || ""}`: the string of a truthy value, otherwise the empty string.
      The result is empty exactly when the value is falsy, so an interpolated
      field disappears from the text only when it is unset, "" or 0. */
  function OrEmpty(v: Option<Value>): (s: string)
    ensures s == "" <==> !Truthy(v)
    ensures Truthy(v) ==> s == ValueToString(v.value)
  {
    if Truthy(v) then ValueToString(v.value) else ""
  }

  /** `Number(x)` of a possibly undefined value; None stands for NaN. */
  function NumberOf(v: Option<Value>): Option<int>
  {
    match v
    case None => None
    case Some(Num(n)) => Some(n)
    case Some(Str(s)) => ParseNumber(s)
  }

  /** `String(e.Id)`: the key under which an element is cached. */
  function IdKey(e: Element): string
  {
    OptToString(Get(e, "Id"))
  }
}
