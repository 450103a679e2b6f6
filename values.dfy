/** Cell values, records and the two coercions every consumer applies to them:
    JavaScript truthiness and `parseFloat(x) || 0`. */
module Values {
  import opened Wrappers

  /** One cell as the spreadsheet runtime returns it from `getValues()`, or a field value
      of a record the dashboard loads. `Instant` stands for a sheet date cell. */
  datatype Value =
    | Text(s: string)
    | Number(n: real)
    | Boolean(b: bool)
    | Instant(millis: int)  // a date cell: a `Date` object
    | Null                  // JSON `null`

  /** A record: header name to cell value (a plain JavaScript object). */
  type Record = map<string, Value>

  /** JavaScript truthiness of a property read (`undefined`, `null`, `""`, `0`, `false` are falsy). */
  predicate Truthy(c: Option<Value>) {
    match c
    case None => false
    case Some(v) =>
      match v
      case Text(s) => s != ""
      case Number(n) => n != 0.0
      case Boolean(b) => b
      case Instant(_) => true
      case Null => false
  }

  // ---------------------------------------------------------------------
  // parseFloat
  // ---------------------------------------------------------------------

  predicate IsDigit(c: char) {
    '0' <= c <= '9'
  }

  predicate IsSpace(c: char) {
    c == ' ' || c == '\t' || c == '\n' || c == '\r'
  }

  function DigitOf(c: char): (d: nat)
    requires IsDigit(c)
    ensures d < 10
  {
    c as int - '0' as int
  }

  predicate AllDigits(s: string) {
    forall i :: 0 <= i < |s| ==> IsDigit(s[i])
  }

  /** Length of the longest prefix of `s` made of decimal digits. */
  function DigitRun(s: string): (n: nat)
    ensures n <= |s|
    ensures AllDigits(s[..n])
    ensures n < |s| ==> !IsDigit(s[n])
    ensures AllDigits(s) ==> n == |s|
  {
    if s == [] || !IsDigit(s[0]) then 0 else 1 + DigitRun(s[1..])
  }

  /** The number a string of decimal digits denotes. */
  function Natural(s: string): nat
    requires AllDigits(s)
  {
    if s == [] then 0 else 10 * Natural(s[..|s| - 1]) + DigitOf(s[|s| - 1])
  }

  function Pow10(k: nat): (p: nat)
    ensures p >= 1
  {
    if k == 0 then 1 else 10 * Pow10(k - 1)
  }

  /** Longest prefix of the form `digits [. digits]` with at least one digit. */
  function ParseUnsigned(s: string): Option<real> {
    var i := DigitRun(s);
    var whole := Natural(s[..i]) as real;
    if i < |s| && s[i] == '.' then
      var rest := s[i + 1..];
      var k := DigitRun(rest);
      if i == 0 && k == 0 then None
      else Some(whole + Natural(rest[..k]) as real / Pow10(k) as real)
    else if i == 0 then None
    else Some(whole)
  }

  function ParseSigned(s: string): Option<real> {
    if |s| > 0 && s[0] == '-' then
      match ParseUnsigned(s[1..])
      case Some(x) => Some(-x)
      case None => None
    else if |s| > 0 && s[0] == '+' then ParseUnsigned(s[1..])
    else ParseUnsigned(s)
  }

  function TrimStart(s: string): string {
    if |s| > 0 && IsSpace(s[0]) then TrimStart(s[1..]) else s
  }

  /** `parseFloat(x)`, with `None` for `NaN`. Numbers parse to themselves; text is read
      by its longest decimal prefix after leading white space; `undefined`, `null`,
      booleans and dates print to non-numeric text and so give `NaN`. */
  function ParseFloat(c: Option<Value>): Option<real> {
    match c
    case Some(Number(n)) => Some(n)
    case Some(Text(s)) => ParseSigned(TrimStart(s))
    case _ => None
  }

  /** `parseFloat(x) || 0`: `NaN` (and zero) become 0. A missing field, `null`, a
      boolean, a date and empty text all count as 0; a number counts as itself. */
  function NumberOrZero(c: Option<Value>): (x: real)
    ensures c.None? || c == Some(Null) || c == Some(Text("")) ==> x == 0.0
    ensures c.Some? && (c.value.Boolean? || c.value.Instant?) ==> x == 0.0
    ensures c.Some? && c.value.Number? ==> x == c.value.n
    ensures ParseFloat(c).None? ==> x == 0.0
    ensures ParseFloat(c).Some? ==> x == ParseFloat(c).value
  {
    match ParseFloat(c)
    case Some(x) => x
    case None => 0.0
  }

  /** The decimal text of a natural number, as `String(n)` prints it. */
  function DecimalText(n: nat): (s: string)
    ensures |s| > 0 && AllDigits(s)
  {
    if n < 10 then [('0' as int + n) as char]
    else DecimalText(n / 10) + [('0' as int + n % 10) as char]
  }

  lemma {:induction false} NaturalOfDecimalText(n: nat)
    ensures Natural(DecimalText(n)) == n
  {
    if n >= 10 {
      var s := DecimalText(n);
      assert s[..|s| - 1] == DecimalText(n / 10);
      NaturalOfDecimalText(n / 10);
    }
  }

  /** parseFloat reads back the decimal text of every natural number. */
  lemma ParseFloatOfDecimalText(n: nat)
    ensures ParseFloat(Some(Text(DecimalText(n)))) == Some(n as real)
  {
    var s := DecimalText(n);
    assert TrimStart(s) == s;
    assert s[..|s|] == s;
    NaturalOfDecimalText(n);
  }

  /** A cell holding the decimal text of a whole number, with or without a minus sign,
      counts as that number. */
  lemma NumberOrZeroOfDecimalText(n: nat)
    ensures NumberOrZero(Some(Text(DecimalText(n)))) == n as real
    ensures NumberOrZero(Some(Text("-" + DecimalText(n)))) == -(n as real)
  {
    ParseFloatOfDecimalText(n);
    var s := "-" + DecimalText(n);
    assert TrimStart(s) == s;
    assert s[1..] == DecimalText(n);
    assert TrimStart(DecimalText(n)) == DecimalText(n);
  }
}
