/** Python values as the workflow stores them in the session state, and the text
    Python's `str` (and so an f-string) gives for them. */
module Values {

  datatype Option<+T> = None | Some(value: T)

  /** A value of the preferences dictionary: a radio choice or free text, the
      calorie slider's integer, or the "Hungry?" checkbox. */
  datatype PrefValue = Text(s: string) | Number(n: int) | Flag(b: bool)

  /** One `key: value` pair of a Python dict; a dict is its pairs in insertion order. */
  type Entry = (string, PrefValue)

  /** A value held under one key of the session state: a `str`, a dict, or `None`. */
  datatype Value = Str(s: string) | Dict(entries: seq<Entry>) | NoneValue

  /** Python truthiness: the empty string, the empty dict and `None` are false. */
  predicate Truthy(v: Value)
  {
    match v
    case Str(s) => s != ""
    case Dict(entries) => entries != []
    case NoneValue => false
  }

  /** No key occurs twice among a dict's pairs. */
  predicate DistinctKeys(entries: seq<Entry>)
  {
    forall i, j :: 0 <= i < j < |entries| ==> entries[i].0 != entries[j].0
  }

  predicate IsDigit(c: char)
  {
    '0' <= c <= '9'
  }

  predicate AllDigits(s: string)
  {
    forall i :: 0 <= i < |s| ==> IsDigit(s[i])
  }

  function Digit(d: nat): (c: char)
    requires d < 10
    ensures IsDigit(c) && c as int - '0' as int == d
  {
    ('0' as int + d) as char
  }

  /** Decimal notation of a natural number, most significant digit first, with no
      leading zero. */
  function NatToDecimal(n: nat): (r: string)
    ensures |r| >= 1 && AllDigits(r)
    ensures r[0] == '0' <==> n == 0
    decreases n
  {
    if n < 10 then [Digit(n)] else NatToDecimal(n / 10) + [Digit(n % 10)]
  }

  /** The number a string of decimal digits denotes. */
  function DecimalValue(s: string): nat
    requires AllDigits(s)
    decreases |s|
  {
    if s == [] then 0 else DecimalValue(s[..|s| - 1]) * 10 + (s[|s| - 1] as int - '0' as int)
  }

  /** Reading back the decimal notation gives the number again. */
  lemma {:induction false} DecimalRoundTrip(n: nat)
    ensures DecimalValue(NatToDecimal(n)) == n
  {
    if n >= 10 {
      DecimalRoundTrip(n / 10);
      var r := NatToDecimal(n);
      assert r[..|r| - 1] == NatToDecimal(n / 10);
    }
  }

  /** `str(n)` for a Python `int`: a minus sign before the digits of a negative number. */
  function IntToDecimal(n: int): (r: string)
    ensures |r| >= 1
    ensures r[0] == '-' <==> n < 0
    ensures n >= 0 ==> AllDigits(r)
  {
    if n < 0 then "-" + NatToDecimal(-n) else NatToDecimal(n)
  }

  /** Different integers print differently. */
  lemma IntToDecimalInjective(a: int, b: int)
    requires IntToDecimal(a) == IntToDecimal(b)
    ensures a == b
  {
    if a < 0 {
      assert NatToDecimal(-a) == IntToDecimal(a)[1..] == IntToDecimal(b)[1..] == NatToDecimal(-b);
      DecimalRoundTrip(-a);
      DecimalRoundTrip(-b);
    } else {
      DecimalRoundTrip(a);
      DecimalRoundTrip(b);
    }
  }

  /** `str(v)` for a preference value: a string is itself, an `int` its decimal
      notation, a `bool` is `True` or `False`. */
  function Show(v: PrefValue): (r: string)
    ensures v.Text? ==> r == v.s
    ensures v.Number? ==> |r| >= 1 && (r[0] == '-' <==> v.n < 0)
    ensures v.Number? && v.n >= 0 ==> AllDigits(r) && DecimalValue(r) == v.n
    ensures v.Number? && v.n < 0 ==> AllDigits(r[1..]) && DecimalValue(r[1..]) == -v.n
    ensures v.Flag? ==> (r == "True" <==> v.b) && (r == "False" <==> !v.b)
  {
    match v
    case Text(s) => s
    case Number(n) =>
      if n >= 0 then DecimalRoundTrip(n); IntToDecimal(n)
      else DecimalRoundTrip(-n); assert IntToDecimal(n)[1..] == NatToDecimal(-n); IntToDecimal(n)
    case Flag(b) => if b then "True" else "False"
  }
}
