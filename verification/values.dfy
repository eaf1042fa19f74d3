/** Values as the event bus and the REST gateway hand them to the handlers after JSON
    parsing, and Python's `int(...)` coercion on them. */
module Values {

  datatype Option<T> = None | Some(value: T)

  /** A parsed JSON value (floating-point numbers are not modelled). */
  datatype Value =
    | Null
    | Bool(b: bool)
    | Num(n: int)
    | Str(s: string)
    | List(elems: seq<Value>)
    | Obj(fields: map<string, Value>)

  /** A JSON object / Python dict with string keys. */
  type Dict = map<string, Value>

  /** Python's `v == True`: True is the integer 1, so a number or boolean equals True
      exactly when its integer value is 1; no string, list, object or null does. */
  predicate EqualsTrue(v: Value): (r: bool)
    ensures r <==> (v.Num? || v.Bool?) && IntOf(v) == Some(1)
  {
    v == Bool(true) || v == Num(1)
  }

  predicate IsDigit(c: char)
  {
    '0' <= c <= '9'
  }

  predicate AllDigits(s: string)
  {
    forall i :: 0 <= i < |s| ==> IsDigit(s[i])
  }

  /** The natural number a non-empty run of decimal digits denotes. */
  function DigitsValue(s: string): nat
    requires AllDigits(s)
    decreases |s|
  {
    if s == [] then 0
    else 10 * DigitsValue(s[..|s| - 1]) + (s[|s| - 1] as int - '0' as int)
  }

  /** Python's `int(v)` on integers, booleans and ASCII decimal literals with an
      optional sign. `None` stands for the ValueError/TypeError Python raises, and also
      for the strings Python accepts that the model does not: surrounding whitespace,
      digit-group underscores and non-ASCII decimal digits. */
  function IntOf(v: Value): (r: Option<int>)
    ensures v.Num? ==> r == Some(v.n)
    ensures v.Bool? ==> r.Some? && (r.value == 1 <==> v.b) && 0 <= r.value <= 1
    ensures v.Str? ==>
      (r.Some? <==>
         |v.s| > 0 && (AllDigits(v.s) || (|v.s| > 1 && (v.s[0] == '-' || v.s[0] == '+') && AllDigits(v.s[1..]))))
    ensures v.Null? || v.List? || v.Obj? ==> r.None?
  {
    match v
    case Num(n) => Some(n)
    case Bool(b) => Some(if b then 1 else 0)
    case Str(s) =>
      if |s| > 1 && s[0] == '-' && AllDigits(s[1..]) then Some(-(DigitsValue(s[1..]) as int))
      else if |s| > 1 && s[0] == '+' && AllDigits(s[1..]) then Some(DigitsValue(s[1..]))
      else if |s| > 0 && AllDigits(s) then Some(DigitsValue(s))
      else None
    case _ => None
  }

  function DigitChar(d: nat): char
    requires d < 10
  {
    ('0' as int + d) as char
  }

  /** Decimal digits of n, most significant first (Python's `str(n)` for n >= 0). */
  function Digits(n: nat): (s: string)
    ensures |s| > 0 && AllDigits(s)
  {
    if n < 10 then [DigitChar(n)] else Digits(n / 10) + [DigitChar(n % 10)]
  }

  /** Python's `str(n)` on an integer: the form a client sends a number in as text. */
  function Decimal(n: int): string
  {
    if n < 0 then "-" + Digits(-n) else Digits(n)
  }

  lemma {:induction false} DigitsRoundTrip(n: nat)
    ensures DigitsValue(Digits(n)) == n
  {
    if n >= 10 {
      var s := Digits(n);
      assert s[..|s| - 1] == Digits(n / 10);
      DigitsRoundTrip(n / 10);
    }
  }

  /** `int(str(n)) == n`: a timestamp sent as text is coerced back to the same integer. */
  lemma IntOfDecimal(n: int)
    ensures IntOf(Str(Decimal(n))) == Some(n)
  {
    if n < 0 {
      var d := Digits(-n);
      assert ("-" + d)[1..] == d;
      DigitsRoundTrip(-n);
    } else {
      DigitsRoundTrip(n);
    }
  }
}
