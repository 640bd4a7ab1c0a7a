/** The JavaScript values that flow through the dashboard's records, and the
    handful of JavaScript operations the views apply to them: `String(v)`,
    truthiness, `v || d`, `v ?? d`, object spread and the JSON round trip that
    local storage imposes. Numbers are integers here. */
module JsValues {
  import opened Wrappers
  import opened Text

  datatype Value = Undefined | Null | Bool(b: bool) | Num(n: int) | Str(s: string)

  /** A JSON object as the backend returns it. An absent key reads as `undefined`. */
  type Record = map<string, Value>

  function Get(r: Record, key: string): Value
  {
    if key in r then r[key] else Undefined
  }

  /** JavaScript truthiness: the five falsy values this model can represent. */
  predicate Falsy(v: Value)
  {
    v == Undefined || v == Null || v == Bool(false) || v == Num(0) || v == Str("")
  }

  predicate Nullish(v: Value)
  {
    v == Undefined || v == Null
  }

  /** `v || fallback` */
  function Or(v: Value, fallback: Value): (r: Value)
    ensures Falsy(v) ==> r == fallback
    ensures !Falsy(v) ==> r == v
  {
    if Falsy(v) then fallback else v
  }

  /** `v ?? fallback`: unlike `||`, it keeps `""`, `0` and `false`. */
  function Coalesce(v: Value, fallback: Value): (r: Value)
    ensures Nullish(v) ==> r == fallback
    ensures !Nullish(v) ==> r == v
    ensures r == Str("") <==> v == Str("") || (Nullish(v) && fallback == Str(""))
    ensures Falsy(v) && !Nullish(v) ==> r == v && (r != Or(v, fallback) <==> v != fallback)
  {
    if Nullish(v) then fallback else v
  }

  function DigitChar(d: nat): (c: char)
    requires d < 10
  {
    ('0' as int + d) as char
  }

  /** The decimal numeral JavaScript prints for a non-negative integer. */
  function NatToDecimal(n: nat): (s: string)
    ensures |s| >= 1
    ensures forall i :: 0 <= i < |s| ==> IsDecimalDigit(s[i])
    ensures s[0] == '0' <==> n == 0
    decreases n
  {
    if n < 10 then [DigitChar(n)] else NatToDecimal(n / 10) + [DigitChar(n % 10)]
  }

  /** The value of a string of decimal digits, read left to right. */
  function DecimalValue(s: string): int
  {
    if s == [] then 0
    else DecimalValue(s[..|s| - 1]) * 10 + (s[|s| - 1] as int - '0' as int)
  }

  /** Reading back the numeral of `n` gives `n`: one numeral per number. */
  lemma {:induction false} DecimalRoundTrip(n: nat)
    ensures DecimalValue(NatToDecimal(n)) == n
    decreases n
  {
    var s := NatToDecimal(n);
    if n < 10 {
      assert s == [DigitChar(n)];
    } else {
      DecimalRoundTrip(n / 10);
      var p := NatToDecimal(n / 10);
      assert s == p + [DigitChar(n % 10)];
      assert s[..|s| - 1] == p;
    }
  }

  function IntToDecimal(n: int): (s: string)
    ensures |s| >= 1
    ensures n < 0 <==> s[0] == '-'
  {
    if n < 0 then "-" + NatToDecimal(-n) else NatToDecimal(n)
  }

  /** `String(v)` */
  function ToStr(v: Value): string
  {
    match v
    case Undefined => "undefined"
    case Null => "null"
    case Bool(b) => if b then "true" else "false"
    case Num(n) => IntToDecimal(n)
    case Str(s) => s
  }

  /** Two numbers print to the same string only if they are equal, so the
      views' comparison `String(record.id) === String(routeId)` identifies a
      numeric id exactly. */
  lemma NumbersPrintApart(m: int, n: int)
    requires ToStr(Num(m)) == ToStr(Num(n))
    ensures m == n
  {
    var s := IntToDecimal(m);
    assert s == IntToDecimal(n);
    if m < 0 {
      assert NatToDecimal(-m) == s[1..] == NatToDecimal(-n);
      NumeralsApart(-m, -n);
    } else {
      NumeralsApart(m, n);
    }
  }

  lemma NumeralsApart(a: nat, b: nat)
    requires NatToDecimal(a) == NatToDecimal(b)
    ensures a == b
  {
    DecimalRoundTrip(a);
    DecimalRoundTrip(b);
  }

  /** `{...base, ...draft}` where `base` may be `null`: every key of `draft`
      overrides, every other key keeps the value it had in `base`. */
  function Spread(base: Option<Record>, draft: Record): (r: Record)
    ensures r.Keys == draft.Keys + (if base.Some? then base.value.Keys else {})
    ensures forall k :: k in draft ==> Get(r, k) == draft[k]
    ensures forall k :: k !in draft ==> Get(r, k) == (if base.Some? then Get(base.value, k) else Undefined)
  {
    (if base.Some? then base.value else map[]) + draft
  }

  /** No property holds `undefined`: what `JSON.parse` can give back. */
  predicate JsonClean(r: Record)
  {
    forall k :: k in r ==> r[k] != Undefined
  }

  /** `JSON.parse(JSON.stringify(r))`: properties holding `undefined` are
      dropped, and nothing else changes as seen through `Get`. */
  function JsonCopy(r: Record): (c: Record)
    ensures JsonClean(c)
    ensures forall k :: Get(c, k) == Get(r, k)
    ensures c.Keys <= r.Keys
    ensures JsonClean(r) ==> c == r
  {
    map k | k in r && r[k] != Undefined :: r[k]
  }
}
