/**
 * `float(p.get("price", budget + 1))` inside the filter's inner `try`: the
 * coercion of a candidate's price, where any exception yields `budget + 1`.
 */
module Price {
  import opened Common
  import opened PyText
  import opened JsonModel

  /** The value of a string of decimal digits. */
  function DigitsValue(ds: string): (n: nat)
    requires forall i :: 0 <= i < |ds| ==> IsDigit(ds[i])
  {
    if ds == [] then 0
    else
      assert IsDigit(ds[|ds| - 1]);
      DigitsValue(ds[..|ds| - 1]) * 10 + (ds[|ds| - 1] as int - '0' as int)
  }

  function Pow10(k: nat): (p: nat)
    ensures p >= 1
  {
    if k == 0 then 1 else 10 * Pow10(k - 1)
  }

  predicate AllDigits(s: string) {
    forall i :: 0 <= i < |s| ==> IsDigit(s[i])
  }

  /** Digits with at most one decimal point and at least one digit: `12`, `12.5`, `.5`, `12.`. */
  function ParseUnsigned(s: string): Option<real> {
    match FirstIndex(s, '.')
    case None =>
      if s != [] && AllDigits(s) then Some(DigitsValue(s) as real) else None
    case Some(k) =>
      var whole, frac := s[..k], s[k + 1..];
      if AllDigits(whole) && AllDigits(frac) && |whole| + |frac| > 0 then
        Some(DigitsValue(whole) as real + DigitsValue(frac) as real / Pow10(|frac|) as real)
      else None
  }

  /** `float(s)` for a string: surrounding whitespace, an optional sign, then a decimal number. */
  function ParseFloat(s: string): (r: Option<real>)
    ensures AllSpace(s) ==> r.None?
  {
    StripEmptyIff(s);
    var t := Strip(s);
    if t != [] && (t[0] == '-' || t[0] == '+') then
      match ParseUnsigned(t[1..])
      case None => None
      case Some(x) => Some(if t[0] == '-' then -x else x)
    else ParseUnsigned(t)
  }

  /** `float(v)`: None where Python raises (`None`, lists, dicts, text that is not a number). */
  function FloatOf(v: Json): (r: Option<real>)
    ensures r.Some? ==> v.JInt? || v.JFloat? || v.JBool? || v.JString?
    ensures v.JInt? || v.JFloat? || v.JBool? ==> r.Some?
  {
    match v
    case JInt(i) => Some(i as real)
    case JFloat(f) => Some(f)
    case JBool(b) => Some(if b then 1.0 else 0.0)
    case JString(s) => ParseFloat(s)
    case _ => None
  }

  /**
   * The price the filter compares with the budget. A candidate that is not a
   * dict, has no price, or has one `float` rejects gets `budget + 1`.
   */
  function CoercePrice(p: Json, budget: int): (r: real)
    ensures r <= budget as real ==>
      p.JObject? && Get(p.fields, "price").Some? && FloatOf(Get(p.fields, "price").value) == Some(r)
    ensures p.JObject? && Get(p.fields, "price").Some? && FloatOf(Get(p.fields, "price").value).Some?
            ==> r == FloatOf(Get(p.fields, "price").value).value
    ensures !(p.JObject? && Get(p.fields, "price").Some? && FloatOf(Get(p.fields, "price").value).Some?)
            ==> r == (budget + 1) as real
  {
    var fallback := (budget + 1) as real;
    match p
    case JObject(fields) =>
      (match Get(fields, "price")
       case None => fallback
       case Some(v) => FloatOf(v).GetOr(fallback))
    case _ => fallback
  }

  lemma {:induction false} DigitsValueOfNat(n: nat)
    ensures DigitsValue(NatDigits(n)) == n
  {
    var ds := NatDigits(n);
    if n >= 10 {
      DigitsValueOfNat(n / 10);
      assert ds[..|ds| - 1] == NatDigits(n / 10);
    }
  }

  lemma ParseUnsignedOfDigits(n: nat)
    ensures ParseUnsigned(NatDigits(n)) == Some(n as real)
  {
    var ds := NatDigits(n);
    assert FirstIndex(ds, '.') == None;
    DigitsValueOfNat(n);
  }

  lemma DecimalUnstripped(i: int)
    ensures Strip(IntToDecimal(i)) == IntToDecimal(i)
  {
    var t := IntToDecimal(i);
    assert IsDigit(t[|t| - 1]) && (IsDigit(t[0]) || t[0] == '-');
    StripUnchanged(t);
  }

  /** `float(str(i)) == i`: the decimal text of an integer price coerces back to it. */
  lemma ParseFloatOfDecimal(i: int)
    ensures ParseFloat(IntToDecimal(i)) == Some(i as real)
  {
    DecimalUnstripped(i);
    if i < 0 {
      var t := IntToDecimal(i);
      assert t[0] == '-' && t[1..] == NatDigits(-i);
      ParseUnsignedOfDigits(-i);
    } else {
      assert IsDigit(NatDigits(i)[0]);
      ParseUnsignedOfDigits(i);
    }
  }

  /** A price that is not a number never survives: `{"price": "abc"}` is over any budget. */
  lemma TextPriceRejected(budget: int, fields: Dict)
    requires Get(fields, "price") == Some(JString("abc"))
    ensures CoercePrice(JObject(fields), budget) > budget as real
  {
    var s := "abc";
    StripUnchanged(s);
    assert FirstIndex(s, '.') == None;
    assert !IsDigit(s[0]);
  }
}
