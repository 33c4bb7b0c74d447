/** The few pieces of the Java platform and of commons-lang that the core relies on:
    nullable strings, HashMap lookups that may yield null, StringUtils.isEmpty,
    String.indexOf, Integer.parseInt and String.valueOf(int), and the exceptions
    that the core throws or catches. */
module Java {

  datatype Option<+T> = None | Some(value: T)

  /** A Java String reference: None stands for null. */
  type Value = Option<string>

  /** A java.util.Map<String, String> as a HashMap holds it: a key may be present with a null value. */
  type JMap = map<string, Value>

  datatype Exception =
    | NullPointerException
    | NumberFormatException
    | ClassCastException
    | IllegalArgumentException(message: string)

  /** An exception a `catch (IllegalArgumentException e)` clause catches: NumberFormatException
      is one of its subclasses. */
  predicate IsIllegalArgument(e: Exception) {
    e.IllegalArgumentException? || e.NumberFormatException?
  }

  /** The outcome of a Java expression: a value, or an exception thrown. */
  datatype Result<+T> = Return(value: T) | Throw(e: Exception)

  /** The outcome of a void Java method: normal completion, or an exception thrown. */
  datatype Completion = Normal | Abrupt(e: Exception)

  /** Map.get: null when the key is absent or bound to null. */
  function Get(m: JMap, key: string): (r: Value)
    ensures r.Some? <==> key in m && m[key].Some?
    ensures r.Some? ==> m[key] == r
  {
    if key in m then m[key] else None
  }

  /** StringUtils.isEmpty: null or the empty string. */
  predicate IsEmpty(s: Value) {
    s.None? || |s.value| == 0
  }

  predicate IsNotEmpty(s: Value) {
    !IsEmpty(s)
  }

  // ---------------------------------------------------------------------
  // String.indexOf
  // ---------------------------------------------------------------------

  predicate OccursAt(s: string, pat: string, i: nat) {
    i + |pat| <= |s| && s[i..i + |pat|] == pat
  }

  /** The first index at or after `from` where `pat` occurs in `s`. */
  function IndexFrom(s: string, pat: string, from: nat): (r: Option<nat>)
    requires from <= |s|
    decreases |s| - from
    ensures r.Some? ==> from <= r.value && OccursAt(s, pat, r.value)
    ensures r.Some? ==> forall j :: from <= j < r.value ==> !OccursAt(s, pat, j)
    ensures r.None? ==> forall j :: from <= j <= |s| ==> !OccursAt(s, pat, j)
  {
    if OccursAt(s, pat, from) then Some(from)
    else if from == |s| then None
    else IndexFrom(s, pat, from + 1)
  }

  /** String.indexOf(pat): None where Java answers -1. */
  function IndexOf(s: string, pat: string): (r: Option<nat>)
    ensures r.Some? ==> OccursAt(s, pat, r.value)
    ensures r.Some? ==> forall j :: 0 <= j < r.value ==> !OccursAt(s, pat, j)
    ensures r.None? ==> forall j :: 0 <= j <= |s| ==> !OccursAt(s, pat, j)
  {
    IndexFrom(s, pat, 0)
  }

  /** The first occurrence is the only index that occurs with nothing earlier. */
  lemma IndexOfIsFirst(s: string, pat: string, i: nat)
    requires OccursAt(s, pat, i)
    requires forall j :: 0 <= j < i ==> !OccursAt(s, pat, j)
    ensures IndexOf(s, pat) == Some(i)
  {
  }

  // ---------------------------------------------------------------------
  // int, Integer.parseInt and String.valueOf(int)
  // ---------------------------------------------------------------------

  const INT_MIN: int := -0x8000_0000
  const INT_MAX: int := 0x7fff_ffff

  predicate IsInt32(n: int) {
    INT_MIN <= n <= INT_MAX
  }

  predicate IsDigit(c: char) {
    '0' <= c <= '9'
  }

  predicate AllDigits(s: string) {
    forall i :: 0 <= i < |s| ==> IsDigit(s[i])
  }

  function DigitValue(c: char): (d: nat)
    requires IsDigit(c)
    ensures d < 10
  {
    c as int - '0' as int
  }

  function DigitChar(d: nat): (c: char)
    requires d < 10
    ensures IsDigit(c) && DigitValue(c) == d
  {
    ('0' as int + d) as char
  }

  /** The value of a run of decimal digits, most significant first; 0 for the empty run. */
  function DigitsValue(s: string): nat
    requires AllDigits(s)
  {
    if |s| == 0 then 0 else DigitsValue(s[..|s| - 1]) * 10 + DigitValue(s[|s| - 1])
  }

  /** Integer.parseInt(s) with radix 10: an optional sign, at least one digit,
      and a value that fits in an int; anything else throws NumberFormatException,
      modelled as None. */
  function ParseInt(s: string): (r: Option<int>)
    ensures r.Some? ==> IsInt32(r.value)
    ensures r.Some? ==> |s| > 0
  {
    if |s| == 0 then None
    else
      var signed := s[0] == '-' || s[0] == '+';
      var digits := if signed then s[1..] else s;
      if |digits| == 0 || !AllDigits(digits) then None
      else
        var n: int := if s[0] == '-' then -(DigitsValue(digits) as int) else DigitsValue(digits);
        if IsInt32(n) then Some(n) else None
  }

  /** The decimal digits of a natural number, without leading zeros. */
  function NatToString(n: nat): (s: string)
    ensures |s| > 0 && AllDigits(s)
  {
    if n < 10 then [DigitChar(n)] else NatToString(n / 10) + [DigitChar(n % 10)]
  }

  /** String.valueOf(int). */
  function IntToString(n: int): string {
    if n < 0 then "-" + NatToString(-n) else NatToString(n)
  }

  lemma {:induction false} DigitsValueOfNatToString(n: nat)
    ensures DigitsValue(NatToString(n)) == n
  {
    var s := NatToString(n);
    if n >= 10 {
      DigitsValueOfNatToString(n / 10);
      assert s[..|s| - 1] == NatToString(n / 10);
    }
  }

  /** Integer.parseInt reads back every int that String.valueOf writes. */
  lemma ParseIntOfIntToString(n: int)
    requires IsInt32(n)
    ensures ParseInt(IntToString(n)) == Some(n)
  {
    if n < 0 {
      DigitsValueOfNatToString(-n);
      assert ("-" + NatToString(-n))[1..] == NatToString(-n);
    } else {
      DigitsValueOfNatToString(n);
    }
  }

  /** Narrowing to int, as Float.intValue saturates at the ends of the int range. */
  function SaturateToInt32(n: int): (r: int)
    ensures IsInt32(r)
    ensures IsInt32(n) ==> r == n
    ensures n < INT_MIN ==> r == INT_MIN
    ensures n > INT_MAX ==> r == INT_MAX
  {
    if n < INT_MIN then INT_MIN else if n > INT_MAX then INT_MAX else n
  }
}
