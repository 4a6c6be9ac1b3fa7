/** The hand-written number formatting of the price-band rejection text. */
module Format {
  import opened Base

  const INT64_MIN := -0x8000_0000_0000_0000
  const INT64_MAX := 0x7FFF_FFFF_FFFF_FFFF

  type Int64 = n: int | INT64_MIN <= n <= INT64_MAX

  const BUFFER := 20

  /** Negation wraps around at the minimum. */
  function Negated(n: Int64): Int64 {
    if n == INT64_MIN then INT64_MIN else -n
  }

  function DigitChar(d: nat): char
    requires d < 10
  {
    ('0' as int + d) as char
  }

  function DigitOf(c: char): nat
    requires '0' <= c <= '9'
  {
    c as int - '0' as int
  }

  lemma DigitReadsBack(d: nat)
    requires d < 10
    ensures '0' <= DigitChar(d) <= '9' && DigitOf(DigitChar(d)) == d
    ensures DigitChar(d) == '0' <==> d == 0
  {
  }

  /** Decimal digits without leading zeros; nothing for zero. */
  function Digits(n: nat): string {
    if n == 0 then "" else Digits(n / 10) + [DigitChar(n % 10)]
  }

  function Decimal(n: int): string {
    if n == 0 then "0" else if n > 0 then Digits(n) else "-" + Digits(-n)
  }

  // --- Reading back ---

  predicate AllDigits(s: string) {
    forall i :: 0 <= i < |s| ==> '0' <= s[i] <= '9'
  }

  function Value(s: string): nat
    requires AllDigits(s)
  {
    if s == "" then 0 else 10 * Value(s[..|s| - 1]) + DigitOf(s[|s| - 1])
  }

  /** The number that a decimal numeral denotes: an optional sign and at least one digit. */
  function Parse(s: string): Option<int> {
    if s != "" && AllDigits(s) then Some(Value(s))
    else if |s| > 1 && s[0] == '-' && AllDigits(s[1..]) then Some(0 - Value(s[1..]))
    else None
  }

  lemma ValueAppend(s: string, d: nat)
    requires AllDigits(s) && d < 10
    ensures AllDigits(s + [DigitChar(d)]) && Value(s + [DigitChar(d)]) == 10 * Value(s) + d
  {
    DigitReadsBack(d);
    assert (s + [DigitChar(d)])[..|s|] == s;
  }

  lemma LeadingDigit(s: string, d: nat)
    requires d < 10
    ensures s != "" ==> (s + [DigitChar(d)])[0] == s[0]
    ensures s == "" && d > 0 ==> (s + [DigitChar(d)])[0] != '0'
  {
    DigitReadsBack(d);
  }

  lemma {:induction false} DigitsReadBack(n: nat)
    ensures AllDigits(Digits(n)) && Value(Digits(n)) == n
    ensures n > 0 ==> Digits(n) != "" && Digits(n)[0] != '0'
  {
    hide DigitChar, DigitOf, AllDigits, Value;
    if n == 0 {
      EmptyReadsBack();
    } else {
      DigitsReadBack(n / 10);
      ValueAppend(Digits(n / 10), n % 10);
      LeadingDigit(Digits(n / 10), n % 10);
    }
  }

  lemma EmptyReadsBack()
    ensures AllDigits("") && Value("") == 0
  {
  }

  lemma SignReadsBack(s: string)
    requires AllDigits(s) && s != ""
    ensures Parse(s) == Some(Value(s)) && Parse("-" + s) == Some(0 - Value(s))
  {
    var signed := "-" + s;
    assert signed[0] == '-' && signed[1..] == s;
  }

  /** Decimal rendering loses nothing. */
  lemma DecimalReadsBack(n: int)
    ensures Parse(Decimal(n)) == Some(n)
  {
    hide Digits, Parse, Value, AllDigits;
    DigitsReadBack(if n < 0 then -n else n);
    if n == 0 {
      ZeroReadsBack();
    } else {
      SignReadsBack(Digits(if n < 0 then -n else n));
    }
  }

  lemma ZeroReadsBack()
    ensures Parse("0") == Some(0)
  {
    assert Value("") == 0;
  }

  function Power(k: nat): nat {
    if k == 0 then 1 else 10 * Power(k - 1)
  }

  lemma {:induction false} PowerPositive(k: nat)
    ensures Power(k) >= 1
  {
    if k > 0 {
      PowerPositive(k - 1);
    }
  }

  lemma NineteenDigits()
    ensures Power(19) == 10_000_000_000_000_000_000
  {
    assert Power(10) == 10_000_000_000;
  }

  /** Taking off the last digit. */
  lemma LastDigit(m: nat, k: nat)
    requires 0 < m < Power(k)
    ensures k > 0 && m / 10 < Power(k - 1)
    ensures Digits(m) == Digits(m / 10) + [DigitChar(m % 10)]
  {
    PowerPositive(k);
  }

  /** The magnitude as the conversion sees it: the least integer stays negative. */
  function Magnitude(n: Int64): Int64 {
    if n < 0 then Negated(n) else n
  }

  function DigitsFrom(m: int): string {
    if m > 0 then Digits(m) else ""
  }

  /** The buffer is exactly large enough: nineteen digits and a sign. */
  method Itoa(n: Int64) returns (s: string)
    ensures s == if n == INT64_MIN then "-" else Decimal(n)
    ensures |s| <= BUFFER
  {
    hide Digits, Power, DigitChar;
    if n == 0 {
      return "0";
    }
    var neg := n < 0;
    var m: Int64 := if neg then Negated(n) else n;
    var buf := new char[BUFFER];
    var i := buf.Length;
    NineteenDigits();
    while m > 0
      invariant 1 <= i <= BUFFER
      invariant m < Power(i - 1)
      invariant DigitsFrom(m) + buf[i..] == DigitsFrom(Magnitude(n))
      invariant m < 0 ==> n == INT64_MIN && i == BUFFER
      decreases m
    {
      LastDigit(m, i - 1);
      NoDigits();
      i := i - 1;
      buf[i] := DigitChar(m % 10);
      m := m / 10;
      assert buf[i..] == [buf[i]] + buf[i + 1..];
    }
    if neg {
      i := i - 1;
      buf[i] := '-';
      assert buf[i..] == ['-'] + buf[i + 1..];
    }
    return buf[i..];
  }

  lemma NoDigits()
    ensures Digits(0) == ""
  {
  }

  /** The rendering is faithful for every 64-bit integer but the least one. */
  lemma ItoaIsFaithfulIff(n: Int64, s: string)
    requires s == if n == INT64_MIN then "-" else Decimal(n)
    ensures Parse(s) == Some(n) <==> n != INT64_MIN
  {
    DecimalReadsBack(n);
  }

  /** What Itoa gives for any 64-bit integer. */
  function Text(n: Int64): string {
    if n == INT64_MIN then "-" else Decimal(n)
  }

  // --- Rounding ---

  /** Conversion to an integer cuts towards zero. */
  function Cut(r: real): int {
    if r >= 0.0 then r.Floor else -((-r).Floor)
  }

  /** A machine's conversion to a 64-bit integer: it cuts whatever fits, and gives some 64-bit
      integer of its own for the rest. */
  ghost predicate Converts(machine: real -> Int64) {
    forall r :: INT64_MIN <= Cut(r) <= INT64_MAX ==> machine(r) == Cut(r)
  }

  /** Addition of one wraps around at the maximum. */
  function Next(n: Int64): Int64 {
    if n == INT64_MAX then INT64_MIN else n + 1
  }

  /** The whole part and the tenths that a percentage is shown with. */
  function Percent(p: real, machine: real -> Int64): (Int64, Int64) {
    var whole := machine(p);
    var tenths := machine((p - whole as real) * 10.0 + 0.5);
    if tenths >= 10 then (Next(whole), 0) else (whole, tenths)
  }

  /** A percentage that is not negative, and whose rounding fits, is shown rounded to the
      nearest tenth, halves up. */
  lemma PercentIsRounded(p: real, machine: real -> Int64)
    requires Converts(machine) && 0.0 <= p < INT64_MAX as real
    ensures var (whole, tenths) := Percent(p, machine);
            0 <= tenths <= 9 && 10 * whole + tenths == (10.0 * p + 0.5).Floor
  {
    var whole := p.Floor;
    assert machine(p) == Cut(p) == whole;
    var r := (p - whole as real) * 10.0 + 0.5;
    assert 0 <= Cut(r) <= 10;
    assert machine(r) == Cut(r);
    assert 10.0 * p + 0.5 == r + (10 * whole) as real;
    assert (10.0 * p + 0.5).Floor == r.Floor + 10 * whole;
  }

  /** For percentages whose whole part fits, the tenths are a single digit exactly when the
      part behind the point is above -0.15, so for every percentage that is not negative;
      below that the text has a second sign. */
  lemma PercentIsWellFormedIff(p: real, machine: real -> Int64)
    requires Converts(machine) && INT64_MIN <= Cut(p) <= INT64_MAX
    ensures 0 <= Percent(p, machine).1 <= 9 <==> p - Cut(p) as real > -0.15
  {
    assert machine(p) == Cut(p);
    var r := (p - Cut(p) as real) * 10.0 + 0.5;
    assert -10 <= Cut(r) <= 10;
    assert machine(r) == Cut(r);
  }

  function Rupees(v: real): int {
    if v < 0.0 then Cut(v - 0.5) else Cut(v + 0.5)
  }

  /** A rupee amount is shown as the nearest integer, halves away from zero. */
  lemma RupeesAreNearest(v: real, n: int)
    ensures n == Rupees(v) <==>
              if v >= 0.0 then n as real - 0.5 <= v < n as real + 0.5 else n as real - 0.5 < v <= n as real + 0.5
    ensures Rupees(-v) == -Rupees(v)
  {
  }

  /** Every amount is rendered; those whose rounding fits show that rounding, and the least
      integer shows as a lone minus sign. */
  method FmtRupees(v: real, machine: real -> Int64) returns (s: string)
    requires Converts(machine)
    ensures INT64_MIN < Rupees(v) <= INT64_MAX ==> s == "Rs " + Decimal(Rupees(v))
    ensures Rupees(v) == INT64_MIN ==> s == "Rs -"
    ensures s == "Rs " + Text(machine(if v < 0.0 then v - 0.5 else v + 0.5))
  {
    var rounded := machine(v + 0.5);
    if v < 0.0 {
      rounded := machine(v - 0.5);
    }
    var digits := Itoa(rounded);
    s := "Rs " + digits;
  }

  function PercentText(whole: Int64, tenths: Int64): string {
    Text(whole) + "." + Text(tenths) + "%"
  }

  lemma RoundedText(p: real, machine: real -> Int64)
    requires Converts(machine) && 0.0 <= p < INT64_MAX as real
    ensures var tenths := (10.0 * p + 0.5).Floor;
            PercentText(Percent(p, machine).0, Percent(p, machine).1) ==
              Decimal(tenths / 10) + "." + Decimal(tenths % 10) + "%"
  {
    hide Decimal, Converts;
    PercentIsRounded(p, machine);
    hide Percent;
    var n, shown := (10.0 * p + 0.5).Floor, Percent(p, machine);
    assert n / 10 == shown.0 && n % 10 == shown.1;
  }

  method FmtPct(p: real, machine: real -> Int64) returns (s: string)
    requires Converts(machine)
    ensures s == PercentText(Percent(p, machine).0, Percent(p, machine).1)
    ensures 0.0 <= p < INT64_MAX as real ==>
              s == Decimal((10.0 * p + 0.5).Floor / 10) + "." + Decimal((10.0 * p + 0.5).Floor % 10) + "%"
  {
    hide Decimal, Converts;
    var whole := machine(p);
    var frac := machine((p - whole as real) * 10.0 + 0.5);
    if frac >= 10 {
      whole := if whole == INT64_MAX then INT64_MIN else whole + 1;
      frac := 0;
    }
    assert (whole, frac) == Percent(p, machine);
    var w := Itoa(whole);
    var f := Itoa(frac);
    s := w + "." + f + "%";
    hide Percent;
    if 0.0 <= p < INT64_MAX as real {
      RoundedText(p, machine);
    }
  }
}
