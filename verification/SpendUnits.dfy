/**
  Amounts of money as people type them and as the ledger stores them: decimal
  units with up to six places, and integer micros.
 */
module SpendUnits {
  import opened Prelude

  const MICROS_PER_UNIT := 1000000
  const MAX_LIMIT_MICROS := 1000000000000000

  // ------------------------------------------------------------------ digits

  predicate Digit(c: char) { '0' <= c <= '9' }

  predicate Digits(s: string) { forall i :: 0 <= i < |s| ==> Digit(s[i]) }

  function Value(s: string): (n: nat)
    requires Digits(s)
  {
    if s == "" then 0 else 10 * Value(s[..|s| - 1]) + (s[|s| - 1] as int - '0' as int)
  }

  function Zeros(n: nat): (s: string)
    ensures |s| == n && Digits(s) && forall i :: 0 <= i < n ==> s[i] == '0'
  {
    seq(n, _ => '0')
  }

  function PadStart(s: string, n: nat): string
  {
    if |s| >= n then s else Zeros(n - |s|) + s
  }

  function PadEnd(s: string, n: nat): string
  {
    if |s| >= n then s else s + Zeros(n - |s|)
  }

  /** Length of the leading run of digits. */
  function DigitRun(s: string): (n: nat)
    ensures n <= |s| && Digits(s[..n]) && (n < |s| ==> !Digit(s[n]))
  {
    if s == "" || !Digit(s[0]) then 0
    else
      var n := DigitRun(s[1..]);
      assert s[..n + 1] == [s[0]] + s[1..][..n];
      n + 1
  }

  // --------------------------------------------------------------- converting

  /** What `String.prototype.trim` removes. */
  predicate Blank(c: char)
  {
    var k := c as int;
    || 0x09 <= k <= 0x0D || k == 0x20 || k == 0xA0 || k == 0x1680 || 0x2000 <= k <= 0x200A
    || k == 0x2028 || k == 0x2029 || k == 0x202F || k == 0x205F || k == 0x3000 || k == 0xFEFF
  }

  function Trim(s: string): string
    decreases |s|
  {
    if s == "" then s
    else if Blank(s[0]) then Trim(s[1..])
    else if Blank(s[|s| - 1]) then Trim(s[..|s| - 1])
    else s
  }

  datatype Amount = Amount(whole: string, fraction: string)

  /** The pattern: one to ten digits, then perhaps a separator and one to six more. */
  function Match(s: string): (m: Option<Amount>)
    ensures m.Some? ==> Digits(m.value.whole) && Digits(m.value.fraction) && |m.value.fraction| <= 6
  {
    var n := DigitRun(s);
    if !(1 <= n <= 10) then None
    else if n == |s| then Some(Amount(s[..n], ""))
    else
      var fraction := s[n + 1..];
      if (s[n] == '.' || s[n] == ',') && 1 <= |fraction| <= 6 && Digits(fraction) then Some(Amount(s[..n], fraction)) else None
  }

  /** The micros a typed amount means; None for a text that is refused. */
  function UnitsToMicros(text: string): (r: Option<nat>)
    ensures r.Some? ==> r.value <= MAX_LIMIT_MICROS
  {
    var m := Match(Trim(text));
    if m.None? then None
    else
      var total := Value(m.value.whole) * MICROS_PER_UNIT + Value(PadEnd(m.value.fraction, 6));
      if total > MAX_LIMIT_MICROS then None else Some(total)
  }

  /** All but trailing zeros. */
  function TrimZeros(s: string): (r: string)
    ensures r <= s
  {
    if s == "" || s[|s| - 1] != '0' then s else TrimZeros(s[..|s| - 1])
  }

  /** What the display keeps of six decimals: the first two, and the rest without trailing zeros. */
  function Shorten(fraction: string): string
    requires |fraction| >= 2
  {
    fraction[..2] + TrimZeros(fraction[2..])
  }

  lemma {:induction false} DecimalShape(n: nat)
    ensures Digits(Decimal(n)) && Value(Decimal(n)) == n && |Decimal(n)| >= 1
  {
    if n >= 10 {
      DecimalShape(n / 10);
      var s := Decimal(n);
      assert s[..|s| - 1] == Decimal(n / 10);
    } else {
      assert Decimal(n)[..0] == "";
    }
  }

  function Pow10(k: nat): nat { if k == 0 then 1 else 10 * Pow10(k - 1) }

  lemma {:induction false} DecimalLength(n: nat, k: nat)
    requires k >= 1 && n < Pow10(k)
    ensures |Decimal(n)| <= k
  {
    if n >= 10 {
      assert k > 1;
      DecimalLength(n / 10, k - 1);
    }
  }

  function MicrosToUnits(micros: nat): string
  {
    SixLong(micros);
    Decimal(micros / MICROS_PER_UNIT) + "." + Shorten(PadStart(Decimal(micros % MICROS_PER_UNIT), 6))
  }

  // ------------------------------------------------------------ the round trip

  lemma SixLong(micros: nat)
    ensures |PadStart(Decimal(micros % MICROS_PER_UNIT), 6)| == 6
  {
    assert Pow10(6) == MICROS_PER_UNIT;
    DecimalLength(micros % MICROS_PER_UNIT, 6);
  }

  lemma {:induction false} LeadingZeros(k: nat, s: string)
    requires Digits(s)
    ensures Digits(Zeros(k) + s) && Value(Zeros(k) + s) == Value(s)
  {
    var t := Zeros(k) + s;
    if s != "" {
      LeadingZeros(k, s[..|s| - 1]);
      assert t[..|t| - 1] == Zeros(k) + s[..|s| - 1];
    } else if k > 0 {
      LeadingZeros(k - 1, s);
      assert t[..|t| - 1] == Zeros(k - 1) + s;
    }
  }

  lemma {:induction false} TrimmedAreZeros(s: string)
    ensures forall i :: |TrimZeros(s)| <= i < |s| ==> s[i] == '0'
  {
    if s != "" && s[|s| - 1] == '0' {
      TrimmedAreZeros(s[..|s| - 1]);
    }
  }

  /** Padding brings back the zeros the display dropped. */
  lemma PadRestores(fraction: string)
    requires |fraction| == 6 && Digits(fraction)
    ensures PadEnd(Shorten(fraction), 6) == fraction
    ensures 2 <= |Shorten(fraction)| <= 6 && Digits(Shorten(fraction))
  {
    TrimmedAreZeros(fraction[2..]);
    var short := Shorten(fraction);
    assert short <= fraction;
    assert forall i :: |short| <= i < 6 ==> fraction[i] == fraction[2..][i - 2];
  }

  lemma RunOf(whole: string, rest: string)
    requires Digits(whole) && rest != "" && !Digit(rest[0])
    ensures DigitRun(whole + rest) == |whole|
  {
    var s := whole + rest;
    var n := DigitRun(s);
    assert forall i :: 0 <= i < |whole| ==> s[i] == whole[i];
    assert forall i :: 0 <= i < n ==> s[..n][i] == s[i];
    assert s[|whole|] == rest[0];
  }

  lemma NoBlanks(whole: string, fraction: string)
    requires whole != "" && fraction != "" && Digits(whole) && Digits(fraction)
    ensures var s := whole + "." + fraction; Trim(s) == s
  {
    var s := whole + "." + fraction;
    assert s[0] == whole[0] && s[|s| - 1] == fraction[|fraction| - 1];
  }

  lemma ShownMatches(whole: string, fraction: string)
    requires Digits(whole) && Digits(fraction) && 1 <= |whole| <= 10 && 1 <= |fraction| <= 6
    ensures Match(Trim(whole + "." + fraction)) == Some(Amount(whole, fraction))
  {
    hide DigitRun, Trim;
    var s := whole + "." + fraction;
    NoBlanks(whole, fraction);
    assert s == whole + ("." + fraction);
    RunOf(whole, "." + fraction);
    assert s[..|whole|] == whole && s[|whole|] == '.' && s[|whole| + 1..] == fraction;
  }

  /** Every amount of micros up to the limit survives being shown and typed back. */
  lemma RoundTrip(micros: nat)
    requires micros <= MAX_LIMIT_MICROS
    ensures UnitsToMicros(MicrosToUnits(micros)) == Some(micros)
  {
    hide Match, Trim, Decimal, PadStart, PadEnd, Shorten, Value, Digits;
    var (whole, fraction) := (micros / MICROS_PER_UNIT, micros % MICROS_PER_UNIT);
    DecimalShape(whole);
    SixLong(micros);
    PaddedValue(fraction);
    PadRestores(PadStart(Decimal(fraction), 6));
    assert Pow10(10) == 10000000000;
    DecimalLength(whole, 10);
    ShownMatches(Decimal(whole), Shorten(PadStart(Decimal(fraction), 6)));
  }

  lemma PaddedValue(fraction: nat)
    requires fraction < MICROS_PER_UNIT
    ensures var padded := PadStart(Decimal(fraction), 6); Digits(padded) && Value(padded) == fraction
  {
    DecimalShape(fraction);
    if |Decimal(fraction)| < 6 {
      LeadingZeros(6 - |Decimal(fraction)|, Decimal(fraction));
    }
  }

  /** The canonical form of a typed amount. */
  function Canonical(text: string): Option<string>
  {
    var micros := UnitsToMicros(text);
    if micros.None? then None else Some(MicrosToUnits(micros.value))
  }

  /**
    Every accepted text has a canonical form that means the same, is its own canonical form, and is
    shared by exactly the texts of that value.
   */
  lemma CanonicalForm(text: string, other: string)
    requires UnitsToMicros(text).Some?
    ensures Canonical(text).Some? && UnitsToMicros(Canonical(text).value) == UnitsToMicros(text)
    ensures Canonical(Canonical(text).value) == Canonical(text)
    ensures Canonical(other) == Canonical(text) <==> UnitsToMicros(other) == UnitsToMicros(text)
  {
    hide UnitsToMicros, MicrosToUnits;
    RoundTrip(UnitsToMicros(text).value);
    if UnitsToMicros(other).Some? { RoundTrip(UnitsToMicros(other).value); }
  }
}
