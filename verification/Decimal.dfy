/** Unsigned 64-bit numbers in decimal text: printing, exact parsing with the source's
    overflow check, and the scan of a digit run. */
module Decimal {

  const UINT64_MAX := 0xFFFF_FFFF_FFFF_FFFF

  predicate IsDigit(c: char) { '0' <= c <= '9' }

  function DigitOf(c: char): nat
    requires IsDigit(c)
  {
    c as int - '0' as int
  }

  function Digit(d: nat): (c: char)
    requires d < 10
    ensures IsDigit(c) && DigitOf(c) == d
  {
    ('0' as int + d) as char
  }

  predicate AllDigits(s: string) { forall i :: 0 <= i < |s| ==> IsDigit(s[i]) }

  function Print(n: nat): (s: string)
    ensures s != "" && AllDigits(s)
  {
    if n < 10 then [Digit(n)] else Print(n / 10) + [Digit(n % 10)]
  }

  function PrintInt(n: int): (s: string)
    ensures s != "" && (n >= 0 ==> AllDigits(s))
  {
    if n < 0 then "-" + Print(-n) else Print(n)
  }

  /** Only zero prints with a leading zero. */
  lemma {:induction false} PrintFirst(n: nat)
    ensures Print(n)[0] == '0' <==> n == 0
  {
    if n >= 10 {
      PrintFirst(n / 10);
      assert Print(n)[0] == Print(n / 10)[0];
    }
  }

  function Value(s: string): nat
    requires AllDigits(s)
  {
    if s == "" then 0 else Value(s[..|s| - 1]) * 10 + DigitOf(s[|s| - 1])
  }

  lemma {:induction false} ValueOfPrint(n: nat)
    ensures Value(Print(n)) == n
  {
    if n >= 10 {
      ValueOfPrint(n / 10);
      assert Print(n)[..|Print(n)| - 1] == Print(n / 10);
    }
  }

  function Pow10(k: nat): nat { if k == 0 then 1 else 10 * Pow10(k - 1) }

  /** A number below 10^k prints in at most k digits. */
  lemma {:induction false} PrintLength(n: nat, k: nat)
    requires k > 0 && n < Pow10(k)
    ensures |Print(n)| <= k
  {
    if n >= 10 {
      PrintLength(n / 10, k - 1);
    }
  }

  lemma PrintUint64Length(n: nat)
    requires n <= UINT64_MAX
    ensures |Print(n)| <= 20
  {
    assert Pow10(5) == 10 * Pow10(4) && Pow10(4) == 10 * Pow10(3) && Pow10(3) == 10 * Pow10(2) && Pow10(2) == 10 * Pow10(1);
    assert Pow10(5) == 100000;
    assert Pow10(10) == 10 * Pow10(9) && Pow10(9) == 10 * Pow10(8) && Pow10(8) == 10 * Pow10(7) && Pow10(7) == 10 * Pow10(6);
    assert Pow10(15) == 10 * Pow10(14) && Pow10(14) == 10 * Pow10(13) && Pow10(13) == 10 * Pow10(12) && Pow10(12) == 10 * Pow10(11);
    assert Pow10(20) == 10 * Pow10(19) && Pow10(19) == 10 * Pow10(18) && Pow10(18) == 10 * Pow10(17) && Pow10(17) == 10 * Pow10(16);
    PrintLength(n, 20);
  }

  /** Where the digit run starting at `pos` ends. */
  function DigitsEnd(t: string, pos: nat): (e: nat)
    requires pos <= |t|
    ensures pos <= e <= |t| && AllDigits(t[pos..e])
    ensures e < |t| ==> !IsDigit(t[e])
    ensures pos < |t| && IsDigit(t[pos]) ==> pos < e
    decreases |t| - pos
  {
    if pos < |t| && IsDigit(t[pos]) then
      var e := DigitsEnd(t, pos + 1);
      assert t[pos..e] == [t[pos]] + t[pos + 1..e];
      e
    else pos
  }

  datatype Number = NotNumber | Number(value: nat, end: nat)

  /** The number a text shows at a position: the whole digit run, if it fits 64 bits. */
  function Uint64At(t: string, pos: nat): Number
    requires pos <= |t|
  {
    var e := DigitsEnd(t, pos);
    if e == pos || Value(t[pos..e]) > UINT64_MAX then NotNumber else Number(Value(t[pos..e]), e)
  }

  lemma {:induction false} DigitsEndStep(t: string, pos: nat, k: nat)
    requires pos <= |t| && pos <= k <= DigitsEnd(t, pos)
    ensures DigitsEnd(t, k) == DigitsEnd(t, pos)
    decreases k - pos
  {
    if pos < k {
      DigitsEndStep(t, pos + 1, k);
    }
  }

  /** Appending digits never makes a number smaller. */
  lemma {:induction false} ValueGrows(t: string, pos: nat, k: nat, e: nat)
    requires pos <= k <= e <= |t| && AllDigits(t[pos..e])
    ensures AllDigits(t[pos..k]) && Value(t[pos..k]) <= Value(t[pos..e])
    decreases e - k
  {
    assert t[pos..k] == t[pos..e][..k - pos];
    if k < e {
      assert t[pos..e - 1] == t[pos..e][..e - 1 - pos];
      ValueGrows(t, pos, k, e - 1);
    }
  }

  lemma ValueStep(t: string, pos: nat, k: nat)
    requires pos <= k < |t| && AllDigits(t[pos..k]) && IsDigit(t[k])
    ensures AllDigits(t[pos..k + 1]) && Value(t[pos..k + 1]) == Value(t[pos..k]) * 10 + DigitOf(t[k])
  {
    assert t[pos..k + 1] == t[pos..k] + [t[k]];
    assert (t[pos..k] + [t[k]])[..k - pos] == t[pos..k];
  }

  /** The source's loop: it gives up exactly when the run's value leaves 64 bits. */
  method ParseUint64(t: string, start: nat) returns (r: Number)
    requires start <= |t|
    ensures r == Uint64At(t, start)
  {
    if start >= |t| || !IsDigit(t[start]) { return NotNumber; }
    var pos, result := start, 0;
    ghost var e := DigitsEnd(t, start);
    while pos < |t| && IsDigit(t[pos])
      invariant start <= pos <= e && (pos == start ==> result == 0)
      invariant AllDigits(t[start..pos]) && result == Value(t[start..pos]) && result <= UINT64_MAX
    {
      DigitsEndStep(t, start, pos);
      ValueStep(t, start, pos);
      ValueGrows(t, start, pos + 1, e);
      var digit := DigitOf(t[pos]);
      if result > (UINT64_MAX - digit) / 10 { return NotNumber; }
      result := result * 10 + digit;
      pos := pos + 1;
    }
    DigitsEndStep(t, start, pos);
    return Number(result, pos);
  }

  /** Reading a printed number back, wherever it stands, as long as no digit follows. */
  lemma PrintReadsBack(t: string, pos: nat, n: nat)
    requires n <= UINT64_MAX && pos + |Print(n)| <= |t| && t[pos..pos + |Print(n)|] == Print(n)
    requires pos + |Print(n)| < |t| ==> !IsDigit(t[pos + |Print(n)|])
    ensures Uint64At(t, pos) == Number(n, pos + |Print(n)|)
  {
    ValueOfPrint(n);
    RunEnds(t, pos, pos + |Print(n)|);
  }

  lemma {:induction false} RunEnds(t: string, pos: nat, e: nat)
    requires pos <= e <= |t| && AllDigits(t[pos..e]) && (e < |t| ==> !IsDigit(t[e]))
    ensures DigitsEnd(t, pos) == e
    decreases e - pos
  {
    if pos < e {
      assert t[pos] == t[pos..e][0];
      assert t[pos + 1..e] == t[pos..e][1..];
      RunEnds(t, pos + 1, e);
    }
  }
}
