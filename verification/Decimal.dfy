/** Decimal numerals, as the program prints (strconv.AppendUint) and parses (BytesToUint64) them. */
module Decimal {
  import opened Wrappers

  const U64: nat := 0x1_0000_0000_0000_0000

  type uint64 = n: int | 0 <= n < U64

  predicate IsDigit(c: char) {
    '0' <= c <= '9'
  }

  predicate Digits(s: string) {
    forall k :: 0 <= k < |s| ==> IsDigit(s[k])
  }

  function DigitVal(c: char): (d: nat)
    requires IsDigit(c)
    ensures d < 10
  {
    c as int - '0' as int
  }

  /** The number a numeral denotes, before any truncation to a machine word. */
  function Value(s: string): nat
    requires Digits(s)
  {
    if s == "" then 0 else Value(s[..|s| - 1]) * 10 + DigitVal(s[|s| - 1])
  }

  /** The canonical numeral of a number. */
  function Print(n: nat): (s: string)
    ensures s != "" && Digits(s)
  {
    if n < 10 then [('0' as int + n) as char] else Print(n / 10) + [('0' as int + n % 10) as char]
  }

  function PrintInt(n: int): (s: string)
    ensures s != ""
  {
    if n < 0 then "-" + Print(-n) else Print(n)
  }

  lemma {:induction false} PrintParse(n: nat)
    ensures Value(Print(n)) == n
  {
    if n < 10 {
      assert Print(n)[..0] == "";
    } else {
      PrintParse(n / 10);
      assert Print(n)[..|Print(n)| - 1] == Print(n / 10);
    }
  }

  /** A decimal with an optional sign, not limited to a machine word. */
  function ParseSigned(s: string): Option<int> {
    var digits := if s != "" && (s[0] == '-' || s[0] == '+') then s[1..] else s;
    if digits == "" || !Digits(digits) then None
    else Some(if s[0] == '-' then 0 - Value(digits) else Value(digits))
  }

  lemma SignedRoundTrip(n: int)
    ensures ParseSigned(PrintInt(n)) == Some(n)
  {
    var digits := Print(if n < 0 then -n else n);
    PrintParse(if n < 0 then -n else n);
    assert IsDigit(digits[0]);
    hide Print, Value;
    assert n < 0 ==> PrintInt(n)[0] == '-' && PrintInt(n)[1..] == digits;
  }

  /** The digit worth most comes first. */
  lemma MostSignificantFirst(n: nat, d: nat)
    requires n > 0 && d < 10
    ensures Print(10 * n + d) == Print(n) + ["0123456789"[d]]
  {
  }

  function Pow10(k: nat): (p: nat)
    ensures p >= 1
  {
    if k == 0 then 1 else 10 * Pow10(k - 1)
  }

  lemma {:induction false} PrintLength(n: nat, k: nat)
    requires n < Pow10(k) && k > 0
    ensures |Print(n)| <= k
  {
    if n >= 10 {
      PrintLength(n / 10, k - 1);
    }
  }

  lemma IdLength(id: uint64)
    ensures |Print(id)| <= 20
  {
    assert Pow10(10) == 10_000_000_000;
    assert Pow10(15) == 1_000_000_000_000_000;
    PrintLength(id, 20);
  }

  /** The end of the maximal run of digits that starts at i. */
  function DigitsEnd(t: string, i: nat): (j: nat)
    requires i <= |t|
    ensures i <= j <= |t| && Digits(t[i..j])
    ensures j < |t| ==> !IsDigit(t[j])
    decreases |t| - i
  {
    if i < |t| && IsDigit(t[i]) then
      var j := DigitsEnd(t, i + 1);
      assert t[i..j] == [t[i]] + t[i + 1..j];
      j
    else
      i
  }

  /** The run of digits that starts at i ends where its maximality says it does. */
  lemma {:induction false} DigitsEndUnique(t: string, i: nat, j: nat)
    requires i <= j <= |t| && Digits(t[i..j])
    requires j < |t| ==> !IsDigit(t[j])
    ensures DigitsEnd(t, i) == j
    decreases j - i
  {
    if i < j {
      assert IsDigit(t[i..j][0]);
      assert t[i + 1..j] == t[i..j][1..];
      DigitsEndUnique(t, i + 1, j);
    }
  }

  /** The ID a run of digits stands for: the program accumulates in 64 bits, so it wraps. */
  function Wrapped(s: string): uint64
    requires Digits(s)
  {
    Value(s) % U64
  }

  /** A printed uint64 parses back to itself: no wrap-around happens. */
  lemma WrappedPrint(id: uint64)
    ensures Wrapped(Print(id)) == id
  {
    PrintParse(id);
  }

  lemma ModStep(v: nat, d: nat)
    ensures (v % U64 * 10 + d) % U64 == (v * 10 + d) % U64
  {
    var q, r := v / U64, v % U64;
    assert v * 10 + d == q * 10 * U64 + (r * 10 + d);
    ModAddMultiple(q * 10, r * 10 + d);
  }

  lemma {:induction false} ModAddMultiple(q: nat, x: nat)
    ensures (q * U64 + x) % U64 == x % U64
  {
    if q > 0 {
      ModAddMultiple(q - 1, x);
      assert q * U64 + x == ((q - 1) * U64 + x) + U64;
    }
  }

  method BytesToUint64(b: string) returns (n: uint64)
    requires Digits(b)
    ensures n == Wrapped(b)
  {
    n := 0;
    for k := 0 to |b|
      invariant n == Wrapped(b[..k])
    {
      assert b[..k + 1][..k] == b[..k];
      ModStep(Value(b[..k]), DigitVal(b[k]));
      n := (n * 10 + DigitVal(b[k])) % U64;
    }
    assert b[..|b|] == b;
  }

  method SkipDigits(t: string, i: nat) returns (cursor: nat)
    requires i <= |t|
    ensures cursor == DigitsEnd(t, i)
  {
    cursor := i;
    while cursor < |t| && IsDigit(t[cursor])
      invariant i <= cursor <= |t| && DigitsEnd(t, cursor) == DigitsEnd(t, i)
    {
      cursor := cursor + 1;
    }
  }
}
