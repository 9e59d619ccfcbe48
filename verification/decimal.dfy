/** Decimal rendering of non-negative integers (Rust's `Display` for `u16`) and its inverse. */
module Decimal {
  import opened Results

  predicate IsDigit(c: char) {
    '0' <= c <= '9'
  }

  predicate AllDigits(s: string) {
    forall i :: 0 <= i < |s| ==> IsDigit(s[i])
  }

  function DigitChar(d: nat): (c: char)
    requires d < 10
    ensures IsDigit(c)
    ensures c as int - '0' as int == d
  {
    ('0' as int + d) as char
  }

  /** The shortest decimal form of `n`: digits only, no leading zero. */
  function FromNat(n: nat): (s: string)
    ensures |s| >= 1
    ensures AllDigits(s)
    ensures |s| > 1 ==> s[0] != '0'
    decreases n
  {
    if n < 10 then [DigitChar(n)] else FromNat(n / 10) + [DigitChar(n % 10)]
  }

  /** The value of a string of digits (the empty string is worth 0). */
  function ToNat(s: string): nat
    requires AllDigits(s)
  {
    if |s| == 0 then 0 else ToNat(s[..|s| - 1]) * 10 + (s[|s| - 1] as int - '0' as int)
  }

  /** A decimal parse: a non-empty run of digits, nothing else. */
  function Parse(s: string): (r: Option<nat>)
    ensures r.Some? <==> |s| > 0 && AllDigits(s)
  {
    if |s| > 0 && AllDigits(s) then Some(ToNat(s)) else None
  }

  lemma {:induction false} ToNatFromNat(n: nat)
    ensures ToNat(FromNat(n)) == n
    decreases n
  {
    if n >= 10 {
      var s := FromNat(n);
      assert s[..|s| - 1] == FromNat(n / 10);
      ToNatFromNat(n / 10);
    }
  }

  /** Reading back the decimal form gives the number back. */
  lemma ParseFromNat(n: nat)
    ensures Parse(FromNat(n)) == Some(n)
  {
    ToNatFromNat(n);
  }

  /** A decimal form holds none of the characters that delimit the program's addresses and URLs. */
  lemma NoDelimiters(n: nat)
    ensures ':' !in FromNat(n) && '/' !in FromNat(n) && '@' !in FromNat(n)
  {
    var s := FromNat(n);
    assert forall i :: 0 <= i < |s| ==> s[i] != ':' && s[i] != '/' && s[i] != '@';
  }
}
