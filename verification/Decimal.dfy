/** Decimal text of Rust's unsigned integers: `Display` and `FromStr` for u32 and u64. */
module Decimal {
  import opened Defs

  predicate IsDigit(c: char) {
    '0' <= c <= '9'
  }

  predicate AllDigits(s: string) {
    forall i | 0 <= i < |s| :: IsDigit(s[i])
  }

  function DigitValue(c: char): (d: nat)
    requires IsDigit(c)
    ensures d < 10
  {
    c as int - '0' as int
  }

  function DigitChar(d: nat): (c: char)
    requires d < 10
    ensures IsDigit(c) && DigitValue(c) == d
  {
    ('0' as int + d) as char
  }

  /** The digits count up in the order of their characters. */
  lemma DigitsInOrder(a: char, b: char)
    requires IsDigit(a) && IsDigit(b)
    ensures DigitValue(a) < DigitValue(b) <==> a < b
    ensures DigitValue('0') == 0 && DigitValue('9') == 9
  {
  }

  /** The number a digit string denotes, read without any bound. */
  function Value(s: string): nat
    requires AllDigits(s)
  {
    if s == [] then 0 else 10 * Value(s[..|s| - 1]) + DigitValue(s[|s| - 1])
  }

  /** The last digit counts ones, and all others ten times as much as without it. */
  lemma OneMoreDigit(front: string, c: char)
    requires AllDigits(front) && IsDigit(c)
    ensures AllDigits(front + [c]) && Value(front + [c]) == 10 * Value(front) + (c as int - '0' as int)
    ensures Value([]) == 0
  {
    assert (front + [c])[..|front|] == front;
  }

  /** Zeros at the end. */
  lemma {:induction false} TrailingZeros(front: string, zeros: string)
    requires AllDigits(front) && forall i | 0 <= i < |zeros| :: zeros[i] == '0'
    ensures AllDigits(front + zeros) && Value(front + zeros) == Power(|zeros|) * Value(front)
  {
    if zeros == [] {
      assert front + zeros == front;
    } else {
      var n := |zeros| - 1;
      TrailingZeros(front, zeros[..n]);
      assert front + zeros == front + zeros[..n] + ['0'];
      OneMoreDigit(front + zeros[..n], '0');
    }
  }

  function Power(n: nat): nat {
    if n == 0 then 1 else 10 * Power(n - 1)
  }

  lemma SomePowers()
    ensures Power(2) == 100 && Power(11) == 100000000000
  {
    assert Power(2) == 100;
    assert Power(4) == 10000;
    assert Power(6) == 1000000;
    assert Power(8) == 100000000;
    assert Power(10) == 10000000000;
  }

  /** `Display` for unsigned integers. */
  function Print(n: nat): (s: string)
    ensures |s| >= 1 && AllDigits(s)
    ensures Value(s) == n
    ensures s[0] == '0' ==> n == 0 && s == "0"
  {
    if n < 10 then [DigitChar(n)]
    else
      var front := Print(n / 10);
      var s := front + [DigitChar(n % 10)];
      assert s[..|s| - 1] == front;
      s
  }

  /** `FromStr` for an unsigned type of `bound` values: an optional `+`, then at least one digit,
      accumulated from the left with a checked multiplication and a checked addition. */
  function Parse(s: string, bound: nat): Option<nat> {
    if s == [] || s == "+" || s == "-" then None
    else ParseDigits(if s[0] == '+' then s[1..] else s, 0, bound)
  }

  function ParseDigits(s: string, acc: nat, bound: nat): Option<nat> {
    if s == [] then Some(acc)
    else if !IsDigit(s[0]) then None
    else if 10 * acc >= bound then None
    else if 10 * acc + DigitValue(s[0]) >= bound then None
    else ParseDigits(s[1..], 10 * acc + DigitValue(s[0]), bound)
  }

  lemma {:induction false} ValueGrows(front: string, more: string)
    requires AllDigits(front) && AllDigits(more)
    ensures Value(front) <= Value(front + more)
  {
    if more == [] {
      assert front + more == front;
    } else {
      var n := |more| - 1;
      ValueGrows(front, more[..n]);
      assert (front + more)[..|front + more| - 1] == front + more[..n];
    }
  }

  /** With the digits of `front` already read, the checked accumulation computes the unbounded value,
      and overflow is reported exactly when that value is out of range. */
  lemma {:induction false} ParseDigitsIsValue(front: string, s: string, bound: nat)
    requires AllDigits(front) && Value(front) < bound
    ensures ParseDigits(s, Value(front), bound) ==
            if AllDigits(s) && Value(front + s) < bound then Some(Value(front + s)) else None
    decreases |s|
  {
    if s == [] {
      assert front + s == front;
    } else if IsDigit(s[0]) {
      var front' := front + [s[0]];
      assert front'[..|front'| - 1] == front;
      assert front + s == front' + s[1..];
      assert s == [s[0]] + s[1..];
      if Value(front') < bound {
        ParseDigitsIsValue(front', s[1..], bound);
      } else if AllDigits(s) {
        ValueGrows(front', s[1..]);
      }
    }
  }

  /** The digits of an accepted text, its optional sign removed. */
  function Unsigned(s: string): string {
    if s != [] && s[0] == '+' then s[1..] else s
  }

  /** Acceptance: an optional `+`, at least one digit, leading zeros allowed, and a value in range. */
  ghost predicate Denotes(s: string, n: nat) {
    Unsigned(s) != [] && AllDigits(Unsigned(s)) && Value(Unsigned(s)) == n
  }

  lemma ParseAccepts(s: string, bound: nat, n: nat)
    ensures Parse(s, bound) == Some(n) <==> Denotes(s, n) && n < bound
  {
    var digits := Unsigned(s);
    if s == "-" {
      assert !IsDigit(s[0]);
    } else if digits != [] {
      if bound == 0 {
        assert ParseDigits(digits, 0, bound) == None;
      } else {
        assert [] + digits == digits;
        ParseDigitsIsValue([], digits, bound);
      }
    }
  }

  /** Printing and then parsing returns the number, in every width it fits. */
  lemma PrintParse(n: nat, bound: nat)
    requires n < bound
    ensures Parse(Print(n), bound) == Some(n)
    ensures '|' !in Print(n)
  {
    var s := Print(n);
    assert IsDigit(s[0]);
    assert Unsigned(s) == s;
    ParseAccepts(s, bound, n);
  }

  /** No sign and no leading zero. */
  predicate Canonical(s: string) {
    s != [] && AllDigits(s) && (s[0] == '0' ==> s == "0")
  }

  lemma {:induction false} CanonicalPrints(s: string)
    requires Canonical(s)
    ensures Print(Value(s)) == s
  {
    var n := |s|;
    var front, d := s[..n - 1], DigitValue(s[n - 1]);
    assert s == front + [DigitChar(d)];
    if n > 1 {
      assert front[0] == s[0];
      CanonicalPrints(front);
      assert Value(front) > 0;
      assert Value(s) / 10 == Value(front) && Value(s) % 10 == d;
    }
  }

  /** Reprinting a parsed number gives the text back exactly when the text was canonical. */
  lemma ReprintsIffCanonical(s: string, bound: nat, n: nat)
    requires Parse(s, bound) == Some(n)
    ensures Print(n) == s <==> Canonical(s)
  {
    ParseAccepts(s, bound, n);
    if Canonical(s) {
      CanonicalPrints(s);
    }
  }
}
