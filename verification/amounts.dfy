/** Integer base-unit arithmetic used by the swap engine: the maximal ERC20 approval
    (written in the source as a hexadecimal literal), the slippage-bounded minimum
    output, and the transaction deadline. */
module Amounts {
  import opened Wrappers

  function Pow(b: nat, e: nat): nat {
    if e == 0 then 1 else b * Pow(b, e - 1)
  }

  /** Pow(16, n) == Pow(2, 4 * n): n hexadecimal digits carry 4 * n bits. */
  lemma {:induction false} HexDigitsAreNibbles(n: nat)
    ensures Pow(16, n) == Pow(2, 4 * n)
  {
    if n > 0 {
      HexDigitsAreNibbles(n - 1);
      calc {
        Pow(2, 4 * n);
        2 * Pow(2, 4 * n - 1);
        4 * Pow(2, 4 * n - 2);
        8 * Pow(2, 4 * n - 3);
        16 * Pow(2, 4 * (n - 1));
        16 * Pow(16, n - 1);
      }
    }
  }

  /** The string of n copies of c (Python's `c * n`). */
  function Repeat(c: char, n: nat): (s: string)
    ensures |s| == n
    ensures forall i :: 0 <= i < n ==> s[i] == c
  {
    if n == 0 then [] else Repeat(c, n - 1) + [c]
  }

  predicate IsHexDigit(c: char) {
    '0' <= c <= '9' || 'a' <= c <= 'f' || 'A' <= c <= 'F'
  }

  function HexDigitValue(c: char): (d: nat)
    requires IsHexDigit(c)
    ensures d < 16
    ensures c == 'f' || c == 'F' ==> d == 15
  {
    if '0' <= c <= '9' then c as int - '0' as int
    else if 'a' <= c <= 'f' then c as int - 'a' as int + 10
    else c as int - 'A' as int + 10
  }

  /** The number written by a string of hexadecimal digits, most significant first.
      n digits never denote more than 16^n - 1. */
  function HexValue(ds: string): (v: nat)
    requires forall i :: 0 <= i < |ds| ==> IsHexDigit(ds[i])
    ensures v < Pow(16, |ds|)
  {
    if ds == [] then 0 else HexValue(ds[..|ds| - 1]) * 16 + HexDigitValue(ds[|ds| - 1])
  }

  /** Python's `int(s, 16)` restricted to the digits-only form MAX_APPROVAL_HEX has: an
      optional `0x`/`0X` prefix followed by at least one hexadecimal digit, and None
      for any other string. A sign, surrounding blanks and underscores between digits,
      which Python also accepts, are outside this form. */
  function IntBase16(s: string): (r: Option<nat>)
    ensures r.Some? ==> r.value < Pow(16, |s|)
  {
    var ds := if |s| >= 2 && s[0] == '0' && (s[1] == 'x' || s[1] == 'X') then s[2..] else s;
    if |ds| > 0 && forall i :: 0 <= i < |ds| ==> IsHexDigit(ds[i]) then
      PowMonotone(16, |ds|, |s|);
      Some(HexValue(ds))
    else None
  }

  lemma {:induction false} PowMonotone(b: nat, e1: nat, e2: nat)
    requires b > 0 && e1 <= e2
    ensures Pow(b, e1) <= Pow(b, e2)
  {
    if e1 < e2 {
      PowMonotone(b, e1, e2 - 1);
      MulMonotone(1, b, Pow(b, e2 - 1));
    }
  }

  /** n hexadecimal 'f' digits denote 16^n - 1, the largest n-digit value. */
  lemma {:induction false} AllFDigits(n: nat)
    ensures HexValue(Repeat('f', n)) == Pow(16, n) - 1
  {
    if n > 0 {
      var s := Repeat('f', n);
      assert s[..n - 1] == Repeat('f', n - 1);
      AllFDigits(n - 1);
    }
  }

  /** MAX_APPROVAL_HEX: '0x' followed by 64 'f' digits. */
  const MaxApprovalHex: string := "0x" + Repeat('f', 64)

  /** MAX_APPROVAL_INT: the value of MAX_APPROVAL_HEX (0 only if it did not parse, which
      MaxApprovalIsUint256Max rules out). */
  const MaxApprovalInt: nat := IntBase16(MaxApprovalHex).GetOr(0)

  /** The default approval amount parses, and it is 2^256 - 1, the largest uint256. */
  lemma MaxApprovalIsUint256Max()
    ensures IntBase16(MaxApprovalHex) == Some(MaxApprovalInt)
    ensures MaxApprovalInt == Pow(2, 256) - 1
  {
    var digits := Repeat('f', 64);
    assert MaxApprovalHex[0] == '0' && MaxApprovalHex[1] == 'x';
    assert MaxApprovalHex[2..] == digits;
    assert forall i :: 0 <= i < |digits| ==> IsHexDigit(digits[i]);
    AllFDigits(64);
    HexDigitsAreNibbles(64);
  }

  /** An allowance of at least the default approval covers every uint256 amount. */
  lemma MaxApprovalCoversUint256(allowance: nat, amount: nat)
    requires amount < Pow(2, 256)
    ensures allowance >= MaxApprovalInt ==> allowance >= amount
  {
    MaxApprovalIsUint256Max();
  }

  datatype Fraction = Fraction(num: nat, den: nat)

  /** A maximum-slippage fraction num/den in [0, 1]. */
  type Slippage = f: Fraction | f.den > 0 && f.num <= f.den witness Fraction(0, 1)

  /** The default max_slippage of 0.2. */
  const DefaultMaxSlippage: Slippage := Fraction(1, 5)

  /** `int((1 - s) * quote)`: the slippage-bounded minimum output. The product is never
      negative, so truncation toward zero is floor division. The result is the exact
      product rounded down, and it never exceeds the quote. */
  function MinOut(quote: nat, s: Slippage): (r: nat)
    ensures r * s.den <= (s.den - s.num) * quote < (r + 1) * s.den
    ensures r <= quote
  {
    var exact := (s.den - s.num) * quote;
    var r := exact / s.den;
    FloorDivision(exact, s.den);
    MinOutWithinQuote(quote, s, r);
    r
  }

  lemma FloorDivision(x: nat, d: nat)
    requires d > 0
    ensures (x / d) * d <= x < (x / d + 1) * d
  {
    var q, m := x / d, x % d;
    assert x == q * d + m && 0 <= m < d;
    assert (q + 1) * d == q * d + d;
  }

  lemma MinOutWithinQuote(quote: nat, s: Slippage, r: nat)
    requires r * s.den <= (s.den - s.num) * quote
    ensures r <= quote
  {
    MulMonotone(s.den - s.num, s.den, quote);
    MulCancel(r, quote, s.den);
  }

  /** The bound keeps the whole quote exactly when there is no slippage allowance (or
      nothing was quoted); any positive allowance on a positive quote lowers it. */
  lemma MinOutEqualsQuoteIff(quote: nat, s: Slippage)
    ensures MinOut(quote, s) == quote <==> s.num == 0 || quote == 0
  {
    var r := MinOut(quote, s);
    if s.num == 0 {
      MulCancelStrict(quote, r + 1, s.den);
    } else if quote == 0 {
      MulCancel(r, 0, s.den);
    } else {
      MulMonotone(s.den - s.num, s.den - 1, quote);
      assert (s.den - 1) * quote == s.den * quote - quote;
      MulCancelStrict(r, quote, s.den);
    }
  }

  /** A larger quote never yields a smaller bound. */
  lemma MinOutMonotone(q1: nat, q2: nat, s: Slippage)
    requires q1 <= q2
    ensures MinOut(q1, s) <= MinOut(q2, s)
  {
    var r1, r2 := MinOut(q1, s), MinOut(q2, s);
    MulMonotone(q1, q2, s.den - s.num);
    MulCancelStrict(r1, r2 + 1, s.den);
  }

  lemma MulMonotone(a: int, b: int, c: nat)
    requires a <= b
    ensures a * c <= b * c
  {
  }

  lemma MulCancel(a: int, b: int, c: nat)
    requires c > 0 && a * c <= b * c
    ensures a <= b
  {
    if a > b {
      MulMonotone(b + 1, a, c);
    }
  }

  lemma MulCancelStrict(a: int, b: int, c: nat)
    requires c > 0 && a * c < b * c
    ensures a < b
  {
    if a >= b {
      MulMonotone(b, a, c);
    }
  }

  /** Slippage 0.2 on a quote of 1000 leaves 800; slippage 0.1 on 500 * 10^18 leaves
      450 * 10^18. */
  lemma MinOutExamples()
    ensures MinOut(1000, DefaultMaxSlippage) == 800
    ensures MinOut(500 * Pow(10, 18), Fraction(1, 10)) == 450 * Pow(10, 18)
  {
  }

  /** `int(time.time()) + tx_timeout` for a clock reading in milliseconds: the whole
      seconds elapsed, plus the timeout. */
  function Deadline(nowMs: nat, txTimeout: int): (d: int)
    ensures (d - txTimeout) * 1000 <= nowMs < (d - txTimeout + 1) * 1000
  {
    nowMs / 1000 + txTimeout
  }

  /** A later clock never gives an earlier deadline, and one at least a second later
      gives a strictly later one. */
  lemma DeadlineMonotone(t1: nat, t2: nat, txTimeout: int)
    requires t1 <= t2
    ensures Deadline(t1, txTimeout) <= Deadline(t2, txTimeout)
    ensures t1 + 1000 <= t2 ==> Deadline(t1, txTimeout) < Deadline(t2, txTimeout)
  {
  }
}
