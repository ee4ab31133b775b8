/**
 * Shared vocabulary of the model: optional values, results carrying the
 * Python exception an operation raises, integer and real sums, boolean
 * counts, and the decimal rendering Python's `str(int)` produces.
 */
module Common {

  datatype Option<+T> = None | Some(value: T)

  /** The exception classes the modelled code raises (or lets escape). */
  datatype PyError =
    | AssertionError(msg: string)
    | KeyError(key: string)
    | AttributeError(name: string)
    | IndexError
    | ValueError(msg: string)
    | TypeError(msg: string)
    | NotImplementedError
    | ZeroDivisionError
    | RuntimeError(msg: string)          // raised by torch, e.g. for tensors whose shapes do not broadcast

  datatype Result<+T> = Ok(value: T) | Err(error: PyError)

  function Sum(s: seq<int>): int
  {
    if s == [] then 0 else Sum(s[..|s| - 1]) + s[|s| - 1]
  }

  function SumReal(s: seq<real>): real
  {
    if s == [] then 0.0 else SumReal(s[..|s| - 1]) + s[|s| - 1]
  }

  /** Number of true entries; `torch.sum` over a boolean row. */
  function CountTrue(s: seq<bool>): nat
  {
    if s == [] then 0 else CountTrue(s[..|s| - 1]) + (if s[|s| - 1] then 1 else 0)
  }

  lemma {:induction false} SumAppend(a: seq<int>, b: seq<int>)
    ensures Sum(a + b) == Sum(a) + Sum(b)
    decreases |b|
  {
    if b != [] {
      assert (a + b)[..|a + b| - 1] == a + b[..|b| - 1];
      SumAppend(a, b[..|b| - 1]);
    } else {
      assert a + b == a;
    }
  }

  lemma {:induction false} SumRealAppend(a: seq<real>, b: seq<real>)
    ensures SumReal(a + b) == SumReal(a) + SumReal(b)
    decreases |b|
  {
    if b != [] {
      assert (a + b)[..|a + b| - 1] == a + b[..|b| - 1];
      SumRealAppend(a, b[..|b| - 1]);
    } else {
      assert a + b == a;
    }
  }

  lemma {:induction false} CountTrueAppend(a: seq<bool>, b: seq<bool>)
    ensures CountTrue(a + b) == CountTrue(a) + CountTrue(b)
    decreases |b|
  {
    if b != [] {
      assert (a + b)[..|a + b| - 1] == a + b[..|b| - 1];
      CountTrueAppend(a, b[..|b| - 1]);
    } else {
      assert a + b == a;
    }
  }

  lemma {:induction false} CountTrueBound(s: seq<bool>)
    ensures CountTrue(s) <= |s|
    decreases |s|
  {
    if s != [] {
      CountTrueBound(s[..|s| - 1]);
    }
  }

  function DigitChar(d: nat): (c: char)
    requires d < 10
  {
    "0123456789"[d]
  }

  /** `str(n)` for a non-negative Python int: decimal digits, no leading zero. */
  function NatToString(n: nat): (s: string)
    ensures |s| >= 1
    ensures n >= 10 ==> |s| >= 2
    decreases n
  {
    if n < 10 then [DigitChar(n)] else NatToString(n / 10) + [DigitChar(n % 10)]
  }

  /** `str(i)` for any Python int: a minus sign before the digits of a negative number. */
  function IntToString(i: int): (s: string)
    ensures |s| >= 1
  {
    if i < 0 then "-" + NatToString(-i) else NatToString(i)
  }

  lemma DigitCharInjective(a: nat, b: nat)
    requires a < 10 && b < 10 && DigitChar(a) == DigitChar(b)
    ensures a == b
  {
  }

  /** Only zero renders with a leading '0'. */
  lemma {:induction false} NatToStringLeadingZero(n: nat)
    ensures NatToString(n)[0] == '0' <==> n == 0
    decreases n
  {
    if n >= 10 {
      NatToStringLeadingZero(n / 10);
      assert NatToString(n)[0] == NatToString(n / 10)[0];
    } else if DigitChar(n) == '0' {
      DigitCharInjective(n, 0);
    }
  }

  /** Distinct numbers render differently. */
  lemma {:induction false} NatToStringInjective(a: nat, b: nat)
    requires NatToString(a) == NatToString(b)
    ensures a == b
    decreases a
  {
    var s := NatToString(a);
    if a < 10 && b < 10 {
      DigitCharInjective(a, b);
    } else if a >= 10 && b >= 10 {
      assert s[|s| - 1] == DigitChar(a % 10) == DigitChar(b % 10);
      DigitCharInjective(a % 10, b % 10);
      assert NatToString(a / 10) == s[..|s| - 1] == NatToString(b / 10);
      NatToStringInjective(a / 10, b / 10);
    }
  }

  /** Entries of `s` at the positions where `m` is true, in order. */
  function Select<T>(s: seq<T>, m: seq<bool>): seq<T>
    requires |s| == |m|
  {
    if s == [] then [] else (if m[0] then [s[0]] else []) + Select(s[1..], m[1..])
  }

  lemma {:induction false} SelectLength<T>(s: seq<T>, m: seq<bool>)
    requires |s| == |m|
    ensures |Select(s, m)| == CountTrue(m) <= |s|
    decreases |s|
  {
    if s != [] {
      SelectLength(s[1..], m[1..]);
      assert m == [m[0]] + m[1..];
      CountTrueAppend([m[0]], m[1..]);
    }
  }

  lemma {:induction false} SelectAppend<T>(s1: seq<T>, m1: seq<bool>, s2: seq<T>, m2: seq<bool>)
    requires |s1| == |m1| && |s2| == |m2|
    ensures Select(s1 + s2, m1 + m2) == Select(s1, m1) + Select(s2, m2)
    decreases |s1|
  {
    if s1 == [] {
      assert s1 + s2 == s2 && m1 + m2 == m2;
    } else {
      var h := if m1[0] then [s1[0]] else [];
      assert (s1 + s2)[0] == s1[0] && (m1 + m2)[0] == m1[0];
      assert (s1 + s2)[1..] == s1[1..] + s2 && (m1 + m2)[1..] == m1[1..] + m2;
      assert Select(s1 + s2, m1 + m2) == h + Select(s1[1..] + s2, m1[1..] + m2);
      SelectAppend(s1[1..], m1[1..], s2, m2);
      assert Select(s1, m1) == h + Select(s1[1..], m1[1..]);
      assert h + (Select(s1[1..], m1[1..]) + Select(s2, m2)) == (h + Select(s1[1..], m1[1..])) + Select(s2, m2);
    }
  }

  /** Python's `a // b`: the quotient rounded toward negative infinity. */
  function FloorDiv(a: int, b: int): (q: int)
    requires b != 0
    ensures b * q <= a < b * q + b || b * q + b < a <= b * q
  {
    if b > 0 then a / b else (-a) / (-b)
  }
}
