/** Shared result types, integer widths and small arithmetic used by every other module. */
module Basics {
  const U32_MAX: nat := 0xFFFF_FFFF
  const U64_MAX: nat := 0xFFFF_FFFF_FFFF_FFFF

  type U64 = n: nat | n <= U64_MAX

  datatype Option<+T> = None | Some(value: T)

  datatype Result<+T, +E> = Ok(value: T) | Err(error: E)

  function Min(a: int, b: int): int {
    if a <= b then a else b
  }

  function Max(a: int, b: int): int {
    if a >= b then a else b
  }

  /** u64 `saturating_add`. */
  function SaturatingAdd64(a: nat, b: nat): nat {
    if a + b > U64_MAX then U64_MAX else a + b
  }

  /** `u32::try_from(n).unwrap_or(u32::MAX)`. */
  function ToU32OrMax(n: nat): nat {
    if n <= U32_MAX then n else U32_MAX
  }

  /** `u32::try_from(n).unwrap_or_default()`. */
  function ToU32OrZero(n: int): nat {
    if 0 <= n <= U32_MAX then n else 0
  }

  /** u64 subtraction as a release build computes it: it wraps when it underflows. */
  function WrappingSub64(a: nat, b: nat): nat {
    (a - b) % (U64_MAX + 1)
  }

  /** u64 multiplication as a release build computes it. */
  function WrappingMul64(a: nat, b: nat): nat {
    (a * b) % (U64_MAX + 1)
  }

  function Pow2(n: nat): nat {
    if n == 0 then 1 else 2 * Pow2(n - 1)
  }

  /** The elements of `s` that satisfy `p`, in order. */
  function Filter<T>(p: T -> bool, s: seq<T>): seq<T> {
    if s == [] then []
    else if p(s[0]) then [s[0]] + Filter(p, s[1..])
    else Filter(p, s[1..])
  }

  lemma {:induction false} FilterMembers<T>(p: T -> bool, s: seq<T>, x: T)
    ensures x in Filter(p, s) <==> x in s && p(x)
  {
    if s == [] {
    } else {
      FilterMembers(p, s[1..], x);
    }
  }

  /** A filter and its complement share out exactly the elements of `s`. */
  lemma {:induction false} FilterPartition<T>(p: T -> bool, q: T -> bool, s: seq<T>)
    requires forall x :: x in s ==> p(x) == !q(x)
    ensures multiset(Filter(p, s)) + multiset(Filter(q, s)) == multiset(s)
    ensures |Filter(p, s)| + |Filter(q, s)| == |s|
  {
    if s == [] {
    } else {
      assert s == [s[0]] + s[1..];
      FilterPartition(p, q, s[1..]);
    }
  }

  lemma {:induction false} FilterAppend<T>(p: T -> bool, a: seq<T>, b: seq<T>)
    ensures Filter(p, a + b) == Filter(p, a) + Filter(p, b)
  {
    if a == [] {
      assert a + b == b;
    } else {
      assert (a + b)[0] == a[0] && (a + b)[1..] == a[1..] + b;
      FilterAppend(p, a[1..], b);
    }
  }

  /** Puts a finished prefix in front of what the rest of a list yields. */
  function Prepend<T, E>(done: seq<T>, rest: Result<seq<T>, E>): Result<seq<T>, E> {
    match rest
    case Err(e) => Err(e)
    case Ok(s) => Ok(done + s)
  }

  lemma PrependLaws<T, E>(a: seq<T>, b: seq<T>, rest: Result<seq<T>, E>)
    ensures Prepend([], rest) == rest
    ensures Prepend(a, Prepend(b, rest)) == Prepend(a + b, rest)
    ensures rest.Ok? && rest.value == [] ==> Prepend(a, rest) == Ok(a)
  {
    if rest.Ok? {
      assert [] + rest.value == rest.value;
      assert a + (b + rest.value) == (a + b) + rest.value;
      assert a + [] == a;
    }
  }
}
