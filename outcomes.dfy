/** Result types shared by the whole model, and the decimal formatting that the
    renderer's error messages use (`format!("... {}", i)` on a `usize`). */
module Outcomes {

  datatype Option<T> = None | Some(value: T)

  /** The outcome of a renderer operation. `Ok` and `Err` are Rust's `Result`;
      `Panic` marks a call that panics instead of returning (an `unwrap`, an
      `expect` or an out-of-range `Vec` index), and `Hang` a call that never
      returns (a fence wait with an infinite timeout on a fence nothing will
      signal). */
  datatype Result<T> = Ok(value: T) | Err(msg: string) | Panic(msg: string) | Hang

  /** The outcome of an operation whose value the caller drops (`?` followed
      by `Ok(())`): success, error and panic carry over. */
  function Forget<T>(r: Result<T>): (u: Result<()>)
    ensures u.Ok? <==> r.Ok?
    ensures r.Err? ==> u == Err(r.msg)
    ensures r.Panic? ==> u == Panic(r.msg)
    ensures r.Hang? ==> u == Hang
  {
    match r
    case Ok(_) => Ok(())
    case Err(m) => Err(m)
    case Panic(m) => Panic(m)
    case Hang => Hang
  }

  /** Rust's `?` on a failed result: the error or panic carries over to the
      caller's result type. */
  function Propagate<A, B>(r: Result<A>): (u: Result<B>)
    requires !r.Ok?
    ensures !u.Ok?
    ensures r.Err? ==> u == Err(r.msg)
    ensures r.Panic? ==> u == Panic(r.msg)
    ensures r.Hang? ==> u == Hang
  {
    match r
    case Err(m) => Err(m)
    case Panic(m) => Panic(m)
    case Hang => Hang
  }

  /** The answer of a helper whose body is not part of this model: a value, or
      a failure with the message the helper reports. */
  datatype Reply<T> = Value(value: T) | Failure(msg: string)

  /** The message Rust prints when `unwrap` meets an `Err`. */
  const UnwrapMsg: string := "called `Result::unwrap()` on an `Err` value"

  predicate IsDigits(s: string) {
    forall i :: 0 <= i < |s| ==> '0' <= s[i] <= '9'
  }

  function Digit(d: nat): (c: char)
    requires d < 10
    ensures '0' <= c <= '9'
    ensures c as int - '0' as int == d
  {
    ('0' as int + d) as char
  }

  /** Decimal representation of `n`, most significant digit first, without
      leading zeros. */
  function NatToString(n: nat): (s: string)
    ensures |s| >= 1 && IsDigits(s)
    ensures |s| > 1 ==> s[0] != '0'
    decreases n
  {
    if n < 10 then [Digit(n)] else NatToString(n / 10) + [Digit(n % 10)]
  }

  /** The number a string of decimal digits denotes. */
  function DigitsValue(s: string): nat
    requires IsDigits(s)
  {
    if s == [] then 0 else DigitsValue(s[..|s| - 1]) * 10 + (s[|s| - 1] as int - '0' as int)
  }

  /** Reading back the digits gives the number: the formatting loses nothing. */
  lemma {:induction false} DigitsValueOfNatToString(n: nat)
    ensures DigitsValue(NatToString(n)) == n
  {
    if n >= 10 {
      var s := NatToString(n);
      assert s[..|s| - 1] == NatToString(n / 10);
      DigitsValueOfNatToString(n / 10);
    }
  }

  /** An indexed message such as "failed to create fence 2" names its index
      unambiguously: two indices give the same message only if they are equal. */
  lemma IndexedMessageInjective(prefix: string, i: nat, j: nat)
    requires prefix + NatToString(i) == prefix + NatToString(j)
    ensures i == j
  {
    var a, b := prefix + NatToString(i), prefix + NatToString(j);
    assert NatToString(i) == a[|prefix|..];
    assert NatToString(j) == b[|prefix|..];
    DigitsValueOfNatToString(i);
    DigitsValueOfNatToString(j);
  }
}
