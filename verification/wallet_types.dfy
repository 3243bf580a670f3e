/** Value types shared by the wallet's transaction builder and its client:
    64-bit amounts with the wrap-around of C++ unsigned arithmetic, and the
    failure-compatible wrappers used for error paths. */
module WalletTypes {

  /** 2^64: one more than the largest `uint64_t`. */
  const U64Limit: int := 0x1_0000_0000_0000_0000

  /** 2^63: the first `uint64_t` value that reads as negative once converted to `int64_t`. */
  const I64Limit: int := 0x8000_0000_0000_0000

  /** An unsigned 64-bit integer (`uint64_t`). */
  type U64 = n: int | 0 <= n < U64Limit

  /** `beam::Amount`, an unsigned 64-bit quantity. */
  type Amount = U64

  /** An unsigned 8-bit integer (`uint8_t`). */
  type U8 = n: int | 0 <= n < 256

  datatype Option<T> = None | Some(value: T) {
    function GetOr(default: T): T {
      match this
      case Some(v) => v
      case None => default
    }
  }

  datatype Result<T, E> = Success(value: T) | Failure(error: E)

  datatype Outcome<E> = Pass | Fail(error: E)

  /** The mathematical (unbounded) sum of a list of amounts. */
  function Sum(xs: seq<Amount>): nat
  {
    if xs == [] then 0 else Sum(xs[..|xs| - 1]) + xs[|xs| - 1]
  }

  /** `std::accumulate(begin, end, 0ULL)`: a left fold in which every
      addition wraps modulo 2^64. */
  function AccumulateU64(xs: seq<Amount>): Amount
  {
    if xs == [] then 0 else (AccumulateU64(xs[..|xs| - 1]) + xs[|xs| - 1]) % U64Limit
  }

  /** The wrapping fold is the true sum reduced modulo 2^64. */
  lemma {:induction false} AccumulateIsSumMod(xs: seq<Amount>)
    ensures AccumulateU64(xs) == Sum(xs) % U64Limit
  {
    if xs != [] {
      var p := xs[..|xs| - 1];
      AccumulateIsSumMod(p);
      ModAddAbsorbs(Sum(p), xs[|xs| - 1]);
    }
  }

  /** One more step of the wrapping fold. */
  lemma AccumulateAppend(xs: seq<Amount>, x: Amount)
    ensures AccumulateU64(xs + [x]) == (AccumulateU64(xs) + x) % U64Limit
  {
    assert (xs + [x])[..|xs|] == xs;
  }

  /** Without overflow the wrapping fold is exactly the sum. */
  lemma AccumulateExact(xs: seq<Amount>)
    requires Sum(xs) < U64Limit
    ensures AccumulateU64(xs) == Sum(xs)
  {
    AccumulateIsSumMod(xs);
  }

  /** Reducing the running total before adding does not change the wrapped result. */
  lemma ModAddAbsorbs(s: nat, x: nat)
    ensures (s % U64Limit + x) % U64Limit == (s + x) % U64Limit
  {
    var q := s / U64Limit;
    assert s == q * U64Limit + s % U64Limit;
  }

  /** A conversion of `uint64_t` to `int64_t` (two's complement). */
  function ToSigned64(a: Amount): (r: int)
    ensures a < I64Limit <==> r == a
    ensures r < 0 <==> a >= I64Limit
    ensures -I64Limit <= r < I64Limit
    ensures r % U64Limit == a
  {
    if a < I64Limit then a else a - U64Limit
  }

  lemma {:induction false} SumConcat(a: seq<Amount>, b: seq<Amount>)
    ensures Sum(a + b) == Sum(a) + Sum(b)
    decreases |b|
  {
    if b == [] {
      assert a + b == a;
    } else {
      var b' := b[..|b| - 1];
      assert (a + b)[..|a + b| - 1] == a + b';
      SumConcat(a, b');
    }
  }

  /** A list of amounts sums to something positive exactly when one of its
      entries is positive. */
  lemma {:induction false} SumPositiveIff(xs: seq<Amount>)
    ensures Sum(xs) > 0 <==> exists i :: 0 <= i < |xs| && xs[i] > 0
  {
    if xs != [] {
      var p := xs[..|xs| - 1];
      SumPositiveIff(p);
      if Sum(p) > 0 {
        var i :| 0 <= i < |p| && p[i] > 0;
        assert xs[i] == p[i];
      }
      if exists i :: 0 <= i < |xs| && xs[i] > 0 {
        var i :| 0 <= i < |xs| && xs[i] > 0;
        if i < |p| { assert p[i] == xs[i]; }
      }
    }
  }
}
