/** Building blocks shared by the contract models: error-carrying results,
    Rust's checked `i128` arithmetic, Rust's truncating division, and the
    balance ledger kept by an external token or balance contract. */
module Common {

  datatype Option<+T> = None | Some(value: T)

  datatype Result<+T, +E> = Ok(value: T) | Err(error: E)

  /** The entry stored under `k`, if any: a storage read that may miss. */
  function Lookup<K, V>(m: map<K, V>, k: K): (r: Option<V>)
    ensures r.Some? <==> k in m
    ensures r.Some? ==> r.value == m[k]
  {
    if k in m then Some(m[k]) else None
  }

  /** An account or contract address; only equality matters. */
  type Address = nat

  const I128_MIN: int := -0x8000_0000_0000_0000_0000_0000_0000_0000
  const I128_MAX: int := 0x7fff_ffff_ffff_ffff_ffff_ffff_ffff_ffff
  const U32_MAX: int := 0xffff_ffff
  const U64_MAX: int := 0xffff_ffff_ffff_ffff

  predicate InI128(x: int) {
    I128_MIN <= x <= I128_MAX
  }

  /** `checked_add` on `i128`: `None` exactly when the sum leaves the range. */
  function CheckedAdd(a: int, b: int): (r: Option<int>)
    ensures r.Some? <==> InI128(a + b)
    ensures r.Some? ==> r.value - a == b
  {
    if InI128(a + b) then Some(a + b) else None
  }

  /** `checked_sub` on `i128`. */
  function CheckedSub(a: int, b: int): (r: Option<int>)
    ensures r.Some? <==> InI128(a - b)
    ensures r.Some? ==> r.value + b == a
  {
    if InI128(a - b) then Some(a - b) else None
  }

  /** `checked_mul` on `i128`. */
  function CheckedMul(a: int, b: int): (r: Option<int>)
    ensures r.Some? <==> InI128(a * b)
    ensures r.Some? && b != 0 ==> r.value / b == a
  {
    if InI128(a * b) then Some(a * b) else None
  }

  /** Rust's `/` on signed integers, which rounds toward zero (Dafny's `/`
      is Euclidean and differs on negative operands). */
  function TruncDiv(a: int, b: int): (q: int)
    requires b != 0
    ensures a >= 0 && b > 0 ==> q == a / b
    ensures (a >= 0) == (b > 0) ==> q >= 0
    ensures (a >= 0) != (b > 0) ==> q <= 0
  {
    if a >= 0 && b > 0 then a / b
    else if a >= 0 then -(a / -b)
    else if b > 0 then -((-a) / b)
    else (-a) / (-b)
  }

  /** Rounding toward zero is symmetric: negating the dividend negates the quotient. */
  lemma TruncDivOdd(a: int, b: int)
    requires b != 0
    ensures TruncDiv(-a, b) == -TruncDiv(a, b)
  {
    if a == 0 {
      assert TruncDiv(0, b) == 0;
    }
  }

  /** For a positive divisor the quotient never overshoots the dividend in magnitude,
      and falls short of it by less than one divisor. */
  lemma TruncDivBounds(a: int, b: int)
    requires b > 0
    ensures a >= 0 ==> TruncDiv(a, b) * b <= a < TruncDiv(a, b) * b + b
    ensures a < 0 ==> TruncDiv(a, b) * b - b < a <= TruncDiv(a, b) * b
  {
    if a >= 0 {
      assert a == (a / b) * b + a % b;
    } else {
      var m := -a;
      assert m == (m / b) * b + m % b;
      assert TruncDiv(a, b) == -(m / b);
    }
  }

  lemma MulNonNegative(a: int, b: int)
    requires 0 <= a && 0 <= b
    ensures 0 <= a * b
  {
  }

  /** Multiplying by a non-negative factor preserves `<=`. */
  lemma MulMonotone(a: int, b: int, c: int)
    requires 0 <= a && b <= c
    ensures a * b <= a * c
  {
    MulNonNegative(a, c - b);
    assert a * c - a * b == a * (c - b);
  }

  /** Two scaled bounds add up. */
  lemma ScaledSum(w: int, t: int, x: int, n: int, s: int, y: int)
    requires w * t <= n * s && w * x <= n * y
    ensures w * (t + x) <= n * (s + y)
  {
    assert w * (t + x) == w * t + w * x;
    assert n * (s + y) == n * s + n * y;
  }

  /** A positive common factor can be cancelled from both sides of `<=`. */
  lemma CancelPositiveFactor(w: int, a: int, b: int)
    requires 0 < w && w * a <= w * b
    ensures a <= b
  {
  }

  /** `checked_div` on `i128`: fails on a zero divisor and on `MIN / -1`. */
  function CheckedDiv(a: int, b: int): (r: Option<int>)
    requires InI128(a)
    ensures r.None? <==> b == 0 || (a == I128_MIN && b == -1)
    ensures r.Some? ==> r.value == TruncDiv(a, b)
  {
    if b == 0 || (a == I128_MIN && b == -1) then None else Some(TruncDiv(a, b))
  }

  /** The balance an external ledger reports for `a`; an unknown account holds 0. */
  function BalanceOf(ledger: map<Address, int>, a: Address): int {
    if a in ledger then ledger[a] else 0
  }

  /** Takes `amount` from `from` and gives it to `to` (the two may coincide). */
  function Move(ledger: map<Address, int>, from: Address, to: Address, amount: int): (r: map<Address, int>)
    ensures from != to ==> BalanceOf(r, from) == BalanceOf(ledger, from) - amount
    ensures from != to ==> BalanceOf(r, to) == BalanceOf(ledger, to) + amount
    ensures from == to ==> BalanceOf(r, from) == BalanceOf(ledger, from)
    ensures forall a :: a != from && a != to ==> BalanceOf(r, a) == BalanceOf(ledger, a)
  {
    var debited := ledger[from := BalanceOf(ledger, from) - amount];
    debited[to := BalanceOf(debited, to) + amount]
  }

  /** A token `transfer` goes through only for a non-negative amount the
      sender holds; otherwise the token contract traps. */
  predicate CanTransfer(ledger: map<Address, int>, from: Address, amount: int) {
    0 <= amount <= BalanceOf(ledger, from)
  }

  /** No element occurs twice. */
  predicate NoDuplicates<T(==)>(s: seq<T>) {
    forall i, j :: 0 <= i < j < |s| ==> s[i] != s[j]
  }

  lemma NoDuplicatesAppend<T>(s: seq<T>, x: T)
    requires NoDuplicates(s) && x !in s
    ensures NoDuplicates(s + [x])
  {
  }
}
