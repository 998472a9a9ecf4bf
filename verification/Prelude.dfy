/** Small shared vocabulary. */
module Prelude {

  datatype Option<+T> = None | Some(value: T)

  /** A Go `(value, error)` return. */
  datatype Result<+T, +E> = Ok(value: T) | Err(error: E)

  /** Instants and durations, in nanoseconds. */
  type Time = int

  const SECOND: Time := 1_000_000_000

  function Min(a: int, b: int): int { if a < b then a else b }

  function Max(a: int, b: int): int { if a > b then a else b }

  /** A subset is no larger than the set. */
  lemma {:induction false} SubsetSize<T>(a: set<T>, b: set<T>)
    requires a <= b
    ensures |a| <= |b|
    ensures |a| == |b| ==> a == b
  {
    assert b == a + (b - a);
    assert |b| == |a| + |b - a|;
  }

  /** There is always an unused number and an unused text. */
  lemma UnusedNat(used: set<nat>) returns (p: nat)
    ensures p !in used
  {
    p := Above(used);
  }

  lemma {:induction false} Above(used: set<nat>) returns (p: nat)
    ensures forall q :: q in used ==> q < p
    decreases |used|
  {
    p := 0;
    if used != {} {
      var q :| q in used;
      var rest := Above(used - {q});
      p := Max(rest, q + 1);
      assert forall x :: x in used ==> x == q || x in used - {q};
    }
  }

  lemma UnusedString(used: set<string>) returns (x: string)
    ensures x !in used && x != ""
  {
    var n := Longer(used);
    x := seq(n + 1, _ => 'x');
  }

  lemma {:induction false} Longer(used: set<string>) returns (n: nat)
    ensures forall x :: x in used ==> |x| < n
    decreases |used|
  {
    n := 0;
    if used != {} {
      var x :| x in used;
      var rest := Longer(used - {x});
      n := Max(rest, |x| + 1);
      assert forall y :: y in used ==> y == x || y in used - {x};
    }
  }

  lemma MulMonotone(n: nat, a: int, b: int)
    requires a <= b
    ensures n * a <= n * b
  {
  }

  /** The quotient is the only number with a remainder in range. */
  lemma DivUnique(r: int, n: nat, q: int)
    requires n > 0 && n * q <= r < n * q + n
    ensures r / n == q
  {
    if q < r / n { MulMonotone(n, q + 1, r / n); }
    if q > r / n { MulMonotone(n, r / n + 1, q); }
  }

  lemma PutThenDrop<K, T>(m: map<K, T>, p: K, v: T)
    ensures m[p := v] - {p} == m - {p}
    ensures p !in m ==> m - {p} == m
  {
  }
}
