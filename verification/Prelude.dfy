/** Failure-carrying values and small set facts shared by every model in this project. */
module Prelude {

  datatype Option<+T> = None | Some(value: T)

  datatype Result<+T, +E> = Ok(value: T) | Err(error: E)

  /** One octet of a file. */
  newtype byte = b: int | 0 <= b < 256

  /** A set that maps one-to-one into another set is no larger. */
  lemma {:induction false} InjectionBound<A, B>(a: set<A>, b: set<B>, f: map<A, B>)
    requires a <= f.Keys
    requires forall x :: x in a ==> f[x] in b
    requires forall x, y :: x in a && y in a && f[x] == f[y] ==> x == y
    ensures |a| <= |b|
  {
    if a != {} {
      var x :| x in a;
      InjectionBound(a - {x}, b - {f[x]}, f);
    }
  }

  /** A subset is no larger, and as large only when it is everything. */
  lemma {:induction false} SubsetBound<A>(a: set<A>, b: set<A>)
    requires a <= b
    ensures |a| <= |b|
  {
    if a != {} {
      var x :| x in a;
      SubsetBound(a - {x}, b - {x});
    }
  }

  lemma Scaled(a: int, b: int, n: nat)
    ensures a <= b ==> a * n <= b * n
  {}

  lemma DivisionBounds(total: int, n: nat)
    requires n > 0
    ensures total / n * n <= total < (total / n + 1) * n
  {}

  /** Floor division is the only integer that fits. */
  lemma QuotientIs(total: int, q: int, n: nat)
    requires n > 0 && q * n <= total < (q + 1) * n
    ensures total / n == q
  {
    var actual := total / n;
    DivisionBounds(total, n);
    Scaled(q + 1, actual, n);
    Scaled(actual + 1, q, n);
  }

  lemma QuotientBounds(total: int, n: nat, low: int, high: int)
    requires n > 0 && low * n <= total <= high * n
    ensures low <= total / n <= high
  {
    var q := total / n;
    DivisionBounds(total, n);
    Scaled(q + 1, low, n);
    Scaled(high + 1, q, n);
  }
}
