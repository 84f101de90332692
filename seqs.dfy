/** Sequences used as insertion-ordered JavaScript `Set`s. */
module Seqs {

  /** No element occurs twice: what a JavaScript `Set` guarantees of its members. */
  predicate Distinct<T(==)>(xs: seq<T>) {
    forall i, j :: 0 <= i < j < |xs| ==> xs[i] != xs[j]
  }

  /** `xs` with every occurrence of `x` taken out, the rest kept in order (`Set.prototype.delete`). */
  function Without<T(==)>(xs: seq<T>, x: T): seq<T> {
    if xs == [] then []
    else if xs[0] == x then Without(xs[1..], x)
    else [xs[0]] + Without(xs[1..], x)
  }

  /** Deleting `x` removes exactly `x`, keeps the others and keeps them distinct. */
  lemma {:induction false} WithoutSpec<T>(xs: seq<T>, x: T)
    ensures forall y :: y in Without(xs, x) <==> y in xs && y != x
    ensures Distinct(xs) ==> Distinct(Without(xs, x))
    ensures x !in xs ==> Without(xs, x) == xs
  {
    if xs != [] {
      WithoutSpec(xs[1..], x);
      if Distinct(xs) {
        assert Distinct(xs[1..]);
        if xs[0] != x {
          var r := Without(xs[1..], x);
          assert xs[0] !in r by {
            assert xs[0] !in xs[1..];
          }
          forall i, j | 0 <= i < j < |[xs[0]] + r|
            ensures ([xs[0]] + r)[i] != ([xs[0]] + r)[j]
          {
            if i == 0 {
              assert ([xs[0]] + r)[j] == r[j - 1];
            }
          }
        }
      }
    }
  }
}
