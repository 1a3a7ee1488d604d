/** Folding commuting, repeatable steps: only the set of steps matters. */
module Folds {

  function Fold<S, X>(f: (S, X) -> S, s: S, xs: seq<X>): S
    decreases |xs|
  {
    if xs == [] then s else Fold(f, f(s, xs[0]), xs[1..])
  }

  /** The steps taken from `steps` keep `inv`, commute pairwise and repeat harmlessly. */
  ghost predicate Tame<S(!new), X(!new)>(f: (S, X) -> S, inv: S -> bool, steps: set<X>) {
    && (forall s, x | inv(s) && x in steps :: inv(f(s, x)))
    && (forall s, x | inv(s) && x in steps :: f(f(s, x), x) == f(s, x))
    && (forall s, x, y | inv(s) && x in steps && y in steps :: f(f(s, x), y) == f(f(s, y), x))
  }

  predicate From<X(!new)>(xs: seq<X>, steps: set<X>) {
    forall x | x in xs :: x in steps
  }

  lemma {:induction false} Keeps<S(!new), X(!new)>(f: (S, X) -> S, inv: S -> bool, steps: set<X>, s: S, xs: seq<X>)
    requires Tame(f, inv, steps) && inv(s) && From(xs, steps)
    ensures inv(Fold(f, s, xs))
    decreases |xs|
  {
    if xs != [] {
      Keeps(f, inv, steps, f(s, xs[0]), xs[1..]);
    }
  }

  /** A step may be moved from before a fold to after it. */
  lemma {:induction false} Moves<S(!new), X(!new)>(f: (S, X) -> S, inv: S -> bool, steps: set<X>, s: S, x: X,
                                                   xs: seq<X>)
    requires Tame(f, inv, steps) && inv(s) && From(xs, steps) && x in steps
    ensures Fold(f, f(s, x), xs) == f(Fold(f, s, xs), x)
    decreases |xs|
  {
    if xs != [] {
      var y := xs[0];
      assert f(f(s, x), y) == f(f(s, y), x);
      Moves(f, inv, steps, f(s, y), x, xs[1..]);
    }
  }

  /** A step that comes again later might as well not have come first. */
  lemma {:induction false} Absorbs<S(!new), X(!new)>(f: (S, X) -> S, inv: S -> bool, steps: set<X>, s: S, x: X,
                                                     xs: seq<X>)
    requires Tame(f, inv, steps) && inv(s) && From(xs, steps) && x in xs
    ensures Fold(f, f(s, x), xs) == Fold(f, s, xs)
    decreases |xs|
  {
    var y := xs[0];
    if y == x {
      assert f(f(s, x), x) == f(s, x);
    } else {
      assert f(f(s, x), y) == f(f(s, y), x);
      Absorbs(f, inv, steps, f(s, y), x, xs[1..]);
    }
  }

  lemma {:induction false} AbsorbsPrefix<S(!new), X(!new)>(f: (S, X) -> S, inv: S -> bool, steps: set<X>, s: S,
                                                           xs: seq<X>, ys: seq<X>)
    requires Tame(f, inv, steps) && inv(s) && From(ys, steps) && forall x | x in xs :: x in ys
    ensures Fold(f, Fold(f, s, xs), ys) == Fold(f, s, ys)
    decreases |xs|
  {
    if xs != [] {
      Absorbs(f, inv, steps, s, xs[0], ys);
      AbsorbsPrefix(f, inv, steps, f(s, xs[0]), xs[1..], ys);
    }
  }

  lemma {:induction false} AbsorbsSuffix<S(!new), X(!new)>(f: (S, X) -> S, inv: S -> bool, steps: set<X>, s: S,
                                                           xs: seq<X>, ys: seq<X>)
    requires Tame(f, inv, steps) && inv(s) && From(xs, steps) && forall y | y in ys :: y in xs
    ensures Fold(f, Fold(f, s, xs), ys) == Fold(f, s, xs)
    decreases |ys|
  {
    if ys != [] {
      Moves(f, inv, steps, s, ys[0], xs);
      Absorbs(f, inv, steps, s, ys[0], xs);
      AbsorbsSuffix(f, inv, steps, s, xs, ys[1..]);
    }
  }

  /** Two sequences of the same steps, in any order and with any repetitions,
      lead to the same state. */
  lemma SameSetSameFold<S(!new), X(!new)>(f: (S, X) -> S, inv: S -> bool, steps: set<X>, s: S,
                                          xs: seq<X>, ys: seq<X>)
    requires Tame(f, inv, steps) && inv(s) && From(xs, steps)
    requires forall x :: x in xs <==> x in ys
    ensures Fold(f, s, xs) == Fold(f, s, ys)
  {
    AbsorbsPrefix(f, inv, steps, s, xs, ys);
    AbsorbsSuffix(f, inv, steps, s, xs, ys);
  }
}
