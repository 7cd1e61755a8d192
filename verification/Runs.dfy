/** Runs of a transition system, under any schedule. */
module Runs {

  ghost predicate IsRun<S(!new)>(tr: seq<S>, init: S -> bool, next: (S, S) -> bool) {
    && tr != []
    && init(tr[0])
    && forall i: nat {:trigger Follows(tr, next, i)} :: 0 < i < |tr| ==> Follows(tr, next, i)
  }

  ghost predicate Follows<S>(tr: seq<S>, next: (S, S) -> bool, i: nat)
    requires 0 < i < |tr|
  {
    next(tr[i - 1], tr[i])
  }

  lemma StepOf<S(!new)>(tr: seq<S>, init: S -> bool, next: (S, S) -> bool, i: nat)
    requires IsRun(tr, init, next) && 0 < i < |tr|
    ensures next(tr[i - 1], tr[i])
  {
    assert Follows(tr, next, i);
  }

  lemma OneMore<S(!new)>(tr: seq<S>, init: S -> bool, next: (S, S) -> bool, s: S)
    requires IsRun(tr, init, next) && next(tr[|tr| - 1], s)
    ensures IsRun(tr + [s], init, next)
  {
    forall i: nat | 0 < i < |tr + [s]|
      ensures Follows(tr + [s], next, i)
    {
      assert i < |tr| ==> Follows(tr, next, i);
    }
  }

  /** What holds at first and is kept by every step holds all along. */
  lemma {:induction false} Invariant<S(!new)>(tr: seq<S>, init: S -> bool, next: (S, S) -> bool, inv: S -> bool, i: nat)
    requires IsRun(tr, init, next) && i < |tr|
    requires forall s :: init(s) ==> inv(s)
    requires forall s, s' :: inv(s) && next(s, s') ==> inv(s')
    ensures inv(tr[i])
  {
    if i > 0 {
      Invariant(tr, init, next, inv, i - 1);
      StepOf(tr, init, next, i);
    }
  }

  /** So does a bound that every step uses up: runs end. */
  lemma {:induction false} Bounded<S(!new)>(tr: seq<S>, init: S -> bool, next: (S, S) -> bool, inv: S -> bool, left: S -> int, i: nat)
    requires IsRun(tr, init, next) && i < |tr|
    requires forall s :: init(s) ==> inv(s)
    requires forall s, s' :: inv(s) && next(s, s') ==> inv(s') && left(s') < left(s)
    requires forall s :: inv(s) ==> left(s) >= 0
    ensures left(tr[i]) <= left(tr[0]) - i
    ensures i <= left(tr[0])
  {
    Invariant(tr, init, next, inv, i);
    if i > 0 {
      Bounded(tr, init, next, inv, left, i - 1);
      Invariant(tr, init, next, inv, i - 1);
      StepOf(tr, init, next, i);
    }
  }

  ghost predicate GoesUp(p: nat -> bool, i: nat) { p(i) ==> p(i + 1) }

  /** What holds of a number and goes from each number to the next holds of all that follow. */
  lemma {:induction false} Upwards(p: nat -> bool, k: nat, n: nat)
    requires k <= n && p(k)
    requires forall i: nat {:trigger GoesUp(p, i)} :: k <= i < n ==> GoesUp(p, i)
    ensures p(n)
  {
    if k < n {
      Upwards(p, k, n - 1);
      assert GoesUp(p, n - 1);
    }
  }
}
