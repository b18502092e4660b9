/** The argument every "a stop completes" theorem uses, for any run: a measure that never grows, falls
    with each step that serves, and steps that serve for as long as the end is not reached. */
module Liveness {

  /** From good moments to good moments, until done: the measure does not grow, and falls if served. */
  ghost predicate Approaches(measure: nat -> nat, good: nat -> bool, done: nat -> bool, served: nat -> bool) {
    forall k: nat {:trigger served(k)} :: good(k) && !done(k) ==>
      good(k + 1) && measure(k + 1) <= measure(k) && (served(k) ==> measure(k + 1) < measure(k))
  }

  ghost predicate ServedFrom(done: nat -> bool, served: nat -> bool, i: nat) {
    exists j: nat :: i <= j && (done(j) || served(j))
  }

  /** Weak fairness: until done, the step that is waited for is not put off for ever. */
  ghost predicate Fair(done: nat -> bool, served: nat -> bool) {
    forall i: nat :: ServedFrom(done, served, i)
  }

  lemma {:induction false} Until(measure: nat -> nat, good: nat -> bool, done: nat -> bool, served: nat -> bool,
                                 i: nat, j: nat)
    requires Approaches(measure, good, done, served) && good(i) && i <= j
    requires forall k: nat :: i <= k < j ==> !done(k)
    ensures good(j) && measure(j) <= measure(i)
    decreases j - i
  {
    if i < j {
      var now := served(i);
      Until(measure, good, done, served, i + 1, j);
    }
  }

  lemma {:induction false} First(p: nat -> bool, i: nat, j: nat) returns (k: nat)
    requires i <= j && p(j)
    ensures i <= k <= j && p(k)
    ensures forall m: nat :: i <= m < k ==> !p(m)
    decreases j - i
  {
    if p(i) {
      k := i;
    } else {
      k := First(p, i + 1, j);
    }
  }

  lemma {:induction false} Ends(measure: nat -> nat, good: nat -> bool, done: nat -> bool, served: nat -> bool, i: nat)
    returns (j: nat)
    requires Approaches(measure, good, done, served) && Fair(done, served) && good(i)
    ensures i <= j && done(j) && good(j)
    decreases measure(i)
  {
    assert ServedFrom(done, served, i);
    j :| i <= j && (done(j) || served(j));
    var either := (m: nat) => done(m) || served(m);
    var k := First(either, i, j);
    forall m: nat | i <= m < k ensures !done(m) {
      assert !either(m);
    }
    Until(measure, good, done, served, i, k);
    if done(k) {
      j := k;
    } else {
      j := Ends(measure, good, done, served, k + 1);
    }
  }
}
