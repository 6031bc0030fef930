/** Lists of concurrent processes, each at some program point: "some process is at ..." and
    "the points add up to ...", and what moving one process does to both. */
module Processes {
  ghost predicate Any<T>(ps: seq<T>, p: T -> bool) {
    exists i | 0 <= i < |ps| :: p(ps[i])
  }

  lemma AnyAt<T>(ps: seq<T>, p: T -> bool, i: nat)
    requires i < |ps| && p(ps[i])
    ensures Any(ps, p)
  {
  }

  lemma NoneAt<T>(ps: seq<T>, p: T -> bool, i: nat)
    requires i < |ps| && !Any(ps, p)
    ensures !p(ps[i])
  {
  }

  /** Moving one process keeps "some process is at p" when it does not leave p. */
  lemma AnyUpdate<T>(ps: seq<T>, p: T -> bool, i: nat, to: T)
    requires i < |ps| && Any(ps, p)
    requires p(ps[i]) ==> p(to)
    ensures Any(ps[i := to], p)
  {
    var k :| 0 <= k < |ps| && p(ps[k]);
    assert p(ps[i := to][k]);
  }

  lemma AnyAppend<T>(ps: seq<T>, p: T -> bool, more: T)
    requires Any(ps, p) || p(more)
    ensures Any(ps + [more], p)
  {
    if Any(ps, p) {
      var k :| 0 <= k < |ps| && p(ps[k]);
      assert p((ps + [more])[k]);
    } else {
      assert p((ps + [more])[|ps|]);
    }
  }

  function Sum<T>(ps: seq<T>, weight: T -> nat): nat {
    if ps == [] then 0 else Sum(ps[..|ps| - 1], weight) + weight(ps[|ps| - 1])
  }

  lemma SumAppend<T>(ps: seq<T>, weight: T -> nat, more: T)
    ensures Sum(ps + [more], weight) == Sum(ps, weight) + weight(more)
  {
    assert (ps + [more])[..|ps|] == ps;
  }

  lemma {:induction false} SumUpdate<T>(ps: seq<T>, weight: T -> nat, i: nat, to: T)
    requires i < |ps|
    ensures Sum(ps[i := to], weight) == Sum(ps, weight) - weight(ps[i]) + weight(to)
    ensures Sum(ps, weight) >= weight(ps[i])
  {
    var n := |ps| - 1;
    if i < n {
      SumUpdate(ps[..n], weight, i, to);
      assert ps[i := to][..n] == ps[..n][i := to];
    } else {
      assert ps[i := to][..n] == ps[..n];
    }
  }
}
