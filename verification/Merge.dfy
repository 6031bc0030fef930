/** apps/company/models.py:279-295: following a company's merge pointer to the final company. */
module Merge {
  import opened Wrappers

  /** merged_into of every company; a foreign key, so it always names a company of the table. */
  type Merged = map<nat, Option<nat>>

  ghost predicate Closed(into: Merged) {
    forall c | c in into && into[c].Some? :: into[c].value in into
  }

  /** Where the walk from `current` ends when the companies in `seen` were visited on the way. */
  ghost function Final(into: Merged, current: nat, seen: set<nat>): (r: nat)
    requires Closed(into) && current in into && current in seen && seen <= into.Keys
    ensures r in into
    decreases into.Keys - seen
  {
    if into[current].None? || into[current].value in seen then current
    else Final(into, into[current].value, seen + {into[current].value})
  }

  ghost function FinalCompany(into: Merged, company: nat): (r: nat)
    requires Closed(into) && company in into
    ensures r in into
  {
    Final(into, company, {company})
  }

  /** `path` follows merge pointers from its first company to its last without repeating one. */
  ghost predicate Chain(into: Merged, path: seq<nat>) {
    && path != []
    && (forall i | 0 <= i < |path| :: path[i] in into)
    && (forall i | 0 <= i < |path| - 1 :: into[path[i]] == Some(path[i + 1]))
    && (forall i, j | 0 <= i < j < |path| :: path[i] != path[j])
  }

  function Visited(path: seq<nat>): set<nat> {
    set x | x in path
  }

  lemma VisitedGrows(path: seq<nat>, next: nat)
    ensures Visited(path + [next]) == Visited(path) + {next}
  {
  }

  lemma ChainStart(into: Merged, company: nat)
    requires Closed(into) && company in into
    ensures Chain(into, [company]) && Visited([company]) == {company}
  {
  }

  /** The loop of get_final_company: it ends on every merge graph, having followed one chain without
      visiting a company twice, at a company that is not merged or points back into the chain. */
  method GetFinalCompany(into: Merged, company: nat) returns (current: nat, ghost path: seq<nat>)
    requires Closed(into) && company in into
    ensures current == FinalCompany(into, company)
    ensures Chain(into, path) && path[0] == company && path[|path| - 1] == current
    ensures into[current].None? || into[current].value in path
  {
    current := company;
    path := [company];
    var seen := {company};
    while into[current].Some?
      invariant Chain(into, path) && path[0] == company && path[|path| - 1] == current
      invariant seen == Visited(path) && seen <= into.Keys
      invariant Final(into, current, seen) == FinalCompany(into, company)
      decreases into.Keys - seen
    {
      var next := into[current].value;
      if next in seen {
        break;
      }
      path := path + [next];
      seen := seen + {next};
      current := next;
    }
  }

  /** The same, as a fact about the function. */
  lemma {:induction false} FinalFollowsAChain(into: Merged, path: seq<nat>) returns (full: seq<nat>)
    requires Closed(into) && Chain(into, path)
    ensures Chain(into, full) && path <= full
    ensures full[|full| - 1] == Final(into, path[|path| - 1], Visited(path))
    ensures var r := full[|full| - 1]; into[r].None? || into[r].value in full
    decreases into.Keys - Visited(path)
  {
    var current := path[|path| - 1];
    assert current in Visited(path) && Visited(path) <= into.Keys;
    if into[current].None? || into[current].value in Visited(path) {
      full := path;
    } else {
      var next := into[current].value;
      VisitedGrows(path, next);
      assert next in into.Keys - Visited(path);
      full := FinalFollowsAChain(into, path + [next]);
    }
  }

  /** A chain that ends at an unmerged company decides the answer for every company on it. */
  lemma {:induction false} ChainToTerminal(into: Merged, path: seq<nat>, i: nat, seen: set<nat>)
    requires Closed(into) && Chain(into, path) && into[path[|path| - 1]].None?
    requires i < |path| && seen <= into.Keys && path[i] in seen
    requires forall k | i < k < |path| :: path[k] !in seen
    ensures Final(into, path[i], seen) == path[|path| - 1]
    decreases |path| - i
  {
    if i < |path| - 1 {
      ChainToTerminal(into, path, i + 1, seen + {path[i + 1]});
    }
  }

  /** Everyone on a chain of merges that ends gets the same answer, the company at its end, which is
      not itself merged. */
  lemma EveryoneOnTheChainAgrees(into: Merged, path: seq<nat>, i: nat)
    requires Closed(into) && Chain(into, path) && into[path[|path| - 1]].None? && i < |path|
    ensures FinalCompany(into, path[i]) == path[|path| - 1]
  {
    ChainToTerminal(into, path, i, {path[i]});
  }

  /** The answer is an unmerged company exactly when the merges from here on do not run in a circle. */
  lemma FinalIsTerminalIffChainEnds(into: Merged, company: nat)
    requires Closed(into) && company in into
    ensures into[FinalCompany(into, company)].None? <==>
            exists path :: Chain(into, path) && path[0] == company && into[path[|path| - 1]].None?
  {
    ChainStart(into, company);
    var full := FinalFollowsAChain(into, [company]);
    assert full[0] == company;
    if path :| Chain(into, path) && path[0] == company && into[path[|path| - 1]].None? {
      EveryoneOnTheChainAgrees(into, path, 0);
    }
  }

  lemma FinalOfNextDiffers(into: Merged, company: nat)
    requires Closed(into) && company in into && into[company].Some? && into[company].value != company
    ensures FinalCompany(into, company) != company
  {
    var next := into[company].value;
    var path := [company, next];
    ChainStart(into, company);
    VisitedGrows([company], next);
    assert [company] + [next] == path;
    var full := FinalFollowsAChain(into, path);
    assert full[0] == company && |full| >= 2;
  }

  /** Asking again changes nothing if and only if the answer is an unmerged company or one merged into
      itself; in a longer circle the second answer is always another company. */
  lemma IdempotentIff(into: Merged, company: nat)
    requires Closed(into) && company in into
    ensures var r := FinalCompany(into, company);
            FinalCompany(into, r) == r <==> into[r] in {None, Some(r)}
  {
    var r := FinalCompany(into, company);
    if into[r].Some? && into[r].value != r {
      FinalOfNextDiffers(into, r);
    }
  }

  /** Two companies merged into each other are each other's answer. */
  lemma CircleDisagrees(into: Merged, a: nat, b: nat)
    requires a != b && into == map[a := Some(b), b := Some(a)]
    ensures Closed(into) && FinalCompany(into, a) == b && FinalCompany(into, b) == a
  {
    assert Final(into, b, {a} + {b}) == b;
    assert Final(into, a, {b} + {a}) == a;
  }

  /** On a circle the walk ends inside it: the answer's pointer leads back to a company it passed. */
  lemma CircularAnswerIsOnTheCircle(into: Merged, company: nat) returns (circle: seq<nat>)
    requires Closed(into) && company in into && into[FinalCompany(into, company)].Some?
    ensures Chain(into, circle) && circle[|circle| - 1] == FinalCompany(into, company)
    ensures into[circle[|circle| - 1]] == Some(circle[0])
  {
    ChainStart(into, company);
    var full := FinalFollowsAChain(into, [company]);
    var r := full[|full| - 1];
    var k :| 0 <= k < |full| && full[k] == into[r].value;
    circle := full[k..];
  }
}
