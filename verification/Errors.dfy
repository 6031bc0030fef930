/** apps/core/errors.py:87-108 and 201-275: one failure is one AppError row, however many handlers
    persist it and however often it is converted on the way. */
module Errors {
  import opened Wrappers

  /** An exception: the one it was raised from, and the row it was persisted as. */
  class Failure {
    const message: string
    var cause: Failure?
    var appError: Option<nat>

    constructor (message: string, cause: Failure?)
      ensures this.message == message && this.cause == cause && appError == None
    {
      this.message, this.cause, this.appError := message, cause, None;
    }
  }

  /** The AppError table; a row's id is its position, its content the message. */
  class AppErrorTable {
    var rows: seq<string>

    constructor ()
      ensures rows == []
    {
      rows := [];
    }
  }

  /** All the exceptions alive, with no cause outside. Causes may run in a circle. */
  ghost predicate Closed(heap: set<Failure>)
    reads heap
  {
    forall e | e in heap :: e.cause == null || e.cause in heap
  }

  /** The first row found walking from e along the causes, past the exceptions already seen. */
  ghost function FirstPersisted(heap: set<Failure>, e: Failure?, seen: set<Failure>): Option<nat>
    reads heap
    requires Closed(heap) && (e == null || e in heap)
    decreases heap - seen
  {
    if e == null || e in seen then None
    else if e.appError.Some? then e.appError
    else FirstPersisted(heap, e.cause, seen + {e})
  }

  /** A chain of causes from e on which the last exception, and only the last, was persisted, as row r. */
  ghost predicate LeadsTo(path: seq<Failure>, e: Failure, r: nat)
    reads path
  {
    && path != [] && path[0] == e
    && (forall i | 0 <= i < |path| - 1 :: path[i].appError.None? && path[i].cause == path[i + 1])
    && path[|path| - 1].appError == Some(r)
  }

  lemma {:induction false} ChainDoesNotRepeat(path: seq<Failure>, e: Failure, r: nat, i: nat, j: nat)
    requires LeadsTo(path, e, r) && i < j < |path|
    ensures path[i] != path[j]
    decreases |path| - j
  {
    if j + 1 < |path| {
      ChainDoesNotRepeat(path, e, r, i + 1, j + 1);
    }
  }

  lemma {:induction false} WalkFollowsChain(heap: set<Failure>, path: seq<Failure>, e: Failure, r: nat, i: nat, seen: set<Failure>)
    requires Closed(heap) && LeadsTo(path, e, r) && i < |path| && path[i] in heap
    requires forall f :: f in seen ==> f in path[..i]
    ensures FirstPersisted(heap, path[i], seen) == Some(r)
    decreases |path| - i
  {
    if path[i] in seen {
      var k :| 0 <= k < i && path[..i][k] == path[i];
      ChainDoesNotRepeat(path, e, r, k, i);
    }
    if i + 1 < |path| {
      assert path[..i + 1] == path[..i] + [path[i]];
      WalkFollowsChain(heap, path, e, r, i + 1, seen + {path[i]});
    }
  }

  lemma {:induction false} WalkHasChain(heap: set<Failure>, e: Failure, seen: set<Failure>, r: nat) returns (path: seq<Failure>)
    requires Closed(heap) && e in heap && FirstPersisted(heap, e, seen) == Some(r)
    ensures LeadsTo(path, e, r)
    decreases heap - seen
  {
    if e.appError.Some? {
      path := [e];
    } else {
      var rest := WalkHasChain(heap, e.cause, seen + {e}, r);
      path := [e] + rest;
    }
  }

  /** The walk finds the row of the nearest persisted exception on the chain of causes, the exception itself
      first, and nothing exactly when no chain leads to one. */
  lemma NearestPersistedIff(heap: set<Failure>, e: Failure, r: nat)
    requires Closed(heap) && e in heap
    ensures FirstPersisted(heap, e, {}) == Some(r) <==> exists path :: LeadsTo(path, e, r)
  {
    if FirstPersisted(heap, e, {}) == Some(r) {
      var path := WalkHasChain(heap, e, {}, r);
    }
    if path :| LeadsTo(path, e, r) {
      WalkFollowsChain(heap, path, e, r, 0, {});
    }
  }

  /** _existing_app_error: the walk ends on every cause graph. */
  method ExistingAppError(exception: Failure, ghost heap: set<Failure>) returns (r: Option<nat>)
    requires Closed(heap) && exception in heap
    ensures r == FirstPersisted(heap, exception, {})
    ensures exception.appError.Some? ==> r == exception.appError
  {
    var seen: set<Failure> := {};
    var current: Failure? := exception;
    while current != null && current !in seen
      invariant current == null || current in heap
      invariant FirstPersisted(heap, current, seen) == FirstPersisted(heap, exception, {})
      decreases heap - seen
    {
      seen := seen + {current};
      if current.appError.Some? {
        return current.appError;
      }
      current := current.cause;
    }
    r := None;
  }

  /** persist_app_error: the row already there for this failure, or a new one that the exception from
      now on leads to. */
  method PersistAppError(table: AppErrorTable, exception: Failure, ghost heap: set<Failure>) returns (row: nat)
    requires Closed(heap) && exception in heap
    modifies table, exception`appError
    ensures match old(FirstPersisted(heap, exception, {}))
            case Some(r) => row == r && table.rows == old(table.rows) && exception.appError == old(exception.appError)
            case None => row == old(|table.rows|) && table.rows == old(table.rows) + [exception.message] && exception.appError == Some(row)
    ensures FirstPersisted(heap, exception, {}) == Some(row)
  {
    var alreadyPersisted := ExistingAppError(exception, heap);
    if alreadyPersisted.Some? {
      return alreadyPersisted.value;
    }
    row := |table.rows|;
    table.rows := table.rows + [exception.message];
    exception.appError := Some(row);
  }

  /** New exceptions do not change what the walk from an old one finds. */
  lemma {:induction false} NewFailuresDoNotMatter(heap: set<Failure>, e: Failure?, seen: set<Failure>, newer: set<Failure>)
    requires Closed(heap) && Closed(heap + newer) && heap !! newer && (e == null || e in heap)
    ensures FirstPersisted(heap + newer, e, seen + newer) == FirstPersisted(heap, e, seen)
    decreases heap - seen
  {
    if e != null && e !in seen && e.appError.None? {
      NewFailuresDoNotMatter(heap, e.cause, seen + {e}, newer);
      assert seen + newer + {e} == seen + {e} + newer;
    }
  }

  // ----- a failure on its way up

  /** What a layer does with the exception it catches. */
  datatype Event =
    | Persist          // persist_app_error(exc)
    | RaiseFrom        // raise Other(...) from exc
    | RaiseUnchained   // raise Other(...)

  /** Whether a row stands behind the exception in flight. */
  function KnownAfter(events: seq<Event>, known: bool): bool {
    if events == [] then known
    else match events[|events| - 1]
      case Persist => true
      case RaiseFrom => KnownAfter(events[..|events| - 1], known)
      case RaiseUnchained => false
  }

  /** Rows the propagation creates. */
  function RowsCreated(events: seq<Event>, known: bool): nat {
    if events == [] then 0
    else
      var before := events[..|events| - 1];
      RowsCreated(before, known)
      + (if events[|events| - 1] == Persist && !KnownAfter(before, known) then 1 else 0)
  }

  /** With every conversion chained, a new failure gets exactly one row if any layer persists it and
      none otherwise. */
  lemma {:induction false} ChainedFailureIsOneRow(events: seq<Event>)
    requires RaiseUnchained !in events
    ensures RowsCreated(events, false) == if Persist in events then 1 else 0
    ensures KnownAfter(events, false) <==> Persist in events
  {
    if events != [] {
      var n := |events| - 1;
      ChainedFailureIsOneRow(events[..n]);
      assert events == events[..n] + [events[n]];
    }
  }

  /** Each unchained conversion can cost one more row, and no more ... */
  lemma {:induction false} RowsBoundedByBreaks(events: seq<Event>)
    ensures RowsCreated(events, false) + (if KnownAfter(events, false) then 0 else 1) <= 1 + multiset(events)[RaiseUnchained]
  {
    if events != [] {
      var n := |events| - 1;
      RowsBoundedByBreaks(events[..n]);
      assert events == events[..n] + [events[n]];
    }
  }

  /** ... and each does when every layer persists what it catches. */
  lemma {:induction false} BreaksCanCostARowEach(n: nat) returns (events: seq<Event>)
    ensures multiset(events)[RaiseUnchained] == n && RowsCreated(events, false) == n + 1 && KnownAfter(events, false)
  {
    if n == 0 {
      events := [Persist];
      assert events[..0] == [];
    } else {
      var fewer := BreaksCanCostARowEach(n - 1);
      events := fewer + [RaiseUnchained] + [Persist];
      assert events[..|fewer| + 1] == fewer + [RaiseUnchained];
      assert (fewer + [RaiseUnchained])[..|fewer|] == fewer;
    }
  }

  /** Any propagation of an exception, on the real objects: the number of new rows, and, when every
      conversion is chained, one row that every layer gets back. Rows already there are untouched. */
  method Propagate(table: AppErrorTable, raised: Failure, events: seq<Event>, ghost alive: set<Failure>)
    returns (last: Failure, returned: seq<nat>, ghost heap: set<Failure>)
    requires Closed(alive) && raised in alive
    modifies table, alive`appError
    ensures alive <= heap && Closed(heap) && last in heap
    ensures old(table.rows) <= table.rows
    ensures |table.rows| == old(|table.rows|) + RowsCreated(events, old(FirstPersisted(alive, raised, {})).Some?)
    ensures FirstPersisted(heap, last, {}).Some? <==> KnownAfter(events, old(FirstPersisted(alive, raised, {})).Some?)
    ensures RaiseUnchained !in events ==>
              && (forall i | 0 <= i < |returned| :: FirstPersisted(heap, last, {}) == Some(returned[i]))
              && (old(FirstPersisted(alive, raised, {})).Some? ==> FirstPersisted(heap, last, {}) == old(FirstPersisted(alive, raised, {})))
  {
    last, returned, heap := raised, [], alive;
    ghost var first := FirstPersisted(alive, raised, {});
    var i := 0;
    while i < |events|
      invariant 0 <= i <= |events|
      invariant alive <= heap && Closed(heap) && last in heap && fresh(heap - alive)
      invariant forall e | e in alive :: e.cause == old(e.cause)
      invariant old(table.rows) <= table.rows
      invariant |table.rows| == old(|table.rows|) + RowsCreated(events[..i], first.Some?)
      invariant FirstPersisted(heap, last, {}).Some? <==> KnownAfter(events[..i], first.Some?)
      invariant RaiseUnchained !in events ==>
                  && (forall k | 0 <= k < |returned| :: FirstPersisted(heap, last, {}) == Some(returned[k]))
                  && (first.Some? ==> FirstPersisted(heap, last, {}) == first)
      modifies table, alive`appError, set f | f in heap - alive
    {
      assert events[..i + 1][..i] == events[..i];
      match events[i] {
        case Persist =>
          var row := PersistAppError(table, last, heap);
          returned := returned + [row];
        case RaiseFrom =>
          var converted := new Failure("converted", last);
          ghost var before := heap;
          heap := heap + {converted};
          NewFailuresDoNotMatter(before, last, {}, {converted});
          assert {} + {converted} == {converted};
          last := converted;
        case RaiseUnchained =>
          last := new Failure("converted", null);
          heap := heap + {last};
      }
      i := i + 1;
    }
    assert events[..i] == events;
  }
}
