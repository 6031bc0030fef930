/** apps/operations/push.py:154-187: one publish callback per transaction, under nested savepoints.

    A connection keeps the callbacks registered in the open transaction, each with the savepoints
    that were open at that moment; rolling a savepoint back drops the callbacks registered under it.
    Saving a source-model row scans the list for the publish callback and registers it if absent.
    Outside a transaction a row commits at once and the callback runs at once. */
module OnCommit {

  /** One entry of run_on_commit: the savepoints open at registration, and whether the callback is
      schedule_data_versions_publish or some other function's. */
  datatype Hook = Hook(under: set<nat>, publish: bool)

  /** A saved source-model row, with the savepoints that can still undo it. */
  datatype Write = Write(under: set<nat>)

  datatype State = State(
    inAtomic: bool,          // a transaction is open
    savepoints: seq<nat>,    // open savepoints, innermost last
    nextId: nat,             // savepoint ids are never reused
    hooks: seq<Hook>,        // run_on_commit
    writes: seq<Write>,      // surviving source-model writes of the open transaction
    published: nat,          // publish callbacks run so far
    due: nat)                // commits so far that held a source-model write

  datatype Action = Begin | Savepoint | Release | Rollback | SaveRow | RegisterOther | CommitAll | RollbackAll

  const INIT := State(false, [], 0, [], [], 0, 0)

  predicate Enabled(s: State, a: Action) {
    match a
    case Begin => !s.inAtomic
    case Savepoint => s.inAtomic
    case Release => s.inAtomic && s.savepoints != []
    case Rollback => s.inAtomic && s.savepoints != []
    case SaveRow => true
    case RegisterOther => true
    case CommitAll => s.inAtomic && s.savepoints == []
    case RollbackAll => s.inAtomic && s.savepoints == []
  }

  function Open(s: State): set<nat> {
    set x | x in s.savepoints
  }

  predicate Registered(hooks: seq<Hook>) {
    exists i | 0 <= i < |hooks| :: hooks[i].publish
  }

  function CountPublish(hooks: seq<Hook>): nat {
    if hooks == [] then 0
    else CountPublish(hooks[..|hooks| - 1]) + (if hooks[|hooks| - 1].publish then 1 else 0)
  }

  function HooksOutside(hooks: seq<Hook>, sid: nat): (r: seq<Hook>)
    ensures forall h :: h in r <==> h in hooks && sid !in h.under
  {
    if hooks == [] then []
    else
      var n := |hooks| - 1;
      HooksOutside(hooks[..n], sid) + (if sid in hooks[n].under then [] else [hooks[n]])
  }

  function WritesOutside(writes: seq<Write>, sid: nat): (r: seq<Write>)
    ensures forall w :: w in r <==> w in writes && sid !in w.under
  {
    if writes == [] then []
    else
      var n := |writes| - 1;
      WritesOutside(writes[..n], sid) + (if sid in writes[n].under then [] else [writes[n]])
  }

  /** What the signal receiver does to the list of callbacks. */
  function WithPublish(s: State): seq<Hook> {
    if Registered(s.hooks) then s.hooks else s.hooks + [Hook(Open(s), true)]
  }

  function Next(s: State, a: Action): State {
    if !Enabled(s, a) then s else
    match a
    case Begin => s.(inAtomic := true)
    case Savepoint => s.(savepoints := s.savepoints + [s.nextId], nextId := s.nextId + 1)
    case Release => s.(savepoints := s.savepoints[..|s.savepoints| - 1])
    case Rollback =>
      var n := |s.savepoints| - 1;
      s.(savepoints := s.savepoints[..n],
         hooks := HooksOutside(s.hooks, s.savepoints[n]),
         writes := WritesOutside(s.writes, s.savepoints[n]))
    case SaveRow =>
      if s.inAtomic then s.(hooks := WithPublish(s), writes := s.writes + [Write(Open(s))])
      else s.(published := s.published + 1, due := s.due + 1)
    case RegisterOther =>
      if s.inAtomic then s.(hooks := s.hooks + [Hook(Open(s), false)]) else s
    case CommitAll =>
      s.(inAtomic := false, hooks := [], writes := [],
         published := s.published + CountPublish(s.hooks),
         due := s.due + (if s.writes == [] then 0 else 1))
    case RollbackAll => s.(inAtomic := false, hooks := [], writes := [])
  }

  function Run(s: State, acts: seq<Action>): State {
    if acts == [] then s else Next(Run(s, acts[..|acts| - 1]), acts[|acts| - 1])
  }

  // ----- the invariant

  ghost predicate Fresh(s: State) {
    && (forall i | 0 <= i < |s.savepoints| :: s.savepoints[i] < s.nextId)
    && (forall i, j | 0 <= i < j < |s.savepoints| :: s.savepoints[i] != s.savepoints[j])
    && (forall h, x | h in s.hooks && x in h.under :: x < s.nextId)
    && (forall w, x | w in s.writes && x in w.under :: x < s.nextId)
  }

  /** The publish callback dies only together with every surviving write: each savepoint that could
      still drop it also undoes every write, and one write is undone by exactly those savepoints. */
  ghost predicate Tied(s: State, h: Hook) {
    && (exists w | w in s.writes :: w.under == h.under)
    && (forall w, x | w in s.writes && x in h.under && x in s.savepoints :: x in w.under)
  }

  ghost predicate Inv(s: State) {
    && Fresh(s)
    && (!s.inAtomic ==> s.hooks == [] && s.writes == [] && s.savepoints == [])
    && CountPublish(s.hooks) <= 1
    && (s.writes != [] ==> Registered(s.hooks))
    && (forall h | h in s.hooks && h.publish :: Tied(s, h))
    && s.published == s.due
  }

  lemma {:induction false} CountRegistered(hooks: seq<Hook>)
    ensures CountPublish(hooks) > 0 <==> Registered(hooks)
  {
    if hooks != [] {
      var n := |hooks| - 1;
      CountRegistered(hooks[..n]);
      if Registered(hooks[..n]) {
        var k :| 0 <= k < n && hooks[..n][k].publish;
        assert hooks[k].publish;
      }
      if Registered(hooks) {
        var k :| 0 <= k < |hooks| && hooks[k].publish;
        if k < n { assert hooks[..n][k].publish; }
      }
    }
  }

  lemma {:induction false} CountOutside(hooks: seq<Hook>, sid: nat)
    ensures CountPublish(HooksOutside(hooks, sid)) <= CountPublish(hooks)
  {
    if hooks != [] {
      var n := |hooks| - 1;
      CountOutside(hooks[..n], sid);
      if sid in hooks[n].under {
        assert HooksOutside(hooks, sid) == HooksOutside(hooks[..n], sid);
      }
    }
  }

  lemma SaveRowKeepsInv(s: State)
    requires Inv(s) && s.inAtomic
    ensures Inv(Next(s, SaveRow))
  {
    var t := Next(s, SaveRow);
    var mine := Write(Open(s));
    CountRegistered(s.hooks);
    assert t.writes[|s.writes|] == mine;
    forall h | h in t.hooks && h.publish ensures Tied(t, h) {
      if h in s.hooks {
        var w :| w in s.writes && w.under == h.under;
        assert w in t.writes;
      } else {
        assert s.writes == [];
        assert mine in t.writes && mine.under == h.under;
      }
    }
    if !Registered(s.hooks) {
      assert t.hooks[|s.hooks|].publish;
    }
  }

  lemma RollbackKeepsTies(s: State, h: Hook)
    requires Inv(s) && Enabled(s, Rollback)
    requires h in s.hooks && h.publish && s.savepoints[|s.savepoints| - 1] !in h.under
    ensures Tied(Next(s, Rollback), h)
  {
    var t := Next(s, Rollback);
    var w :| w in s.writes && w.under == h.under;
    assert w in t.writes;
    forall w', x | w' in t.writes && x in h.under && x in t.savepoints ensures x in w'.under {
      assert x in s.savepoints && w' in s.writes;
    }
  }

  lemma RollbackKeepsCallback(s: State)
    requires Inv(s) && Enabled(s, Rollback) && Next(s, Rollback).writes != []
    ensures Registered(Next(s, Rollback).hooks)
  {
    var sid := s.savepoints[|s.savepoints| - 1];
    var t := Next(s, Rollback);
    var w := t.writes[0];
    assert w in t.writes;
    assert w in s.writes && sid !in w.under;
    var h :| h in s.hooks && h.publish;
    assert Tied(s, h) && sid in s.savepoints;
    assert h in t.hooks;
    var k :| 0 <= k < |t.hooks| && t.hooks[k] == h;
  }

  lemma RollbackKeepsInv(s: State)
    requires Inv(s) && Enabled(s, Rollback)
    ensures Inv(Next(s, Rollback))
  {
    var sid := s.savepoints[|s.savepoints| - 1];
    var t := Next(s, Rollback);
    CountOutside(s.hooks, sid);
    forall h | h in t.hooks && h.publish ensures Tied(t, h) {
      RollbackKeepsTies(s, h);
    }
    if t.writes != [] {
      RollbackKeepsCallback(s);
    }
  }

  lemma CallbacksMatchWrites(s: State)
    requires Inv(s)
    ensures CountPublish(s.hooks) == if s.writes == [] then 0 else 1
  {
    CountRegistered(s.hooks);
    if CountPublish(s.hooks) > 0 {
      var h :| h in s.hooks && h.publish;
      assert Tied(s, h);
    }
  }

  /** Opening or releasing a savepoint drops nothing; ids still to come were open under no callback. */
  lemma SavepointKeepsInv(s: State, a: Action)
    requires Inv(s) && Enabled(s, a) && (a.Savepoint? || a.Release?)
    ensures Inv(Next(s, a))
  {
    var t := Next(s, a);
    forall h | h in t.hooks && h.publish ensures Tied(t, h) {
      assert Tied(s, h);
      forall w, x | w in t.writes && x in h.under && x in t.savepoints ensures x in w.under {
        assert x < s.nextId;
        assert x in s.savepoints;
      }
    }
  }

  lemma RegisterOtherKeepsFresh(s: State)
    requires Fresh(s) && s.inAtomic
    ensures Fresh(Next(s, RegisterOther))
  {
  }

  lemma RegisterOtherKeepsInv(s: State)
    requires Inv(s) && s.inAtomic
    ensures Inv(Next(s, RegisterOther))
  {
    var t := Next(s, RegisterOther);
    RegisterOtherKeepsFresh(s);
    hide Fresh, Tied, CountPublish;
    if Registered(s.hooks) {
      var k :| 0 <= k < |s.hooks| && s.hooks[k].publish;
      assert t.hooks[k].publish;
    }
    forall h | h in t.hooks && h.publish ensures Tied(t, h) {
      assert h in s.hooks && Tied(s, h);
    }
  }

  lemma StepKeepsInv(s: State, a: Action)
    requires Inv(s)
    ensures Inv(Next(s, a))
  {
    if Enabled(s, a) {
      match a
      case SaveRow => if s.inAtomic { SaveRowKeepsInv(s); }
      case Rollback => RollbackKeepsInv(s);
      case Savepoint => SavepointKeepsInv(s, a);
      case Release => SavepointKeepsInv(s, a);
      case RegisterOther => if s.inAtomic { RegisterOtherKeepsInv(s); }
      case CommitAll => CallbacksMatchWrites(s);
      case _ =>
    }
  }

  lemma {:induction false} RunKeepsInv(acts: seq<Action>)
    ensures Inv(Run(INIT, acts))
  {
    if acts != [] {
      RunKeepsInv(acts[..|acts| - 1]);
      StepKeepsInv(Run(INIT, acts[..|acts| - 1]), acts[|acts| - 1]);
    }
  }

  /** Through any nesting of savepoints, releases and rollbacks the list holds at most one publish
      callback, and it holds one exactly when some source-model write still survives. */
  lemma OneCallbackIffAWriteSurvives(acts: seq<Action>)
    ensures var s := Run(INIT, acts); CountPublish(s.hooks) == if s.writes == [] then 0 else 1
  {
    RunKeepsInv(acts);
    CallbacksMatchWrites(Run(INIT, acts));
  }

  /** Over any run, the publish callback has run once for every commit that held a source-model
      write, and for no other commit. */
  lemma OnePublishPerWritingCommit(acts: seq<Action>)
    ensures Run(INIT, acts).published == Run(INIT, acts).due
  {
    RunKeepsInv(acts);
  }

  // ----- each action takes effect

  /** Committing runs the publish callback once when a source-model write survived and not otherwise,
      and leaves no open transaction, callback or write behind. */
  lemma CommitPublishesIffWritten(s: State)
    requires Inv(s) && s.inAtomic && s.savepoints == []
    ensures Enabled(s, CommitAll)
    ensures Next(s, CommitAll).published == s.published + (if s.writes != [] then 1 else 0)
    ensures Next(s, CommitAll).due == s.due + (if s.writes != [] then 1 else 0)
    ensures var t := Next(s, CommitAll); !t.inAtomic && t.savepoints == [] && t.hooks == [] && t.writes == []
  {
    CallbacksMatchWrites(s);
  }

  /** Rolling the whole transaction back runs nothing and leaves nothing. */
  lemma AbortPublishesNothing(s: State)
    requires s.inAtomic && s.savepoints == []
    ensures Enabled(s, RollbackAll)
    ensures Next(s, RollbackAll) == State(false, [], s.nextId, [], [], s.published, s.due)
  {
  }

  /** Inside a transaction a saved row is recorded under every open savepoint, and the first one still
      standing registers the callback under the same savepoints; outside, it publishes at once. */
  lemma SaveRowTakesEffect(s: State)
    requires Inv(s)
    ensures Enabled(s, SaveRow)
    ensures var t := Next(s, SaveRow);
            if s.inAtomic then
              && t.writes == s.writes + [Write(set x | x in s.savepoints)]
              && t.hooks == (if s.writes != [] then s.hooks else s.hooks + [Hook((set x | x in s.savepoints), true)])
              && t == s.(writes := t.writes, hooks := t.hooks)
            else t == s.(published := s.published + 1, due := s.due + 1)
  {
    CallbacksMatchWrites(s);
    CountRegistered(s.hooks);
  }

  /** Rolling back the innermost savepoint undoes exactly the writes and drops exactly the callbacks
      made under it; opening one or releasing it undoes and drops nothing. */
  lemma SavepointsTakeEffect(s: State)
    requires s.inAtomic
    ensures Enabled(s, Savepoint) && Next(s, Savepoint) == s.(savepoints := s.savepoints + [s.nextId], nextId := s.nextId + 1)
    ensures s.savepoints != [] ==>
              && Enabled(s, Release)
              && Next(s, Release) == s.(savepoints := s.savepoints[..|s.savepoints| - 1])
    ensures s.savepoints != [] ==>
              var t, last := Next(s, Rollback), s.savepoints[|s.savepoints| - 1];
              && Enabled(s, Rollback)
              && (forall w :: w in t.writes <==> w in s.writes && last !in w.under)
              && (forall h :: h in t.hooks <==> h in s.hooks && last !in h.under)
              && t == s.(savepoints := s.savepoints[..|s.savepoints| - 1], writes := t.writes, hooks := t.hooks)
  {
  }

  /** A transaction begins with nothing in it, another function's callback is only kept, and nothing but a
      write outside a transaction or a commit publishes. */
  lemma OthersPublishNothing(s: State, a: Action)
    requires Inv(s)
    ensures !s.inAtomic ==> Enabled(s, Begin) && Next(s, Begin) == s.(inAtomic := true)
    ensures Enabled(s, RegisterOther)
    ensures Next(s, RegisterOther) ==
            if s.inAtomic then s.(hooks := s.hooks + [Hook((set x | x in s.savepoints), false)]) else s
    ensures Next(s, a).published != s.published ==> a.CommitAll? || (a.SaveRow? && !s.inAtomic)
  {
  }

  /** A run is its actions one after the other. */
  lemma {:induction false} RunOn(s: State, first: seq<Action>, second: seq<Action>)
    ensures Run(s, first + second) == Run(Run(s, first), second)
    ensures forall a :: Run(s, [a]) == Next(s, a)
  {
    if second == [] {
      assert first + second == first;
    } else {
      var n := |second| - 1;
      RunOn(s, first, second[..n]);
      assert (first + second)[..|first| + n] == first + second[..n];
    }
    forall a ensures Run(s, [a]) == Next(s, a) {
      assert [a][..0] == [];
    }
  }

  // ----- the code on the connection it updates

  class Connection {
    var inAtomic: bool
    var savepoints: seq<nat>
    var nextId: nat
    var hooks: seq<Hook>
    var writes: seq<Write>
    var published: nat
    var due: nat

    ghost function View(): State
      reads this
    {
      State(inAtomic, savepoints, nextId, hooks, writes, published, due)
    }

    constructor ()
      ensures View() == INIT
    {
      inAtomic, savepoints, nextId, hooks, writes, published, due := false, [], 0, [], [], 0, 0;
    }

    /** transaction.on_commit: appended inside a transaction, run at once outside one. */
    method OnCommit(publish: bool)
      modifies this
      ensures View() == if old(inAtomic) then old(View()).(hooks := hooks) else old(View()).(published := published)
      ensures old(inAtomic) ==> hooks == old(hooks) + [Hook((set x | x in savepoints), publish)]
      ensures !old(inAtomic) ==> published == old(published) + (if publish then 1 else 0)
    {
      if inAtomic {
        hooks := hooks + [Hook((set x | x in savepoints), publish)];
      } else if publish {
        published := published + 1;
      }
    }

    /** publish_data_versions_after_commit: scan for the callback, register it when it is absent. */
    method PublishDataVersionsAfterCommit()
      requires Inv(View())
      modifies this
      ensures View() == if old(inAtomic) then old(View()).(hooks := WithPublish(old(View())))
                        else old(View()).(published := old(published) + 1)
      ensures old(inAtomic) ==> exists h | h in hooks :: h.publish
      ensures old(inAtomic) && (forall h | h in old(hooks) :: !h.publish) ==>
                hooks == old(hooks) + [Hook((set x | x in savepoints), true)]
    {
      var i := 0;
      var alreadyRegistered := false;
      while i < |hooks| && !alreadyRegistered
        invariant 0 <= i <= |hooks| && View() == old(View())
        invariant !alreadyRegistered ==> forall k | 0 <= k < i :: !hooks[k].publish
        invariant alreadyRegistered ==> Registered(hooks)
      {
        alreadyRegistered := hooks[i].publish;
        i := i + 1;
      }
      if alreadyRegistered {
        return;
      }
      OnCommit(true);
    }

    /** A source-model row is saved, which fires the signal receiver. */
    method SaveSourceRow()
      requires Inv(View())
      modifies this
      ensures View() == Next(old(View()), SaveRow) && Inv(View())
      ensures old(inAtomic) ==> writes == old(writes) + [Write(set x | x in savepoints)] && published == old(published)
      ensures !old(inAtomic) ==> published == old(published) + 1 && writes == old(writes)
    {
      StepKeepsInv(View(), SaveRow);
      PublishDataVersionsAfterCommit();
      if inAtomic {
        writes := writes + [Write(set x | x in savepoints)];
      } else {
        due := due + 1;
      }
    }
  }
}
