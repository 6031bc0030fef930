/** apps/job/tasks.py:34-158: the JobSummary.pdf refresh queue.

    Two flags in the shared cache: QUEUED keeps one refresh task pending, RUNNING keeps one run
    active. Every cache access, dispatch and refresh pass is one atomic step, and the steps of
    committers, workers and follow-ups interleave freely; a task may be delivered more than once and
    the QUEUED key may time out. No step raises and RUNNING does not time out. */
module PdfQueue {
  import opened Processes

  datatype Pc =
    | Committed(change: nat)    // change committed; _queue_job_summary_pdf_refresh not yet run
    | Queueing                  // added QUEUED; task not yet dispatched
    | TaskPending               // task waiting in the broker
    | Acquired                  // added RUNNING; QUEUED not yet deleted
    | Cleared                   // deleted QUEUED; refresh pass not yet started
    | Refreshed(remaining: bool)// pass done; QUEUED not yet tested
    | Checked(followUp: bool)   // QUEUED tested; RUNNING not yet deleted
    | FollowUp                  // RUNNING deleted, follow-up required; QUEUED not yet deleted
    | FollowUpCleared           // QUEUED deleted; about to queue again
    | Done

  /** `backlog` counts stale jobs; `asked` is the newest change whose callback has run, `covered` the
      newest change committed before the last pass started, `passes` how many passes have run. */
  datatype State = State(
    changes: nat, backlog: nat, queued: bool, running: bool, procs: seq<Pc>,
    asked: nat, covered: nat, passes: nat, dispatched: nat)

  datatype Action =
    | Commit            // a change that makes one more job stale commits
    | Callback(i: nat)  // cache.add(QUEUED) after commit
    | Dispatch(i: nat)  // apply_async
    | Deliver(i: nat)   // a worker takes the task: cache.add(RUNNING)
    | ClearQueued(i: nat)
    | Pass(i: nat)      // reneweststale(limit)
    | Check(i: nat)     // remaining or cache.get(QUEUED)
    | Release(i: nat)   // cache.delete(RUNNING)
    | ClearForFollowUp(i: nat)
    | Requeue(i: nat)   // cache.add(QUEUED) for the follow-up
    | Redeliver
    | ExpireQueued      // the QUEUED key times out

  const INIT := State(0, 0, false, false, [], 0, 0, 0, 0)

  predicate Enabled(s: State, a: Action) {
    match a
    case Commit => true
    case Redeliver => s.dispatched > 0
    case ExpireQueued => s.queued
    case Callback(i) => i < |s.procs| && s.procs[i].Committed?
    case Dispatch(i) => i < |s.procs| && s.procs[i].Queueing?
    case Deliver(i) => i < |s.procs| && s.procs[i].TaskPending?
    case ClearQueued(i) => i < |s.procs| && s.procs[i].Acquired?
    case Pass(i) => i < |s.procs| && s.procs[i].Cleared?
    case Check(i) => i < |s.procs| && s.procs[i].Refreshed?
    case Release(i) => i < |s.procs| && s.procs[i].Checked?
    case ClearForFollowUp(i) => i < |s.procs| && s.procs[i].FollowUp?
    case Requeue(i) => i < |s.procs| && s.procs[i].FollowUpCleared?
  }

  function Max(a: nat, b: nat): nat {
    if a > b then a else b
  }

  function Min(a: nat, b: nat): nat {
    if a < b then a else b
  }

  function Next(s: State, a: Action, limit: nat): State {
    if !Enabled(s, a) then s else
    match a
    case Commit =>
      s.(changes := s.changes + 1, backlog := s.backlog + 1, procs := s.procs + [Committed(s.changes + 1)])
    case Redeliver => s.(procs := s.procs + [TaskPending])
    case ExpireQueued => s.(queued := false)
    case Callback(i) =>
      s.(asked := Max(s.asked, s.procs[i].change), queued := true,
         procs := s.procs[i := if s.queued then Done else Queueing])
    case Dispatch(i) =>
      s.(dispatched := s.dispatched + 1, procs := s.procs[i := Done] + [TaskPending])
    case Deliver(i) =>
      s.(running := true, procs := s.procs[i := if s.running then Done else Acquired])
    case ClearQueued(i) => s.(queued := false, procs := s.procs[i := Cleared])
    case Pass(i) =>
      s.(covered := s.changes, passes := s.passes + 1, backlog := s.backlog - Min(limit, s.backlog),
         procs := s.procs[i := Refreshed(s.backlog > limit)])
    case Check(i) => s.(procs := s.procs[i := Checked(s.procs[i].remaining || s.queued)])
    case Release(i) =>
      s.(running := false, procs := s.procs[i := if s.procs[i].followUp then FollowUp else Done])
    case ClearForFollowUp(i) => s.(queued := false, procs := s.procs[i := FollowUpCleared])
    case Requeue(i) =>
      s.(queued := true, procs := s.procs[i := if s.queued then Done else Queueing])
  }

  function Run(s: State, acts: seq<Action>, limit: nat): State {
    if acts == [] then s else Next(Run(s, acts[..|acts| - 1], limit), acts[|acts| - 1], limit)
  }

  predicate CanRun(s: State, acts: seq<Action>, limit: nat) {
    acts == [] ||
    (CanRun(s, acts[..|acts| - 1], limit) && Enabled(Run(s, acts[..|acts| - 1], limit), acts[|acts| - 1]))
  }

  // ----- what a step changes

  /** Field by field: which steps move it, and by how much. */
  lemma StepMovesFields(s: State, a: Action, limit: nat)
    requires Enabled(s, a)
    ensures var t := Next(s, a, limit);
            && t.changes == s.changes + (if a.Commit? then 1 else 0)
            && t.passes == s.passes + (if a.Pass? then 1 else 0)
            && t.dispatched == s.dispatched + (if a.Dispatch? then 1 else 0)
            && t.covered == (if a.Pass? then s.changes else s.covered)
            && t.asked == (if a.Callback? && s.procs[a.i].change > s.asked then s.procs[a.i].change else s.asked)
            && t.backlog == (if a.Commit? then s.backlog + 1
                             else if a.Pass? then (if s.backlog > limit then s.backlog - limit else 0)
                             else s.backlog)
            && (t.queued <==> a.Callback? || a.Requeue? || (s.queued && !a.ClearQueued? && !a.ClearForFollowUp? && !a.ExpireQueued?))
            && (t.running <==> a.Deliver? || (s.running && !a.Release?))
  {
  }

  /** A process moves by its own steps alone: the program that each of them follows. */
  lemma StepMovesOneProcess(s: State, a: Action, limit: nat)
    requires Enabled(s, a)
    ensures a.Commit? || a.Redeliver? || a.ExpireQueued? || a.i < |s.procs|
    ensures Enabled(s, Commit) && (Enabled(s, Redeliver) <==> s.dispatched > 0) && (Enabled(s, ExpireQueued) <==> s.queued)
    ensures var t := Next(s, a, limit);
            if a.Commit? then t.procs == s.procs + [Committed(s.changes + 1)]
            else if a.Redeliver? then t.procs == s.procs + [TaskPending]
            else if a.ExpireQueued? then t.procs == s.procs
            else
              var after := match s.procs[a.i]
                case Committed(_) => if s.queued then Done else Queueing
                case Queueing => Done
                case TaskPending => if s.running then Done else Acquired
                case Acquired => Cleared
                case Cleared => Refreshed(s.backlog > limit)
                case Refreshed(remaining) => Checked(remaining || s.queued)
                case Checked(followUp) => if followUp then FollowUp else Done
                case FollowUp => FollowUpCleared
                case FollowUpCleared => if s.queued then Done else Queueing
                case Done => Done;
              t.procs == s.procs[a.i := after] + if a.Dispatch? then [TaskPending] else []
  {
  }

  /** Every change newer than all those asked for still has its callback to run. */
  ghost predicate AskedOrWaiting(s: State) {
    forall c: nat | s.asked < c <= s.changes :: Committed(c) in s.procs
  }

  lemma StepKeepsAskedOrWaiting(s: State, a: Action, limit: nat)
    requires AskedOrWaiting(s)
    ensures AskedOrWaiting(Next(s, a, limit))
  {
    var t := Next(s, a, limit);
    forall c: nat | t.asked < c <= t.changes ensures Committed(c) in t.procs {
      if a.Commit? && c == t.changes {
        assert t.procs[|s.procs|] == Committed(c);
      } else {
        var k :| 0 <= k < |s.procs| && s.procs[k] == Committed(c);
        assert t.procs[k] == Committed(c);
      }
    }
  }

  /** Over any run: a change is counted as asked for, or its callback is still to run; and the stale jobs
      not yet refreshed are what the passes, a batch each at most, have left of the changes. */
  lemma {:induction false} RunAccounts(acts: seq<Action>, limit: nat)
    ensures var s := Run(INIT, acts, limit);
            && AskedOrWaiting(s)
            && s.backlog <= s.changes <= s.backlog + limit * s.passes
  {
    if acts != [] {
      var n := |acts| - 1;
      RunAccounts(acts[..n], limit);
      var before := Run(INIT, acts[..n], limit);
      StepKeepsAskedOrWaiting(before, acts[n], limit);
      if Enabled(before, acts[n]) { StepMovesFields(before, acts[n], limit); }
      hide Next, AskedOrWaiting;
      assert limit * (before.passes + 1) == limit * before.passes + limit;
    }
  }

  // ----- mutual exclusion

  predicate InRun(p: Pc) {
    p.Acquired? || p.Cleared? || p.Refreshed? || p.Checked?
  }

  ghost predicate AtMostOne(ps: seq<Pc>) {
    forall i, j | 0 <= i < j < |ps| :: !(InRun(ps[i]) && InRun(ps[j]))
  }

  /** RUNNING is held exactly while some run is between acquire and release, and there is only one. */
  ghost predicate Exclusive(s: State) {
    (s.running <==> Any(s.procs, InRun)) && AtMostOne(s.procs)
  }

  lemma OnlyOneRuns(ps: seq<Pc>, i: nat, k: nat)
    requires AtMostOne(ps) && i < |ps| && k < |ps| && i != k && InRun(ps[i])
    ensures !InRun(ps[k])
  {
    var low, high := if i < k then i else k, if i < k then k else i;
    assert !(InRun(ps[low]) && InRun(ps[high]));
  }

  /** A step inside or outside a run moves nobody in or out. */
  lemma MoveKeepsExclusive(ps: seq<Pc>, i: nat, to: Pc)
    requires i < |ps| && InRun(ps[i]) == InRun(to) && AtMostOne(ps)
    ensures AtMostOne(ps[i := to])
    ensures Any(ps[i := to], InRun) <==> Any(ps, InRun)
  {
    var qs := ps[i := to];
    if Any(ps, InRun) { AnyUpdate(ps, InRun, i, to); }
    if Any(qs, InRun) {
      AnyUpdate(qs, InRun, i, ps[i]);
      assert qs[i := ps[i]] == ps;
    }
  }

  lemma AppendKeepsExclusive(ps: seq<Pc>, more: Pc)
    requires !InRun(more) && AtMostOne(ps)
    ensures AtMostOne(ps + [more])
    ensures Any(ps + [more], InRun) <==> Any(ps, InRun)
  {
    if Any(ps, InRun) { AnyAppend(ps, InRun, more); }
    if Any(ps + [more], InRun) {
      var k :| 0 <= k < |ps + [more]| && InRun((ps + [more])[k]);
      AnyAt(ps, InRun, k);
    }
  }

  lemma DeliverKeepsExclusive(s: State, i: nat, limit: nat)
    requires Enabled(s, Deliver(i)) && Exclusive(s)
    ensures Exclusive(Next(s, Deliver(i), limit))
  {
    if s.running {
      MoveKeepsExclusive(s.procs, i, Done);
    } else {
      var t := Next(s, Deliver(i), limit);
      AnyAt(t.procs, InRun, i);
      forall k | 0 <= k < |t.procs| && k != i ensures !InRun(t.procs[k]) {
        NoneAt(s.procs, InRun, k);
      }
    }
  }

  lemma ReleaseKeepsExclusive(s: State, i: nat, limit: nat)
    requires Enabled(s, Release(i)) && Exclusive(s)
    ensures Exclusive(Next(s, Release(i), limit))
  {
    var t := Next(s, Release(i), limit);
    forall k | 0 <= k < |t.procs| ensures !InRun(t.procs[k]) {
      if k != i { OnlyOneRuns(s.procs, i, k); }
    }
  }

  lemma ExclusiveKept(s: State, a: Action, limit: nat)
    requires Enabled(s, a) && Exclusive(s)
    ensures Exclusive(Next(s, a, limit))
  {
    if a.Deliver? {
      DeliverKeepsExclusive(s, a.i, limit);
    } else if a.Release? {
      ReleaseKeepsExclusive(s, a.i, limit);
    } else if a.Commit? {
      AppendKeepsExclusive(s.procs, Committed(s.changes + 1));
    } else if a.Redeliver? {
      AppendKeepsExclusive(s.procs, TaskPending);
    } else if !a.ExpireQueued? {
      MoveKeepsExclusive(s.procs, a.i, Next(s, a, limit).procs[a.i]);
      if a.Dispatch? { AppendKeepsExclusive(s.procs[a.i := Done], TaskPending); }
    }
  }

  // ----- no lost wakeup

  /** A process that stands behind a set QUEUED flag: it will dispatch, deliver, clear or test it. */
  predicate Behind(p: Pc) {
    p.Queueing? || p.TaskPending? || p.Acquired? || p.Cleared? || p.Refreshed? || p == Checked(true) || p.FollowUp?
  }

  /** ... or is about to set it again. */
  predicate Outstanding(p: Pc) {
    Behind(p) || p.FollowUpCleared?
  }

  /** A process that will add QUEUED and dispatch a task of its own. */
  predicate AboutToQueue(p: Pc) {
    p.FollowUp? || p.FollowUpCleared?
  }

  predicate Unannounced(p: Pc) {
    p.Committed?
  }

  /** A change whose callback has run but which no pass has yet covered. */
  predicate Unserved(s: State) {
    s.asked > s.covered
  }

  /** Stale jobs that no callback still to run will announce. */
  ghost predicate StaleAndAnnounced(s: State) {
    s.backlog > 0 && !Any(s.procs, Unannounced)
  }

  /** Work that was asked for, or that nobody will ask for again. */
  ghost predicate WorkLeft(s: State) {
    Unserved(s) || StaleAndAnnounced(s)
  }

  /** While a run that left nothing behind waits to test QUEUED, work that has come up since is flagged,
      or a follow-up will take it. */
  ghost predicate TestWillSee(s: State, p: Pc) {
    p == Refreshed(false) ==> s.queued || Any(s.procs, AboutToQueue) || !WorkLeft(s)
  }

  /** The run about to test would have been the only one to see the flag that times out. */
  ghost predicate TimeoutHarms(s: State) {
    Refreshed(false) in s.procs && !Any(s.procs, AboutToQueue) && WorkLeft(s)
  }

  /** No task is delivered between a run's negative test of QUEUED and its release of RUNNING: what
      the 30-second countdown buys, and what taking those two lines as one step would guarantee. And
      QUEUED does not time out where only the run about to test would have seen it. */
  ghost predicate Timely(s: State, a: Action) {
    && (a.Deliver? && s.running ==> Checked(false) !in s.procs)
    && (a.ExpireQueued? ==> !TimeoutHarms(s))
  }

  ghost predicate AllTimely(s: State, acts: seq<Action>, limit: nat) {
    acts == [] ||
    (AllTimely(s, acts[..|acts| - 1], limit) && Timely(Run(s, acts[..|acts| - 1], limit), acts[|acts| - 1]))
  }

  /** Nothing speaks of a change that has not been made. */
  ghost predicate Bounded(s: State) {
    && s.covered <= s.changes && s.asked <= s.changes
    && (forall i | 0 <= i < |s.procs| && s.procs[i].Committed? :: s.procs[i].change <= s.changes)
  }

  ghost predicate Inv(s: State) {
    && Exclusive(s)
    && (s.queued ==> Any(s.procs, Behind))
    && (WorkLeft(s) ==> Any(s.procs, Outstanding))
    && (forall i | 0 <= i < |s.procs| :: TestWillSee(s, s.procs[i]))
    && Bounded(s)
  }

  lemma BehindIsOutstanding(ps: seq<Pc>)
    requires Any(ps, Behind)
    ensures Any(ps, Outstanding)
  {
    var k :| 0 <= k < |ps| && Behind(ps[k]);
    AnyAt(ps, Outstanding, k);
  }

  /** The run that makes a delivered task skip has not yet tested QUEUED, or has found it set. */
  lemma SkippedTaskLeavesARunner(s: State, i: nat, limit: nat)
    requires Inv(s) && Enabled(s, Deliver(i)) && s.running && Timely(s, Deliver(i))
    ensures Any(Next(s, Deliver(i), limit).procs, Behind)
  {
    var k :| 0 <= k < |s.procs| && InRun(s.procs[k]);
    assert s.procs[k] in s.procs;
    AnyAt(Next(s, Deliver(i), limit).procs, Behind, k);
  }

  lemma FlagKept(s: State, a: Action, limit: nat)
    requires Inv(s) && Enabled(s, a) && Timely(s, a) && Next(s, a, limit).queued
    ensures Any(Next(s, a, limit).procs, Behind)
  {
    var t := Next(s, a, limit);
    if a.Commit? {
      AnyAppend(s.procs, Behind, Committed(s.changes + 1));
    } else if a.Redeliver? {
      AnyAppend(s.procs, Behind, TaskPending);
    } else if a.Dispatch? {
      AnyAppend(s.procs[a.i := Done], Behind, TaskPending);
    } else if a.Deliver? && s.running {
      SkippedTaskLeavesARunner(s, a.i, limit);
    } else if Behind(t.procs[a.i]) {
      AnyAt(t.procs, Behind, a.i);
    } else {
      AnyUpdate(s.procs, Behind, a.i, t.procs[a.i]);
    }
  }

  lemma SeenAt(s: State, i: nat)
    requires Inv(s) && i < |s.procs|
    ensures TestWillSee(s, s.procs[i])
  {
  }

  lemma StillAnnounced(s: State, a: Action, limit: nat)
    requires Enabled(s, a) && !a.Callback? && StaleAndAnnounced(Next(s, a, limit))
    ensures StaleAndAnnounced(s)
  {
    if Any(s.procs, Unannounced) {
      if a.Commit? {
        AnyAppend(s.procs, Unannounced, Committed(s.changes + 1));
      } else if a.Redeliver? {
        AnyAppend(s.procs, Unannounced, TaskPending);
      } else if !a.ExpireQueued? {
        AnyUpdate(s.procs, Unannounced, a.i, Next(s, a, limit).procs[a.i]);
        if a.Dispatch? { AnyAppend(s.procs[a.i := Done], Unannounced, TaskPending); }
      }
    } else if a.Commit? {
      AnyAppend(s.procs, Unannounced, Committed(s.changes + 1));
    }
  }

  lemma WorkKept(s: State, a: Action, limit: nat)
    requires Inv(s) && Enabled(s, a) && Timely(s, a)
    requires WorkLeft(Next(s, a, limit))
    ensures Any(Next(s, a, limit).procs, Outstanding)
  {
    var t := Next(s, a, limit);
    if t.queued {
      FlagKept(s, a, limit);
      BehindIsOutstanding(t.procs);
    } else {
      if StaleAndAnnounced(t) { StillAnnounced(s, a, limit); }
      if a.Commit? {
        AnyAppend(s.procs, Outstanding, Committed(s.changes + 1));
      } else if a.Redeliver? {
        AnyAppend(s.procs, Outstanding, TaskPending);
      } else if a.ExpireQueued? {
        assert Any(s.procs, Outstanding);
      } else if a.Dispatch? {
        AnyAppend(s.procs[a.i := Done], Outstanding, TaskPending);
      } else if a.Deliver? && s.running {
        SkippedTaskLeavesARunner(s, a.i, limit);
        BehindIsOutstanding(t.procs);
      } else if Outstanding(t.procs[a.i]) {
        AnyAt(t.procs, Outstanding, a.i);
      } else if a.Check? {
        SeenAt(s, a.i);
        var k :| 0 <= k < |s.procs| && AboutToQueue(s.procs[k]);
        AnyAt(t.procs, Outstanding, k);
      } else {
        AnyUpdate(s.procs, Outstanding, a.i, t.procs[a.i]);
      }
    }
  }

  /** Only one run exists, so a step of the run itself meets no other waiting to test. */
  lemma NoOtherTest(s: State, i: nat, k: nat)
    requires Exclusive(s) && i < |s.procs| && k < |s.procs| && i != k && InRun(s.procs[i])
    ensures !s.procs[k].Refreshed?
  {
    OnlyOneRuns(s.procs, i, k);
  }

  lemma AboutToQueueKept(s: State, a: Action, limit: nat)
    requires Enabled(s, a) && Any(s.procs, AboutToQueue) && !a.Requeue?
    ensures Any(Next(s, a, limit).procs, AboutToQueue)
  {
    if a.Commit? {
      AnyAppend(s.procs, AboutToQueue, Committed(s.changes + 1));
    } else if a.Redeliver? {
      AnyAppend(s.procs, AboutToQueue, TaskPending);
    } else if !a.ExpireQueued? {
      AnyUpdate(s.procs, AboutToQueue, a.i, Next(s, a, limit).procs[a.i]);
      if a.Dispatch? { AnyAppend(s.procs[a.i := Done], AboutToQueue, TaskPending); }
    }
  }

  lemma TestKept(s: State, a: Action, limit: nat, k: nat)
    requires Inv(s) && Enabled(s, a) && Timely(s, a) && k < |Next(s, a, limit).procs|
    ensures TestWillSee(Next(s, a, limit), Next(s, a, limit).procs[k])
  {
    var t := Next(s, a, limit);
    if t.procs[k] == Refreshed(false) && !t.queued {
      if a == Pass(k) {
        assert !WorkLeft(t);
      } else if a.ClearForFollowUp? {
        AnyAt(t.procs, AboutToQueue, a.i);
      } else if a.ClearQueued? || a.Pass? {
        NoOtherTest(s, a.i, k);
        assert false;
      } else {
        SeenAt(s, k);
        if Any(s.procs, AboutToQueue) {
          AboutToQueueKept(s, a, limit);
        } else if StaleAndAnnounced(t) {
          StillAnnounced(s, a, limit);
        }
      }
    }
  }

  lemma StepKeepsInv(s: State, a: Action, limit: nat)
    requires Inv(s) && Enabled(s, a) && Timely(s, a)
    ensures Inv(Next(s, a, limit))
  {
    var t := Next(s, a, limit);
    ExclusiveKept(s, a, limit);
    if t.queued { FlagKept(s, a, limit); }
    if WorkLeft(t) { WorkKept(s, a, limit); }
    forall k | 0 <= k < |t.procs| ensures TestWillSee(t, t.procs[k]) {
      TestKept(s, a, limit, k);
    }
  }

  lemma {:induction false} TimelyRunsKeepInv(s: State, acts: seq<Action>, limit: nat)
    requires Inv(s) && CanRun(s, acts, limit) && AllTimely(s, acts, limit)
    ensures Inv(Run(s, acts, limit))
  {
    if acts != [] {
      TimelyRunsKeepInv(s, acts[..|acts| - 1], limit);
      StepKeepsInv(Run(s, acts[..|acts| - 1], limit), acts[|acts| - 1], limit);
    }
  }

  lemma RunKeepsInv(acts: seq<Action>, limit: nat)
    requires CanRun(INIT, acts, limit) && AllTimely(INIT, acts, limit)
    ensures Inv(Run(INIT, acts, limit))
  {
    assert Inv(INIT);
    TimelyRunsKeepInv(INIT, acts, limit);
  }

  /** At most one run is ever between acquire and release, timely or not. */
  lemma {:induction false} RunsExclude(acts: seq<Action>, limit: nat)
    requires CanRun(INIT, acts, limit)
    ensures Exclusive(Run(INIT, acts, limit))
  {
    if acts != [] {
      RunsExclude(acts[..|acts| - 1], limit);
      ExclusiveKept(Run(INIT, acts[..|acts| - 1], limit), acts[|acts| - 1], limit);
    }
  }

  /** Every change whose callback has run is covered by a pass that started after it committed, or a
      task is pending, a runner has not yet tested QUEUED or found it set, or a follow-up is about to
      be queued. */
  lemma NoLostWakeup(acts: seq<Action>, limit: nat)
    requires CanRun(INIT, acts, limit) && AllTimely(INIT, acts, limit)
    ensures var s := Run(INIT, acts, limit); s.asked <= s.covered || Any(s.procs, Outstanding)
  {
    RunKeepsInv(acts, limit);
  }

  ghost predicate Quiescent(s: State) {
    forall i | 0 <= i < |s.procs| :: s.procs[i].Done?
  }

  /** When nothing is outstanding every stale job has been refreshed and both flags are down. */
  lemma QuiescenceMeansDrained(acts: seq<Action>, limit: nat)
    requires CanRun(INIT, acts, limit) && AllTimely(INIT, acts, limit)
    requires Quiescent(Run(INIT, acts, limit))
    ensures var s := Run(INIT, acts, limit); s.backlog == 0 && s.asked <= s.covered && !s.queued && !s.running
  {
    RunKeepsInv(acts, limit);
    var s := Run(INIT, acts, limit);
    assert !Any(s.procs, Outstanding) && !Any(s.procs, Behind) && !Any(s.procs, Unannounced);
  }

  // ----- concrete runs

  lemma Then(s0: State, acts: seq<Action>, s: State, a: Action, limit: nat) returns (acts': seq<Action>, s': State)
    requires CanRun(s0, acts, limit) && s == Run(s0, acts, limit) && Enabled(s, a)
    ensures acts' == acts + [a] && s' == Next(s, a, limit)
    ensures CanRun(s0, acts', limit) && s' == Run(s0, acts', limit)
    ensures AllTimely(s0, acts', limit) <==> AllTimely(s0, acts, limit) && Timely(s, a)
  {
    assert (acts + [a])[..|acts|] == acts;
    acts', s' := acts + [a], Next(s, a, limit);
  }

  lemma RunNothing(s: State, limit: nat)
    ensures CanRun(s, [], limit) && Run(s, [], limit) == s && AllTimely(s, [], limit)
  {
  }

  lemma RunOneMore(s: State, acts: seq<Action>, a: Action, limit: nat)
    ensures Run(s, acts + [a], limit) == Next(Run(s, acts, limit), a, limit)
    ensures CanRun(s, acts + [a], limit) <==> CanRun(s, acts, limit) && Enabled(Run(s, acts, limit), a)
  {
    hide Next, Enabled;
    assert (acts + [a])[..|acts|] == acts;
  }

  lemma {:induction false} RunOn(s: State, first: seq<Action>, second: seq<Action>, limit: nat)
    requires CanRun(s, first, limit) && CanRun(Run(s, first, limit), second, limit)
    ensures CanRun(s, first + second, limit) && Run(s, first + second, limit) == Run(Run(s, first, limit), second, limit)
  {
    hide Next, Enabled;
    if second == [] {
      assert first + second == first;
    } else {
      var n := |second| - 1;
      RunOn(s, first, second[..n], limit);
      hide Run, CanRun;
      RunOneMore(s, first + second[..n], second[n], limit);
      RunOneMore(Run(s, first, limit), second[..n], second[n], limit);
      assert first + second == first + second[..n] + [second[n]] && second == second[..n] + [second[n]];
    }
  }

  /** One task run on its own up to the moment it has tested QUEUED and found it unset. */
  lemma TestedUnset(limit: nat) returns (acts: seq<Action>, s: State)
    requires limit > 0
    ensures CanRun(INIT, acts, limit) && s == Run(INIT, acts, limit)
    ensures AllTimely(INIT, acts, limit)
    ensures s == State(1, 0, false, true, [Done, Checked(false)], 1, 1, 1, 1)
  {
    hide Run;
    hide CanRun;
    hide AllTimely;
    RunNothing(INIT, limit);
    acts, s := [], INIT;
    acts, s := Then(INIT, acts, s, Commit, limit);
    acts, s := Then(INIT, acts, s, Callback(0), limit);
    acts, s := Then(INIT, acts, s, Dispatch(0), limit);
    acts, s := Then(INIT, acts, s, Deliver(1), limit);
    acts, s := Then(INIT, acts, s, ClearQueued(1), limit);
    acts, s := Then(INIT, acts, s, Pass(1), limit);
    acts, s := Then(INIT, acts, s, Check(1), limit);
  }

  // ----- what an untimely step costs, and for how long

  /** QUEUED is set and nobody stands behind it. */
  ghost predicate Stranded(s: State) {
    s.queued && !Any(s.procs, Behind)
  }

  ghost predicate AnyOther(ps: seq<Pc>, p: Pc -> bool, i: nat) {
    exists k | 0 <= k < |ps| && k != i :: p(ps[k])
  }

  lemma AnyAfterDone(ps: seq<Pc>, p: Pc -> bool, i: nat)
    requires i < |ps| && !p(Done)
    ensures Any(ps[i := Done], p) <==> AnyOther(ps, p, i)
  {
    if AnyOther(ps, p, i) {
      var k :| 0 <= k < |ps| && k != i && p(ps[k]);
      AnyAt(ps[i := Done], p, k);
    }
    if Any(ps[i := Done], p) {
      var k :| 0 <= k < |ps| && p(ps[i := Done][k]);
      assert p(ps[k]);
    }
  }

  lemma SkipKeepsTheRest(s: State, i: nat)
    requires Inv(s) && i < |s.procs| && s.procs[i].TaskPending?
    ensures var t := s.(procs := s.procs[i := Done]);
            && Bounded(t) && (StaleAndAnnounced(t) <==> StaleAndAnnounced(s))
            && forall k | 0 <= k < |t.procs| :: TestWillSee(t, t.procs[k])
  {
    var t := s.(procs := s.procs[i := Done]);
    AnyAfterDone(s.procs, Unannounced, i);
    AnyAfterDone(s.procs, AboutToQueue, i);
    if Any(s.procs, Unannounced) { AnyUpdate(s.procs, Unannounced, i, Done); }
    if Any(s.procs, AboutToQueue) { AnyUpdate(s.procs, AboutToQueue, i, Done); }
    forall k | 0 <= k < |t.procs| ensures TestWillSee(t, t.procs[k]) {
      SeenAt(s, k);
    }
  }

  /** Exactly which deliveries that find RUNNING set are harmless, timely or not: those after which
      another process still stands behind a set flag, and another is still outstanding for work that
      was asked for. */
  lemma SkippedDeliveryIsHarmlessIff(s: State, i: nat, limit: nat)
    requires Inv(s) && Enabled(s, Deliver(i)) && s.running
    ensures Inv(Next(s, Deliver(i), limit)) <==>
            && (s.queued ==> AnyOther(s.procs, Behind, i))
            && (WorkLeft(s) ==> AnyOther(s.procs, Outstanding, i))
    ensures Stranded(Next(s, Deliver(i), limit)) <==> s.queued && !AnyOther(s.procs, Behind, i)
  {
    var t := Next(s, Deliver(i), limit);
    assert t == s.(procs := s.procs[i := Done]);
    AnyAfterDone(s.procs, Behind, i);
    AnyAfterDone(s.procs, Outstanding, i);
    AnyAfterDone(s.procs, Unannounced, i);
    AnyAfterDone(s.procs, AboutToQueue, i);
    ExclusiveKept(s, Deliver(i), limit);
    SkipKeepsTheRest(s, i);
  }

  /** From any such state, until the key times out: every request finds the flag and does nothing, no
      task is dispatched and no pass runs. */
  lemma StrandedStep(s: State, a: Action, limit: nat)
    requires Stranded(s) && Enabled(s, a) && !a.Redeliver? && !a.ExpireQueued?
    ensures var t := Next(s, a, limit);
            && Stranded(t) && t.passes == s.passes && t.dispatched == s.dispatched
            && (a.Callback? ==> t.procs[a.i].Done?)
  {
    var t := Next(s, a, limit);
    if !a.Commit? {
      NoneAt(s.procs, Behind, a.i);
    }
    forall k | 0 <= k < |t.procs| ensures !Behind(t.procs[k]) {
      if k < |s.procs| { NoneAt(s.procs, Behind, k); }
    }
  }

  lemma {:induction false} StrandedUntilTheKeyLapses(s: State, acts: seq<Action>, limit: nat)
    requires Stranded(s) && CanRun(s, acts, limit)
    requires forall a | a in acts :: !a.Redeliver? && !a.ExpireQueued?
    ensures var t := Run(s, acts, limit); Stranded(t) && t.passes == s.passes && t.dispatched == s.dispatched
  {
    if acts != [] {
      assert acts[|acts| - 1] in acts;
      StrandedUntilTheKeyLapses(s, acts[..|acts| - 1], limit);
      StrandedStep(Run(s, acts[..|acts| - 1], limit), acts[|acts| - 1], limit);
    }
  }

  lemma StepKeepsBounded(s: State, a: Action, limit: nat)
    requires Bounded(s)
    ensures Bounded(Next(s, a, limit))
  {
  }

  lemma {:induction false} RunsAreBounded(acts: seq<Action>, limit: nat)
    requires CanRun(INIT, acts, limit)
    ensures Bounded(Run(INIT, acts, limit))
  {
    if acts != [] {
      RunsAreBounded(acts[..|acts| - 1], limit);
      StepKeepsBounded(Run(INIT, acts[..|acts| - 1], limit), acts[|acts| - 1], limit);
    }
  }

  lemma LostStep(s: State, a: Action, limit: nat)
    requires !Any(s.procs, Outstanding) && Enabled(s, a) && !a.Callback? && !a.Redeliver?
    ensures var t := Next(s, a, limit);
            && !Any(t.procs, Outstanding)
            && t.passes == s.passes && t.dispatched == s.dispatched && t.covered == s.covered
            && t.asked == s.asked && t.backlog >= s.backlog && (t.queued ==> s.queued)
  {
    if !a.Commit? && !a.ExpireQueued? {
      NoneAt(s.procs, Outstanding, a.i);
    }
    var t := Next(s, a, limit);
    forall k | 0 <= k < |t.procs| ensures !Outstanding(t.procs[k]) {
      if k < |s.procs| { NoneAt(s.procs, Outstanding, k); }
    }
  }

  /** With nobody outstanding, a timeout of the flag brings nothing back: until some request's callback
      runs, or an old task is redelivered, no pass is made and no stale job is refreshed. */
  lemma {:induction false} LostUntilARequest(s: State, acts: seq<Action>, limit: nat)
    requires !Any(s.procs, Outstanding) && CanRun(s, acts, limit)
    requires forall a | a in acts :: !a.Callback? && !a.Redeliver?
    ensures var t := Run(s, acts, limit);
            && !Any(t.procs, Outstanding)
            && t.passes == s.passes && t.dispatched == s.dispatched && t.covered == s.covered
            && t.asked == s.asked && t.backlog >= s.backlog && (t.queued ==> s.queued)
  {
    if acts != [] {
      assert acts[|acts| - 1] in acts;
      LostUntilARequest(s, acts[..|acts| - 1], limit);
      LostStep(Run(s, acts[..|acts| - 1], limit), acts[|acts| - 1], limit);
    }
  }

  lemma RequestRecovers(s: State, i: nat, limit: nat)
    requires Exclusive(s) && Bounded(s) && !s.queued && !Any(s.procs, Behind) && Enabled(s, Callback(i))
    ensures Inv(Next(s, Callback(i), limit)) && Next(s, Callback(i), limit).procs[i].Queueing?
  {
    var t := Next(s, Callback(i), limit);
    ExclusiveKept(s, Callback(i), limit);
    AnyAt(t.procs, Behind, i);
    AnyAt(t.procs, Outstanding, i);
    forall k | 0 <= k < |t.procs| ensures TestWillSee(t, t.procs[k]) {
      NoneAt(s.procs, Behind, k);
    }
  }

  /** That request recovers everything, whenever it comes: in any state a run can reach, timely or not,
      with the flag down and nobody behind it, it queues a task and the invariant holds. */
  lemma RequestAfterTheLapseRecovers(acts: seq<Action>, i: nat, limit: nat)
    requires CanRun(INIT, acts, limit)
    requires var s := Run(INIT, acts, limit); !s.queued && !Any(s.procs, Behind) && Enabled(s, Callback(i))
    ensures var t := Next(Run(INIT, acts, limit), Callback(i), limit); Inv(t) && t.procs[i].Queueing?
  {
    RunsExclude(acts, limit);
    RunsAreBounded(acts, limit);
    hide Run, CanRun;
    RequestRecovers(Run(INIT, acts, limit), i, limit);
  }

  // ----- exactly which timeouts of QUEUED lose work

  /** Work is left and nobody will do it. */
  ghost predicate Lost(s: State) {
    WorkLeft(s) && !Any(s.procs, Outstanding)
  }

  ghost predicate LosesBy(s: State, acts: seq<Action>, limit: nat) {
    CanRun(s, acts, limit) && AllTimely(s, acts, limit) && Lost(Run(s, acts, limit))
  }

  /** A run without its flag, and around it only tasks on their way and callbacks yet to come. */
  ghost predicate OnlyTasksAround(s: State, i: nat) {
    && i < |s.procs| && s.procs[i] == Refreshed(false) && s.running && !s.queued
    && forall k | 0 <= k < |s.procs| && k != i ::
         s.procs[k].Queueing? || s.procs[k].TaskPending? || s.procs[k].Committed? || s.procs[k].Done?
  }

  function TaskSteps(p: Pc): nat {
    match p
    case Queueing => 2
    case TaskPending => 1
    case _ => 0
  }

  lemma FewerTaskSteps(s: State, k: nat)
    requires k < |s.procs| && (s.procs[k].Queueing? || s.procs[k].TaskPending?)
    ensures Sum(s.procs[k := Done], TaskSteps) < Sum(s.procs, TaskSteps)
    ensures s.procs[k].Queueing? ==> Sum(s.procs[k := Done] + [TaskPending], TaskSteps) < Sum(s.procs, TaskSteps)
  {
    SumUpdate(s.procs, TaskSteps, k, Done);
    SumAppend(s.procs[k := Done], TaskSteps, TaskPending);
  }

  lemma TaskStep(s: State, i: nat, k: nat, limit: nat) returns (a: Action)
    requires OnlyTasksAround(s, i) && k < |s.procs| && (s.procs[k].Queueing? || s.procs[k].TaskPending?)
    ensures Enabled(s, a) && Timely(s, a) && !a.Callback? && !a.Redeliver? && !a.Commit?
    ensures var t := Next(s, a, limit);
            && OnlyTasksAround(t, i) && Sum(t.procs, TaskSteps) < Sum(s.procs, TaskSteps)
            && t.asked == s.asked && t.covered == s.covered && t.backlog == s.backlog
            && (!Any(s.procs, Unannounced) ==> !Any(t.procs, Unannounced))
  {
    a := if s.procs[k].Queueing? then Dispatch(k) else Deliver(k);
    var t := Next(s, a, limit);
    FewerTaskSteps(s, k);
    assert t.procs == if a.Dispatch? then s.procs[k := Done] + [TaskPending] else s.procs[k := Done];
    hide Sum, TaskSteps;
    if !Any(s.procs, Unannounced) {
      forall j | 0 <= j < |t.procs| ensures !Unannounced(t.procs[j]) {
        if j < |s.procs| { NoneAt(s.procs, Unannounced, j); }
      }
    }
  }

  /** Every task around is delivered and skips, for RUNNING is set. */
  lemma TasksSkip(s0: State, acts: seq<Action>, s: State, i: nat, limit: nat) returns (acts': seq<Action>, s': State)
    requires CanRun(s0, acts, limit) && s == Run(s0, acts, limit) && AllTimely(s0, acts, limit)
    requires OnlyTasksAround(s, i)
    ensures CanRun(s0, acts', limit) && s' == Run(s0, acts', limit) && AllTimely(s0, acts', limit)
    ensures OnlyTasksAround(s', i) && forall k | 0 <= k < |s'.procs| && k != i :: s'.procs[k].Committed? || s'.procs[k].Done?
    ensures s'.asked == s.asked && s'.covered == s.covered && s'.backlog == s.backlog
    ensures !Any(s.procs, Unannounced) ==> !Any(s'.procs, Unannounced)
    decreases Sum(s.procs, TaskSteps)
  {
    hide Run, CanRun, AllTimely;
    if k :| 0 <= k < |s.procs| && (s.procs[k].Queueing? || s.procs[k].TaskPending?) {
      var a := TaskStep(s, i, k, limit);
      acts', s' := Then(s0, acts, s, a, limit);
      acts', s' := TasksSkip(s0, acts', s', i, limit);
    } else {
      acts', s' := acts, s;
    }
  }

  lemma LastTestLoses(s: State, i: nat, limit: nat)
    requires OnlyTasksAround(s, i) && WorkLeft(s)
    requires forall k | 0 <= k < |s.procs| && k != i :: s.procs[k].Committed? || s.procs[k].Done?
    ensures Enabled(s, Check(i)) && Timely(s, Check(i)) && Lost(Next(s, Check(i), limit))
  {
    var t := Next(s, Check(i), limit);
    if Any(t.procs, Unannounced) {
      var k :| 0 <= k < |t.procs| && Unannounced(t.procs[k]);
      AnyAt(s.procs, Unannounced, k);
    }
  }

  lemma HarmfulTimeoutLoses(s: State, limit: nat) returns (acts: seq<Action>)
    requires Inv(s) && s.queued && TimeoutHarms(s)
    ensures LosesBy(Next(s, ExpireQueued, limit), acts, limit)
  {
    var u := Next(s, ExpireQueued, limit);
    var i :| 0 <= i < |s.procs| && s.procs[i] == Refreshed(false);
    AnyAt(s.procs, InRun, i);
    forall k | 0 <= k < |s.procs| && k != i
      ensures s.procs[k].Queueing? || s.procs[k].TaskPending? || s.procs[k].Committed? || s.procs[k].Done? {
      OnlyOneRuns(s.procs, i, k);
      NoneAt(s.procs, AboutToQueue, k);
    }
    assert OnlyTasksAround(u, i);
    RunNothing(u, limit);
    hide Run, CanRun, AllTimely;
    var t;
    acts, t := TasksSkip(u, [], u, i, limit);
    LastTestLoses(t, i, limit);
    acts, t := Then(u, acts, t, Check(i), limit);
  }

  /** Exactly which timeouts can lose work: after one, some timely schedule comes to work left with nobody
      outstanding if and only if a run that left nothing behind is about to test, no follow-up is about to
      queue, and work has come up since. */
  lemma TimeoutLosesIff(s: State, limit: nat)
    requires Inv(s) && s.queued
    ensures (exists acts :: LosesBy(Next(s, ExpireQueued, limit), acts, limit)) <==> TimeoutHarms(s)
  {
    var u := Next(s, ExpireQueued, limit);
    if TimeoutHarms(s) {
      var acts := HarmfulTimeoutLoses(s, limit);
    } else {
      StepKeepsInv(s, ExpireQueued, limit);
      forall acts | LosesBy(u, acts, limit) ensures false {
        TimelyRunsKeepInv(u, acts, limit);
      }
    }
  }

  /** A request comes while a run that left nothing behind waits to test. */
  lemma RequestBeforeTheTest(limit: nat) returns (acts: seq<Action>)
    requires limit > 0
    ensures CanRun(INIT, acts, limit) && AllTimely(INIT, acts, limit)
    ensures Run(INIT, acts, limit) == State(2, 1, true, true, [Done, Refreshed(false), Queueing], 2, 1, 1, 1)
  {
    RunNothing(INIT, limit);
    hide Run, CanRun, AllTimely;
    var s := INIT;
    acts := [];
    acts, s := Then(INIT, acts, s, Commit, limit);
    acts, s := Then(INIT, acts, s, Callback(0), limit);
    acts, s := Then(INIT, acts, s, Dispatch(0), limit);
    acts, s := Then(INIT, acts, s, Deliver(1), limit);
    acts, s := Then(INIT, acts, s, ClearQueued(1), limit);
    acts, s := Then(INIT, acts, s, Pass(1), limit);
    assert s == State(1, 0, false, true, [Done, Refreshed(false)], 1, 1, 1, 1);
    acts, s := Then(INIT, acts, s, Commit, limit);
    acts, s := Then(INIT, acts, s, Callback(2), limit);
  }

  /** So a timeout does lose a wakeup in a real run, every other step of which is timely. */
  lemma TimeoutLosesAWakeup(limit: nat) returns (first: seq<Action>, rest: seq<Action>)
    requires limit > 0
    ensures AllTimely(INIT, first, limit) && CanRun(INIT, first + [ExpireQueued] + rest, limit)
    ensures Lost(Run(INIT, first + [ExpireQueued] + rest, limit))
    ensures AllTimely(Run(INIT, first + [ExpireQueued], limit), rest, limit)
  {
    first := RequestBeforeTheTest(limit);
    RunKeepsInv(first, limit);
    var s := Run(INIT, first, limit);
    assert s.procs[1] == Refreshed(false);
    rest := HarmfulTimeoutLoses(s, limit);
    hide Run, CanRun, AllTimely, Lost;
    var lapsed, u := Then(INIT, first, s, ExpireQueued, limit);
    RunOn(INIT, lapsed, rest, limit);
  }

  // ----- a delivery that comes too early

  /** If the only task is delivered between the test and the release, it skips: nobody stands behind the
      flag, and the run comes to rest with a stale job. The hypothesis of the theorems above is needed. */
  lemma UntimelyDeliveryLosesAWakeup(limit: nat) returns (acts: seq<Action>)
    requires limit > 0
    ensures CanRun(INIT, acts, limit) && Quiescent(Run(INIT, acts, limit)) && Stranded(Run(INIT, acts, limit))
    ensures var s := Run(INIT, acts, limit); s.backlog > 0 && s.asked > s.covered
  {
    hide Run;
    hide CanRun;
    hide AllTimely;
    var s;
    acts, s := TestedUnset(limit);
    acts, s := Then(INIT, acts, s, Commit, limit);
    acts, s := Then(INIT, acts, s, Callback(2), limit);
    acts, s := Then(INIT, acts, s, Dispatch(2), limit);
    RunKeepsInv(acts, limit);
    SkippedDeliveryIsHarmlessIff(s, 3, limit);
    assert !Inv(Next(s, Deliver(3), limit));
    acts, s := Then(INIT, acts, s, Deliver(3), limit);
    acts, s := Then(INIT, acts, s, Release(1), limit);
  }

  // ----- two workers can chase each other's follow-ups for ever

  /** A run that owes a follow-up while another task is pending. */
  predicate Chasing(s: State, r: nat, t: nat) {
    && r < |s.procs| && t < |s.procs| && r != t
    && s.procs[r].FollowUp? && s.procs[t].TaskPending? && !s.running
  }

  predicate NoNewRequest(acts: seq<Action>) {
    forall a | a in acts :: !a.Commit? && !a.Callback? && !a.Redeliver?
  }

  /** The pending task starts and passes, and the follow-up that was owed is queued meanwhile. */
  lemma ChaseFirstHalf(s0: State, acts: seq<Action>, s: State, r: nat, t: nat, limit: nat)
    returns (acts': seq<Action>, s': State)
    requires CanRun(s0, acts, limit) && s == Run(s0, acts, limit) && AllTimely(s0, acts, limit) && NoNewRequest(acts)
    requires Chasing(s, r, t)
    ensures CanRun(s0, acts', limit) && s' == Run(s0, acts', limit) && AllTimely(s0, acts', limit) && NoNewRequest(acts')
    ensures s'.queued && s'.running && s'.passes == s.passes + 1
    ensures s'.procs == s.procs[t := Refreshed(s.backlog > limit)][r := Queueing]
  {
    hide Run;
    hide CanRun;
    hide AllTimely;
    acts', s' := Then(s0, acts, s, Deliver(t), limit);
    acts', s' := Then(s0, acts', s', ClearQueued(t), limit);
    acts', s' := Then(s0, acts', s', Pass(t), limit);
    assert s'.procs == s.procs[t := Refreshed(s.backlog > limit)];
    acts', s' := Then(s0, acts', s', ClearForFollowUp(r), limit);
    acts', s' := Then(s0, acts', s', Requeue(r), limit);
  }

  lemma ChaseOnce(s0: State, acts: seq<Action>, s: State, r: nat, t: nat, limit: nat)
    returns (acts': seq<Action>, s': State)
    requires CanRun(s0, acts, limit) && s == Run(s0, acts, limit) && AllTimely(s0, acts, limit) && NoNewRequest(acts)
    requires Chasing(s, r, t)
    ensures CanRun(s0, acts', limit) && s' == Run(s0, acts', limit) && AllTimely(s0, acts', limit) && NoNewRequest(acts')
    ensures Chasing(s', t, |s.procs|) && s'.passes == s.passes + 1
  {
    hide Run;
    hide CanRun;
    hide AllTimely;
    acts', s' := ChaseFirstHalf(s0, acts, s, r, t, limit);
    acts', s' := Then(s0, acts', s', Dispatch(r), limit);
    acts', s' := Then(s0, acts', s', Check(t), limit);
    acts', s' := Then(s0, acts', s', Release(t), limit);
  }

  /** Each follow-up found the other's QUEUED flag: any number of further passes can follow without
      one new request, every step of them timely. A chain of runs need not end by itself. */
  lemma {:induction false} FollowUpsCanChaseForever(s0: State, acts: seq<Action>, s: State, r: nat, t: nat, n: nat, limit: nat)
    returns (acts': seq<Action>, r': nat, t': nat)
    requires CanRun(s0, acts, limit) && s == Run(s0, acts, limit) && AllTimely(s0, acts, limit) && NoNewRequest(acts)
    requires Chasing(s, r, t)
    ensures CanRun(s0, acts', limit) && AllTimely(s0, acts', limit) && NoNewRequest(acts')
    ensures Chasing(Run(s0, acts', limit), r', t') && Run(s0, acts', limit).passes == s.passes + n
    decreases n
  {
    hide Run, CanRun, AllTimely;
    if n == 0 {
      acts', r', t' := acts, r, t;
    } else {
      var s';
      acts', s' := ChaseOnce(s0, acts, s, r, t, limit);
      acts', r', t' := FollowUpsCanChaseForever(s0, acts', s', t, |s.procs|, n - 1, limit);
    }
  }

  /** Two requests are enough to get there. */
  lemma ChaseCanStart(limit: nat) returns (acts: seq<Action>)
    requires limit > 0
    ensures CanRun(INIT, acts, limit) && AllTimely(INIT, acts, limit)
    ensures Chasing(Run(INIT, acts, limit), 1, 3)
  {
    acts := RequestBeforeTheTest(limit);
    var s := Run(INIT, acts, limit);
    hide Run, CanRun, AllTimely;
    acts, s := Then(INIT, acts, s, Dispatch(2), limit);
    acts, s := Then(INIT, acts, s, Check(1), limit);
    acts, s := Then(INIT, acts, s, Release(1), limit);
  }

  // ----- one task at a time: the chain ends under every schedule

  predicate Idle(p: Pc) {
    p.Done? || p.Committed?
  }

  /** No process but k has anything to do without a new request. */
  ghost predicate Alone(s: State, k: nat) {
    k < |s.procs| && forall j | 0 <= j < |s.procs| && j != k :: Idle(s.procs[j])
  }

  /** Passes a chain of runs makes on a backlog when nothing else happens. */
  function ChainLength(backlog: nat, limit: nat): nat
    requires limit > 0
    decreases backlog
  {
    if backlog <= limit then 1 else 1 + ChainLength(backlog - limit, limit)
  }

  /** That is ceil(backlog / limit), and one pass for an empty backlog. */
  lemma {:induction false} ChainLengthIsCeiling(backlog: nat, limit: nat)
    requires limit > 0
    ensures var n := ChainLength(backlog, limit);
            n >= 1 && backlog <= n * limit && (n > 1 ==> (n - 1) * limit < backlog)
    decreases backlog
  {
    if backlog > limit {
      ChainLengthIsCeiling(backlog - limit, limit);
      var n := ChainLength(backlog - limit, limit);
      assert (n + 1) * limit == n * limit + limit;
      if n > 1 { assert n * limit == (n - 1) * limit + limit; }
    }
  }

  /** Steps a lone task takes with its follow-ups, when it starts on this backlog. */
  function ChainSteps(backlog: nat, limit: nat): (n: nat)
    ensures n >= 5
    decreases backlog
  {
    5 + (if limit > 0 && backlog > limit then 4 + ChainSteps(backlog - limit, limit) else 0)
  }

  function StepsFrom(p: Pc, backlog: nat, queued: bool, limit: nat): nat
  {
    match p
    case FollowUp => 4 + ChainSteps(backlog, limit)
    case FollowUpCleared => 3 + ChainSteps(backlog, limit)
    case Queueing => 1 + ChainSteps(backlog, limit)
    case TaskPending => ChainSteps(backlog, limit)
    case Acquired => ChainSteps(backlog, limit) - 1
    case Cleared => 3 + (if backlog > limit || queued then 4 + ChainSteps(backlog - Min(limit, backlog), limit) else 0)
    case Refreshed(remaining) => 2 + (if remaining || queued then 4 + ChainSteps(backlog, limit) else 0)
    case Checked(followUp) => 1 + (if followUp then 4 + ChainSteps(backlog, limit) else 0)
    case _ => 0
  }

  /** A bound on the steps left: those of process k, and the timeout of the flag. */
  function StepsLeft(s: State, k: nat, limit: nat): nat
    requires k < |s.procs|
  {
    StepsFrom(s.procs[k], s.backlog, s.queued, limit) + (if s.queued then 1 else 0)
  }

  lemma LoneStep(s: State, k: nat, a: Action, limit: nat) returns (k': nat)
    requires limit > 0 && Alone(s, k) && Enabled(s, a) && !a.Commit? && !a.Callback? && !a.Redeliver?
    ensures Alone(Next(s, a, limit), k')
    ensures StepsLeft(Next(s, a, limit), k', limit) < StepsLeft(s, k, limit)
  {
    k' := if a.Dispatch? then |s.procs| else k;
  }

  /** With at most one process that is not idle, every schedule without a new request is bounded: the
      chain of follow-ups ends. */
  lemma {:induction false} LoneChainEnds(s: State, k: nat, acts: seq<Action>, limit: nat) returns (k': nat)
    requires limit > 0 && Alone(s, k) && CanRun(s, acts, limit) && NoNewRequest(acts)
    ensures Alone(Run(s, acts, limit), k')
    ensures |acts| + StepsLeft(Run(s, acts, limit), k', limit) <= StepsLeft(s, k, limit)
  {
    if acts == [] {
      k' := k;
    } else {
      var n := |acts| - 1;
      assert acts[n] in acts;
      k' := LoneChainEnds(s, k, acts[..n], limit);
      hide StepsLeft, CanRun, Alone;
      k' := LoneStep(Run(s, acts[..n], limit), k', acts[n], limit);
    }
  }

  /** It ends only when nobody has anything left to do. */
  lemma NotIdleCanStep(s: State, k: nat) returns (a: Action)
    requires k < |s.procs| && !Idle(s.procs[k])
    ensures Enabled(s, a) && !a.Commit? && !a.Callback? && !a.Redeliver? && !a.ExpireQueued? && a.i == k
  {
    a := match s.procs[k]
      case Queueing => Dispatch(k)
      case TaskPending => Deliver(k)
      case Acquired => ClearQueued(k)
      case Cleared => Pass(k)
      case Refreshed(_) => Check(k)
      case Checked(_) => Release(k)
      case FollowUp => ClearForFollowUp(k)
      case _ => Requeue(k);
  }

  /** Passes that process k has ahead of it. */
  function PassesLeft(p: Pc, backlog: nat, limit: nat): nat
    requires limit > 0
  {
    match p
    case Refreshed(remaining) => if remaining then ChainLength(backlog, limit) else 0
    case Checked(followUp) => if followUp then ChainLength(backlog, limit) else 0
    case Done => 0
    case Committed(_) => 0
    case _ => ChainLength(backlog, limit)
  }

  /** What a lone chain keeps, once its task is pending: the flags are its own, and it stops only with
      nothing stale. */
  ghost predicate LoneChain(s: State, k: nat) {
    && Alone(s, k) && !s.procs[k].Committed?
    && (s.running <==> InRun(s.procs[k]))
    && (s.procs[k].Cleared? || s.procs[k].Refreshed? || s.procs[k].Checked? || s.procs[k].FollowUpCleared? ==> !s.queued)
    && (s.procs[k].Done? || s.procs[k] == Refreshed(false) || s.procs[k] == Checked(false) ==> s.backlog == 0)
  }

  function Successor(s: State, k: nat, a: Action): nat {
    if a.Dispatch? then |s.procs| else k
  }

  lemma LoneChainStays(s: State, k: nat, a: Action, limit: nat)
    requires LoneChain(s, k) && Enabled(s, a) && !a.Commit? && !a.Callback? && !a.Redeliver?
    ensures LoneChain(Next(s, a, limit), Successor(s, k, a))
  {
  }

  lemma PassesConserved(s: State, k: nat, a: Action, limit: nat)
    requires limit > 0 && LoneChain(s, k) && Enabled(s, a) && !a.Commit? && !a.Callback? && !a.Redeliver?
    ensures var t := Next(s, a, limit);
            var k' := Successor(s, k, a);
            && k' < |t.procs|
            && t.passes + PassesLeft(t.procs[k'], t.backlog, limit) == s.passes + PassesLeft(s.procs[k], s.backlog, limit)
  {
  }

  lemma LoneChainStep(s: State, k: nat, a: Action, limit: nat) returns (k': nat)
    requires limit > 0 && LoneChain(s, k) && Enabled(s, a) && !a.Commit? && !a.Callback? && !a.Redeliver?
    ensures var t := Next(s, a, limit);
            && LoneChain(t, k')
            && t.passes + PassesLeft(t.procs[k'], t.backlog, limit) == s.passes + PassesLeft(s.procs[k], s.backlog, limit)
  {
    k' := Successor(s, k, a);
    LoneChainStays(s, k, a, limit);
    PassesConserved(s, k, a, limit);
    hide Next, PassesLeft, Successor;
  }

  lemma {:induction false} LoneChainKept(s: State, k: nat, acts: seq<Action>, limit: nat) returns (k': nat)
    requires limit > 0 && LoneChain(s, k) && CanRun(s, acts, limit) && NoNewRequest(acts)
    ensures var t := Run(s, acts, limit);
            && LoneChain(t, k')
            && t.passes + PassesLeft(t.procs[k'], t.backlog, limit) == s.passes + PassesLeft(s.procs[k], s.backlog, limit)
  {
    if acts == [] {
      k' := k;
    } else {
      var n := |acts| - 1;
      assert acts[n] in acts;
      k' := LoneChainKept(s, k, acts[..n], limit);
      hide PassesLeft, CanRun, LoneChain;
      k' := LoneChainStep(Run(s, acts[..n], limit), k', acts[n], limit);
    }
  }

  /** A lone pending task drains the backlog under every schedule: whenever a run without a new request
      has left everybody idle, nothing is stale, RUNNING is down, and the passes made are the backlog
      over the limit, rounded up. */
  lemma LoneChainDrains(s: State, k: nat, acts: seq<Action>, limit: nat)
    requires limit > 0 && Alone(s, k) && s.procs[k].TaskPending? && !s.running
    requires CanRun(s, acts, limit) && NoNewRequest(acts)
    requires forall j | 0 <= j < |Run(s, acts, limit).procs| :: Idle(Run(s, acts, limit).procs[j])
    ensures var t := Run(s, acts, limit);
            t.backlog == 0 && !t.running && t.passes == s.passes + ChainLength(s.backlog, limit)
  {
    var k' := LoneChainKept(s, k, acts, limit);
  }

  // ----- several processes: exactly when follow-ups can go on for ever

  /** A schedule without a new request that makes at least n passes. */
  ghost predicate Chain(s: State, acts: seq<Action>, n: nat, limit: nat, timely: bool) {
    && CanRun(s, acts, limit) && NoNewRequest(acts) && (timely ==> AllTimely(s, acts, limit))
    && Run(s, acts, limit).passes >= s.passes + n
  }

  ghost predicate CanChain(s: State, n: nat, limit: nat, timely: bool) {
    exists acts :: Chain(s, acts, n, limit, timely)
  }

  /** Chains of any length, in schedules of every kind or in timely ones only. */
  ghost predicate CanChainForever(s: State, limit: nat, timely: bool) {
    forall n: nat :: CanChain(s, n, limit, timely)
  }

  predicate Waiting(p: Pc) {
    p.Queueing? || p.TaskPending?
  }

  /** A process that owes a follow-up, or will if it goes on now. */
  predicate Spark(s: State, p: Pc, limit: nat) {
    match p
    case FollowUp => true
    case FollowUpCleared => true
    case Checked(followUp) => followUp
    case Refreshed(remaining) => remaining || s.queued
    case Cleared => s.queued || s.backlog > limit
    case Acquired => s.backlog > limit
    case _ => false
  }

  /** Two outstanding processes, one of them a spark; or two tasks and more than one batch of work. */
  predicate Fuse(s: State, r: nat, t: nat, limit: nat) {
    && r < |s.procs| && t < |s.procs| && r != t && Outstanding(s.procs[r]) && Outstanding(s.procs[t])
    && (Spark(s, s.procs[r], limit) || (Waiting(s.procs[r]) && Waiting(s.procs[t]) && s.backlog > limit))
  }

  ghost predicate Fused(s: State, limit: nat) {
    exists r, t :: Fuse(s, r, t, limit)
  }

  // ----- ... from a fuse the chase starts

  predicate IsNewRequest(a: Action) {
    a.Commit? || a.Callback? || a.Redeliver?
  }

  function RunSteps(p: Pc): nat {
    match p
    case Acquired => 5
    case Cleared => 4
    case Refreshed(_) => 3
    case Checked(_) => 2
    case _ => 0
  }

  lemma RunStep(s: State, x: nat, limit: nat) returns (a: Action)
    requires Exclusive(s) && x < |s.procs| && InRun(s.procs[x])
    ensures Enabled(s, a) && Timely(s, a) && !IsNewRequest(a)
    ensures var t := Next(s, a, limit);
            && Exclusive(t) && |t.procs| == |s.procs|
            && (forall k | 0 <= k < |s.procs| && k != x :: t.procs[k] == s.procs[k])
            && (if s.procs[x].Checked? then !t.running && (t.procs[x].Done? || t.procs[x].FollowUp?)
                else InRun(t.procs[x]) && RunSteps(t.procs[x]) < RunSteps(s.procs[x]))
            && (s.procs[x].Refreshed? || s.procs[x].Checked? ==> t.backlog == s.backlog && (t.procs[x].Checked? || s.procs[x].Checked?))
  {
    a := match s.procs[x]
      case Acquired => ClearQueued(x)
      case Cleared => Pass(x)
      case Refreshed(_) => Check(x)
      case _ => Release(x);
    ExclusiveKept(s, a, limit);
  }

  /** A run goes on to its release, whatever it finds. */
  lemma EndRun(s0: State, acts: seq<Action>, s: State, x: nat, limit: nat) returns (acts': seq<Action>, s': State)
    requires CanRun(s0, acts, limit) && s == Run(s0, acts, limit) && AllTimely(s0, acts, limit) && NoNewRequest(acts)
    requires Exclusive(s) && x < |s.procs| && InRun(s.procs[x])
    ensures CanRun(s0, acts', limit) && s' == Run(s0, acts', limit) && AllTimely(s0, acts', limit) && NoNewRequest(acts')
    ensures Exclusive(s') && !s'.running && |s'.procs| == |s.procs|
    ensures forall k | 0 <= k < |s.procs| && k != x :: s'.procs[k] == s.procs[k]
    ensures s.procs[x].Refreshed? || s.procs[x].Checked? ==> s'.backlog == s.backlog
    decreases RunSteps(s.procs[x])
  {
    hide Run, CanRun, AllTimely, Exclusive;
    var a := RunStep(s, x, limit);
    hide Next;
    acts', s' := Then(s0, acts, s, a, limit);
    if !s.procs[x].Checked? {
      acts', s' := EndRun(s0, acts', s', x, limit);
    }
  }

  /** No third process is at work. */
  predicate Free(s: State, r: nat, t: nat)
    requires r < |s.procs| && t < |s.procs|
  {
    s.running ==> InRun(s.procs[r]) || InRun(s.procs[t])
  }

  lemma MakeFree(s: State, r: nat, t: nat, limit: nat) returns (acts: seq<Action>, s': State, r': nat)
    requires Exclusive(s) && Fuse(s, r, t, limit)
    ensures CanRun(s, acts, limit) && s' == Run(s, acts, limit) && AllTimely(s, acts, limit) && NoNewRequest(acts)
    ensures Exclusive(s') && Fuse(s', r', t, limit) && Free(s', r', t)
  {
    RunNothing(s, limit);
    acts, s', r' := [], s, r;
    if !Free(s, r, t) {
      var x :| 0 <= x < |s.procs| && InRun(s.procs[x]);
      if Outstanding(s.procs[x]) && Spark(s, s.procs[x], limit) {
        r' := x;
      } else {
        hide Run, CanRun, AllTimely;
        acts, s' := EndRun(s, [], s, x, limit);
      }
    }
  }

  /** How far a free fuse is from the chase. */
  function Distance(s: State, r: nat, t: nat): nat
    requires r < |s.procs| && t < |s.procs|
  {
    var flag := if s.queued then 1 else 0;
    match s.procs[r]
    case FollowUp => (
      match s.procs[t]
      case TaskPending => 0
      case Queueing => 1
      case FollowUpCleared => 2 + flag
      case FollowUp => 4
      case Checked(_) => 5
      case Refreshed(_) => 9
      case Cleared => 10
      case _ => 11)
    case FollowUpCleared => (
      match s.procs[t]
      case FollowUp => 2 + flag
      case Checked(_) => 7
      case Refreshed(_) => 8
      case Cleared => 9
      case Acquired => 10
      case TaskPending => 11
      case Queueing => 12
      case _ => 13 + flag)
    case Checked(_) => 6
    case Refreshed(_) => 7
    case Cleared => 8
    case Acquired => 9
    case _ => 10 + (if s.procs[r].Queueing? then 1 else 0) + (if s.procs[t].Queueing? then 1 else 0)
  }

  /** The next step towards it; the two processes may change places. */
  function Towards(s: State, r: nat, t: nat): (Action, nat, nat)
    requires r < |s.procs| && t < |s.procs|
  {
    var newest := |s.procs|;
    match s.procs[r]
    case FollowUp => (
      match s.procs[t]
      case Queueing => (Dispatch(t), r, newest)
      case FollowUpCleared => (if s.queued then ExpireQueued else Requeue(t), r, t)
      case FollowUp => (ClearForFollowUp(t), r, t)
      case Checked(_) => (Release(t), r, t)
      case Refreshed(remaining) => (if remaining || s.queued then Check(t) else ClearForFollowUp(r), r, t)
      case Cleared => (Pass(t), r, t)
      case _ => (ClearQueued(t), r, t))
    case FollowUpCleared => (
      match s.procs[t]
      case FollowUp => if s.queued then (ExpireQueued, r, t) else (Requeue(r), t, r)
      case Checked(_) => (Release(t), t, r)
      case Refreshed(remaining) => if remaining || s.queued then (Check(t), r, t) else (Requeue(r), t, r)
      case Cleared => (Pass(t), r, t)
      case Acquired => (ClearQueued(t), r, t)
      case TaskPending => (Deliver(t), r, t)
      case Queueing => (Dispatch(t), r, newest)
      case _ => (if s.queued then ExpireQueued else Requeue(t), r, t))
    case Checked(_) => (Release(r), r, t)
    case Refreshed(_) => (Check(r), r, t)
    case Cleared => (Pass(r), r, t)
    case Acquired => (ClearQueued(r), r, t)
    case Queueing => (Dispatch(r), newest, t)
    case _ => if s.procs[t].Queueing? then (Dispatch(t), r, newest) else (Deliver(r), r, t)
  }

  lemma TowardsIsEnabled(s: State, r: nat, t: nat, limit: nat)
    requires Fuse(s, r, t, limit) && !Chasing(s, r, t) && Free(s, r, t) && !(InRun(s.procs[r]) && InRun(s.procs[t]))
    ensures var a := Towards(s, r, t).0;
            && Enabled(s, a) && !IsNewRequest(a)
            && (a.Deliver? ==> !s.running) && (a.ExpireQueued? ==> AboutToQueue(s.procs[r]))
  {
  }

  lemma TowardsIsTimely(s: State, r: nat, t: nat, limit: nat)
    requires Exclusive(s) && Fuse(s, r, t, limit) && Free(s, r, t) && !Chasing(s, r, t)
    ensures var a := Towards(s, r, t).0; Enabled(s, a) && Timely(s, a) && !IsNewRequest(a)
  {
    if InRun(s.procs[r]) { OnlyOneRuns(s.procs, r, t); }
    TowardsIsEnabled(s, r, t, limit);
    hide Towards, Exclusive;
    if AboutToQueue(s.procs[r]) { AnyAt(s.procs, AboutToQueue, r); }
  }

  predicate Nearer(s: State, r: nat, t: nat, limit: nat)
    requires r < |s.procs| && t < |s.procs|
  {
    var (a, r', t') := Towards(s, r, t);
    var u := Next(s, a, limit);
    Fuse(u, r', t', limit) && Free(u, r', t') && Distance(u, r', t') < Distance(s, r, t)
  }

  lemma NearerFromFollowUp(s: State, r: nat, t: nat, limit: nat)
    requires Exclusive(s) && Fuse(s, r, t, limit) && Free(s, r, t) && !Chasing(s, r, t)
    requires Enabled(s, Towards(s, r, t).0) && s.procs[r].FollowUp?
    ensures Nearer(s, r, t, limit)
  {
    hide Exclusive;
  }

  lemma NearerClearing(s: State, r: nat, t: nat, limit: nat)
    requires Fuse(s, r, t, limit) && Free(s, r, t)
    requires s.procs[r].FollowUpCleared? && s.procs[t].Acquired?
    ensures Nearer(s, r, t, limit)
  {
    var (a, r', t') := Towards(s, r, t);
    assert a == ClearQueued(t) && r' == r && t' == t;
    assert Next(s, a, limit) == s.(queued := false, procs := s.procs[t := Cleared]);
    hide Next, Towards;
  }

  lemma NearerPassing(s: State, r: nat, t: nat, limit: nat)
    requires Fuse(s, r, t, limit) && Free(s, r, t)
    requires s.procs[r].FollowUpCleared? && s.procs[t].Cleared?
    ensures Nearer(s, r, t, limit)
  {
    var (a, r', t') := Towards(s, r, t);
    assert a == Pass(t) && r' == r && t' == t;
    assert Next(s, a, limit) == s.(covered := s.changes, passes := s.passes + 1, backlog := s.backlog - Min(limit, s.backlog),
           procs := s.procs[t := Refreshed(s.backlog > limit)]);
    hide Next, Towards;
  }

  lemma NearerTesting(s: State, r: nat, t: nat, limit: nat)
    requires Fuse(s, r, t, limit) && Free(s, r, t)
    requires s.procs[r].FollowUpCleared? && s.procs[t].Refreshed? && (s.procs[t].remaining || s.queued)
    ensures Nearer(s, r, t, limit)
  {
    var (a, r', t') := Towards(s, r, t);
    assert a == Check(t) && r' == r && t' == t;
    assert Next(s, a, limit) == s.(procs := s.procs[t := Checked(true)]);
    hide Next, Towards;
  }

  lemma NearerRequeueing(s: State, r: nat, t: nat, limit: nat)
    requires Fuse(s, r, t, limit) && Free(s, r, t)
    requires s.procs[r].FollowUpCleared? && s.procs[t].Refreshed? && !s.procs[t].remaining && !s.queued
    ensures Nearer(s, r, t, limit)
  {
    var (a, r', t') := Towards(s, r, t);
    assert a == Requeue(r) && r' == t && t' == r;
    assert Next(s, a, limit) == s.(queued := true, procs := s.procs[r := Queueing]);
    hide Next, Towards;
  }

  lemma NearerReleasing(s: State, r: nat, t: nat, limit: nat)
    requires Fuse(s, r, t, limit) && Free(s, r, t)
    requires s.procs[r].FollowUpCleared? && s.procs[t] == Checked(true)
    ensures Nearer(s, r, t, limit)
  {
    var (a, r', t') := Towards(s, r, t);
    assert a == Release(t) && r' == t && t' == r;
    assert Next(s, a, limit) == s.(running := false, procs := s.procs[t := FollowUp]);
    hide Next, Towards;
  }

  lemma NearerFromClearedAndRun(s: State, r: nat, t: nat, limit: nat)
    requires Fuse(s, r, t, limit) && Free(s, r, t) && s.procs[r].FollowUpCleared? && InRun(s.procs[t])
    ensures Nearer(s, r, t, limit)
  {
    hide Nearer, Free;
    if s.procs[t].Acquired? {
      NearerClearing(s, r, t, limit);
    } else if s.procs[t].Cleared? {
      NearerPassing(s, r, t, limit);
    } else if s.procs[t].Checked? {
      NearerReleasing(s, r, t, limit);
    } else if s.procs[t].remaining || s.queued {
      NearerTesting(s, r, t, limit);
    } else {
      NearerRequeueing(s, r, t, limit);
    }
  }

  lemma NearerFromCleared(s: State, r: nat, t: nat, limit: nat)
    requires Exclusive(s) && Fuse(s, r, t, limit) && Free(s, r, t) && !Chasing(s, r, t)
    requires Enabled(s, Towards(s, r, t).0) && s.procs[r].FollowUpCleared?
    ensures Nearer(s, r, t, limit)
  {
    if InRun(s.procs[t]) {
      NearerFromClearedAndRun(s, r, t, limit);
    } else {
      hide Exclusive;
    }
  }

  lemma NearerFromRun(s: State, r: nat, t: nat, limit: nat)
    requires Exclusive(s) && Fuse(s, r, t, limit) && Free(s, r, t) && !Chasing(s, r, t)
    requires Enabled(s, Towards(s, r, t).0) && InRun(s.procs[r]) && !InRun(s.procs[t])
    ensures Nearer(s, r, t, limit)
  {
    hide Exclusive;
  }

  lemma NearerFromTasks(s: State, r: nat, t: nat, limit: nat)
    requires Exclusive(s) && Fuse(s, r, t, limit) && Free(s, r, t) && !Chasing(s, r, t)
    requires Enabled(s, Towards(s, r, t).0) && Waiting(s.procs[r])
    ensures Nearer(s, r, t, limit)
  {
    hide Exclusive;
  }

  lemma TowardsIsNearer(s: State, r: nat, t: nat, limit: nat)
    requires Exclusive(s) && Fuse(s, r, t, limit) && Free(s, r, t) && !Chasing(s, r, t)
    requires Enabled(s, Towards(s, r, t).0)
    ensures Nearer(s, r, t, limit)
  {
    if InRun(s.procs[r]) { OnlyOneRuns(s.procs, r, t); }
    hide Nearer, Towards, Free, Chasing;
    match s.procs[r] {
      case FollowUp => NearerFromFollowUp(s, r, t, limit);
      case FollowUpCleared => NearerFromCleared(s, r, t, limit);
      case Queueing => NearerFromTasks(s, r, t, limit);
      case TaskPending => NearerFromTasks(s, r, t, limit);
      case _ => NearerFromRun(s, r, t, limit);
    }
  }

  lemma OneMoreStep(acts: seq<Action>, a: Action)
    requires NoNewRequest(acts) && !IsNewRequest(a)
    ensures NoNewRequest(acts + [a])
  {
  }

  lemma FuseBurns(s0: State, acts: seq<Action>, s: State, r: nat, t: nat, limit: nat)
    returns (acts': seq<Action>, s': State, r': nat, t': nat)
    requires CanRun(s0, acts, limit) && s == Run(s0, acts, limit) && AllTimely(s0, acts, limit) && NoNewRequest(acts)
    requires Exclusive(s) && Fuse(s, r, t, limit) && Free(s, r, t)
    ensures CanRun(s0, acts', limit) && s' == Run(s0, acts', limit) && AllTimely(s0, acts', limit) && NoNewRequest(acts')
    ensures Chasing(s', r', t')
    decreases Distance(s, r, t)
  {
    if Chasing(s, r, t) {
      acts', s', r', t' := acts, s, r, t;
    } else {
      TowardsIsTimely(s, r, t, limit);
      TowardsIsNearer(s, r, t, limit);
      var (a, u, v) := Towards(s, r, t);
      ExclusiveKept(s, a, limit);
      hide *;
      acts', s' := Then(s0, acts, s, a, limit);
      assert NoNewRequest(acts') by { OneMoreStep(acts, a); }
      acts', s', r', t' := FuseBurns(s0, acts', s', u, v, limit);
    }
  }

  /** Passes are only ever added, one a step. */
  lemma {:induction false} PassesAreSteps(s: State, acts: seq<Action>, limit: nat)
    ensures s.passes <= Run(s, acts, limit).passes <= s.passes + |acts|
  {
    if acts != [] {
      PassesAreSteps(s, acts[..|acts| - 1], limit);
    }
  }

  lemma FuseChases(s: State, r: nat, t: nat, n: nat, limit: nat) returns (acts: seq<Action>)
    requires Exclusive(s) && Fuse(s, r, t, limit)
    ensures Chain(s, acts, n, limit, true)
  {
    var u, r', t';
    acts, u, r' := MakeFree(s, r, t, limit);
    hide Run, CanRun, AllTimely, Exclusive, Fuse, Free, Chasing;
    acts, u, r', t' := FuseBurns(s, acts, u, r', t, limit);
    PassesAreSteps(s, acts, limit);
    acts, r', t' := FollowUpsCanChaseForever(s, acts, u, r', t', n, limit);
  }

  // ----- ... and without one every schedule ends

  ghost predicate AtMostOneOutstanding(ps: seq<Pc>) {
    forall i, j | 0 <= i < j < |ps| :: !(Outstanding(ps[i]) && Outstanding(ps[j]))
  }

  /** Outstanding, but the next thing it comes to is not a follow-up. */
  predicate DampProc(s: State, p: Pc, limit: nat) {
    || Waiting(p)
    || (p.Acquired? && s.backlog <= limit)
    || (p.Cleared? && !s.queued && s.backlog <= limit)
    || (p == Refreshed(false) && !s.queued)
  }

  ghost predicate Damp(s: State, limit: nat) {
    && (forall i | 0 <= i < |s.procs| && Outstanding(s.procs[i]) :: DampProc(s, s.procs[i], limit))
    && (s.backlog <= limit || forall i, j | 0 <= i < j < |s.procs| :: !(Waiting(s.procs[i]) && Waiting(s.procs[j])))
  }

  ghost predicate Spent(s: State, limit: nat) {
    AtMostOneOutstanding(s.procs) || Damp(s, limit)
  }

  lemma NotFusedIsSpent(s: State, limit: nat)
    requires !Fused(s, limit)
    ensures Spent(s, limit)
  {
    if i, j :| 0 <= i < j < |s.procs| && Outstanding(s.procs[i]) && Outstanding(s.procs[j]) {
      forall k | 0 <= k < |s.procs| && Outstanding(s.procs[k]) ensures DampProc(s, s.procs[k], limit) {
        assert !Fuse(s, k, if k == i then j else i, limit);
      }
      forall a, b | 0 <= a < b < |s.procs| && Waiting(s.procs[a]) && Waiting(s.procs[b]) ensures s.backlog <= limit {
        assert !Fuse(s, a, b, limit);
      }
    }
  }

  function Weight(backlog: nat, queued: bool, limit: nat): Pc -> nat {
    p => StepsFrom(p, backlog, queued, limit)
  }

  /** A bound on the steps left. */
  function AllSteps(s: State, limit: nat): nat {
    Sum(s.procs, Weight(s.backlog, s.queued, limit)) + (if s.queued then 1 else 0)
  }

  lemma {:induction false} SumAtMost(ps: seq<Pc>, qs: seq<Pc>, f: Pc -> nat, g: Pc -> nat)
    requires |ps| == |qs| && forall j | 0 <= j < |ps| :: g(qs[j]) <= f(ps[j])
    ensures Sum(qs, g) <= Sum(ps, f)
  {
    if ps != [] {
      SumAtMost(ps[..|ps| - 1], qs[..|ps| - 1], f, g);
    }
  }

  lemma {:induction false} SumMoves(ps: seq<Pc>, qs: seq<Pc>, f: Pc -> nat, g: Pc -> nat, i: nat)
    requires |ps| == |qs| && i < |ps|
    requires forall j | 0 <= j < |ps| && j != i :: g(qs[j]) <= f(ps[j])
    ensures Sum(qs, g) + f(ps[i]) <= Sum(ps, f) + g(qs[i])
  {
    var n := |ps| - 1;
    if i == n {
      SumAtMost(ps[..n], qs[..n], f, g);
    } else {
      SumMoves(ps[..n], qs[..n], f, g, i);
    }
  }

  lemma DampTaskIsLone(s: State, i: nat, limit: nat)
    requires Exclusive(s) && Damp(s, limit) && !s.running && s.backlog > limit
    requires i < |s.procs| && Waiting(s.procs[i])
    ensures AtMostOneOutstanding(s.procs)
  {
    forall j | 0 <= j < |s.procs| && Outstanding(s.procs[j]) ensures j == i {
      NoneAt(s.procs, InRun, j);
      assert DampProc(s, s.procs[j], limit);
    }
  }

  lemma LoneKept(s: State, a: Action, limit: nat)
    requires AtMostOneOutstanding(s.procs) && Enabled(s, a) && !IsNewRequest(a)
    ensures AtMostOneOutstanding(Next(s, a, limit).procs)
  {
  }

  lemma DampProcKept(s: State, a: Action, k: nat, limit: nat)
    requires Exclusive(s) && Damp(s, limit) && Enabled(s, a) && !IsNewRequest(a)
    requires a.Deliver? && !s.running ==> s.backlog <= limit
    requires k < |Next(s, a, limit).procs| && Outstanding(Next(s, a, limit).procs[k])
    ensures DampProc(Next(s, a, limit), Next(s, a, limit).procs[k], limit)
  {
    if !a.ExpireQueued? {
      assert Outstanding(s.procs[a.i]) ==> DampProc(s, s.procs[a.i], limit);
      if k < |s.procs| && k != a.i && InRun(s.procs[a.i]) { OnlyOneRuns(s.procs, a.i, k); }
    }
    assert k < |s.procs| && Outstanding(s.procs[k]) ==> DampProc(s, s.procs[k], limit);
    hide Exclusive, Damp;
  }

  lemma TasksNoMore(s: State, a: Action, limit: nat)
    requires Damp(s, limit) && Enabled(s, a) && !IsNewRequest(a)
    ensures var t := Next(s, a, limit);
            t.backlog <= limit || forall i, j | 0 <= i < j < |t.procs| :: !(Waiting(t.procs[i]) && Waiting(t.procs[j]))
  {
    assert !a.ExpireQueued? && Outstanding(s.procs[a.i]) ==> DampProc(s, s.procs[a.i], limit);
  }

  lemma DampKept(s: State, a: Action, limit: nat)
    requires Exclusive(s) && Damp(s, limit) && Enabled(s, a) && !IsNewRequest(a)
    requires a.Deliver? && !s.running ==> s.backlog <= limit
    ensures Damp(Next(s, a, limit), limit)
  {
    var t := Next(s, a, limit);
    forall k | 0 <= k < |t.procs| && Outstanding(t.procs[k]) ensures DampProc(t, t.procs[k], limit) {
      DampProcKept(s, a, k, limit);
    }
    TasksNoMore(s, a, limit);
  }

  lemma SpentKept(s: State, a: Action, limit: nat)
    requires Exclusive(s) && Spent(s, limit) && Enabled(s, a) && !IsNewRequest(a)
    ensures Spent(Next(s, a, limit), limit)
  {
    if Damp(s, limit) && a.Deliver? && !s.running && s.backlog > limit { DampTaskIsLone(s, a.i, limit); }
    if AtMostOneOutstanding(s.procs) {
      LoneKept(s, a, limit);
    } else {
      DampKept(s, a, limit);
    }
  }

  /** A step makes no other process' way longer. */
  lemma OthersNoFurther(s: State, a: Action, j: nat, limit: nat)
    requires Exclusive(s) && Spent(s, limit) && Enabled(s, a) && !IsNewRequest(a)
    requires j < |s.procs| && (a.ExpireQueued? || j != a.i)
    ensures var t := Next(s, a, limit);
            StepsFrom(s.procs[j], t.backlog, t.queued, limit) <= StepsFrom(s.procs[j], s.backlog, s.queued, limit)
  {
    if !a.ExpireQueued? && InRun(s.procs[a.i]) { OnlyOneRuns(s.procs, a.i, j); }
    if !a.ExpireQueued? && Outstanding(s.procs[a.i]) && Outstanding(s.procs[j]) {
      var low, high := if j < a.i then j else a.i, if j < a.i then a.i else j;
      assert !AtMostOneOutstanding(s.procs) by { assert Outstanding(s.procs[low]) && Outstanding(s.procs[high]); }
    }
  }

  /** And its own shorter. */
  lemma OwnStepShortens(s: State, a: Action, limit: nat)
    requires limit > 0 && Spent(s, limit) && Enabled(s, a) && !IsNewRequest(a) && !a.ExpireQueued? && !a.Dispatch?
    ensures var t := Next(s, a, limit);
            StepsFrom(t.procs[a.i], t.backlog, t.queued, limit) + (if t.queued then 1 else 0)
            < StepsFrom(s.procs[a.i], s.backlog, s.queued, limit) + (if s.queued then 1 else 0)
  {
  }

  lemma DispatchShortens(s: State, i: nat, limit: nat)
    requires Enabled(s, Dispatch(i))
    ensures AllSteps(Next(s, Dispatch(i), limit), limit) < AllSteps(s, limit)
  {
    var f := Weight(s.backlog, s.queued, limit);
    SumUpdate(s.procs, f, i, Done);
    SumAppend(s.procs[i := Done], f, TaskPending);
  }

  lemma SpentStep(s: State, a: Action, limit: nat)
    requires limit > 0 && Exclusive(s) && Spent(s, limit) && Enabled(s, a) && !IsNewRequest(a)
    ensures AllSteps(Next(s, a, limit), limit) < AllSteps(s, limit)
  {
    var t := Next(s, a, limit);
    var f, g := Weight(s.backlog, s.queued, limit), Weight(t.backlog, t.queued, limit);
    if a.ExpireQueued? {
      forall j | 0 <= j < |s.procs| ensures g(t.procs[j]) <= f(s.procs[j]) {
        OthersNoFurther(s, a, j, limit);
      }
      SumAtMost(s.procs, t.procs, f, g);
    } else if a.Dispatch? {
      DispatchShortens(s, a.i, limit);
    } else {
      assert t.procs == s.procs[a.i := t.procs[a.i]];
      forall j | 0 <= j < |s.procs| && j != a.i ensures g(t.procs[j]) <= f(s.procs[j]) {
        OthersNoFurther(s, a, j, limit);
      }
      OwnStepShortens(s, a, limit);
      SumMoves(s.procs, t.procs, f, g, a.i);
    }
  }

  /** Without a fuse every schedule without a new request is bounded. */
  lemma {:induction false} SpentEnds(s: State, acts: seq<Action>, limit: nat)
    requires limit > 0 && Exclusive(s) && Spent(s, limit) && CanRun(s, acts, limit) && NoNewRequest(acts)
    ensures var t := Run(s, acts, limit);
            Exclusive(t) && Spent(t, limit) && |acts| + AllSteps(t, limit) <= AllSteps(s, limit)
  {
    if acts != [] {
      var n := |acts| - 1;
      assert acts[n] in acts;
      SpentEnds(s, acts[..n], limit);
      hide CanRun, Exclusive, Spent, AllSteps;
      var u := Run(s, acts[..n], limit);
      ExclusiveKept(u, acts[n], limit);
      SpentKept(u, acts[n], limit);
      SpentStep(u, acts[n], limit);
    }
  }

  /** From every state with at most one run, follow-ups can go on for ever without a new request if and
      only if two processes are outstanding of which one is a spark, or two are tasks and the backlog is
      more than one batch. Timely schedules are no safer. */
  lemma ChainsForeverIff(s: State, limit: nat, timely: bool)
    requires limit > 0 && Exclusive(s)
    ensures CanChainForever(s, limit, timely) <==> Fused(s, limit)
  {
    if Fused(s, limit) {
      var r, t :| Fuse(s, r, t, limit);
      forall n: nat ensures CanChain(s, n, limit, timely) {
        var acts := FuseChases(s, r, t, n, limit);
        assert Chain(s, acts, n, limit, timely);
      }
    } else {
      NotFusedIsSpent(s, limit);
      var n := AllSteps(s, limit) + 1;
      forall acts | Chain(s, acts, n, limit, timely) ensures false {
        SpentEnds(s, acts, limit);
        PassesAreSteps(s, acts, limit);
      }
      assert !CanChain(s, n, limit, timely);
    }
  }

  /** Nobody is at work: tasks may be pending and callbacks yet to run. */
  ghost predicate AtRest(s: State) {
    !s.running && forall i | 0 <= i < |s.procs| :: Idle(s.procs[i]) || s.procs[i].TaskPending?
  }

  ghost predicate TwoPending(s: State) {
    exists r, t | 0 <= r < |s.procs| && 0 <= t < |s.procs| && r != t :: s.procs[r].TaskPending? && s.procs[t].TaskPending?
  }

  /** From rest that is: two tasks are pending and the backlog is more than one batch. */
  lemma ChainsForeverFromRestIff(s: State, limit: nat, timely: bool)
    requires limit > 0 && AtRest(s)
    ensures CanChainForever(s, limit, timely) <==> TwoPending(s) && s.backlog > limit
  {
    ChainsForeverIff(s, limit, timely);
    hide CanChainForever;
    if TwoPending(s) && s.backlog > limit {
      var r, t :| 0 <= r < |s.procs| && 0 <= t < |s.procs| && r != t && s.procs[r].TaskPending? && s.procs[t].TaskPending?;
      assert Fuse(s, r, t, limit);
    }
  }

  // ----- one worker: the backlog drains, batch by batch

  /** A task run from delivery to release with no other process in between. */
  function RunAlone(s: State, i: nat, limit: nat): State {
    Next(Next(Next(Next(Next(s, Deliver(i), limit), ClearQueued(i), limit), Pass(i), limit), Check(i), limit), Release(i), limit)
  }

  function FollowAlone(s: State, i: nat, limit: nat): State {
    Next(Next(Next(s, ClearForFollowUp(i), limit), Requeue(i), limit), Dispatch(i), limit)
  }

  lemma RunAloneIs(s: State, i: nat, limit: nat)
    requires Enabled(s, Deliver(i)) && !s.running
    ensures RunAlone(s, i, limit) ==
            s.(queued := false, covered := s.changes, passes := s.passes + 1, backlog := s.backlog - Min(limit, s.backlog),
               procs := s.procs[i := if s.backlog > limit then FollowUp else Done])
  {
    var a := Next(Next(s, Deliver(i), limit), ClearQueued(i), limit);
    assert a == s.(running := true, queued := false, procs := s.procs[i := Cleared]);
  }

  lemma FollowAloneIs(s: State, i: nat, limit: nat)
    requires Enabled(s, ClearForFollowUp(i))
    ensures FollowAlone(s, i, limit) ==
            s.(queued := true, dispatched := s.dispatched + 1, procs := s.procs[i := Done] + [TaskPending])
  {
  }

  /** The state a lone worker meets: its task is the newest process and all others are done. */
  predicate OneTask(s: State) {
    && !s.running && |s.procs| > 0 && s.procs[|s.procs| - 1].TaskPending?
    && forall i | 0 <= i < |s.procs| - 1 :: s.procs[i].Done?
  }

  /** What running it does with no other process in between. */
  function TaskAlone(s: State, i: nat, limit: nat): State {
    if s.running then Next(s, Deliver(i), limit)
    else if s.backlog > limit then FollowAlone(RunAlone(s, i, limit), i, limit)
    else RunAlone(s, i, limit)
  }

  /** One round of the chain: another task exactly while work remains. */
  lemma RoundAlone(s: State, limit: nat)
    requires OneTask(s)
    ensures var t := TaskAlone(s, |s.procs| - 1, limit);
            && t.passes == s.passes + 1 && !t.running
            && (if s.backlog > limit then OneTask(t) && t.backlog == s.backlog - limit
                else Quiescent(t) && |t.procs| > 0 && t.backlog == 0 && !t.queued)
  {
    hide RunAlone, FollowAlone;
    RunAloneIs(s, |s.procs| - 1, limit);
    if s.backlog > limit {
      FollowAloneIs(RunAlone(s, |s.procs| - 1, limit), |s.procs| - 1, limit);
    }
  }

  /** The cache keys, the broker and the stale jobs, as the module's functions update them. */
  class RefreshQueue {
    var changes: nat
    var backlog: nat
    var queued: bool
    var running: bool
    var procs: seq<Pc>
    var asked: nat
    var covered: nat
    var passes: nat
    var dispatched: nat

    ghost function View(): State
      reads this
    {
      State(changes, backlog, queued, running, procs, asked, covered, passes, dispatched)
    }

    constructor ()
      ensures View() == INIT
    {
      changes, backlog, queued, running, procs := 0, 0, false, false, [];
      asked, covered, passes, dispatched := 0, 0, 0, 0;
    }

    method ApplyAsync(i: nat, limit: nat)
      requires Enabled(View(), Dispatch(i))
      modifies this
      ensures View() == Next(old(View()), Dispatch(i), limit)
      ensures procs == old(procs)[i := Done] + [TaskPending] && dispatched == old(dispatched) + 1
    {
      dispatched := dispatched + 1;
      procs := procs[i := Done] + [TaskPending];
    }

    /** _queue_job_summary_pdf_refresh, from a committed change or from a follow-up. */
    method QueueRefresh(i: nat, limit: nat)
      requires Enabled(View(), Callback(i)) || Enabled(View(), Requeue(i))
      modifies this
      ensures var s := old(View());
              var added := Next(s, if s.procs[i].Committed? then Callback(i) else Requeue(i), limit);
              View() == if s.queued then added else Next(added, Dispatch(i), limit)
      ensures queued && dispatched == old(dispatched) + (if old(queued) then 0 else 1)
      ensures procs == old(procs)[i := Done] + if old(queued) then [] else [TaskPending]
      ensures old(procs)[i].Committed? ==> asked >= old(procs)[i].change
    {
      if procs[i].Committed? {
        asked := Max(asked, procs[i].change);
      }
      var added := !queued;
      queued := true;
      procs := procs[i := if added then Queueing else Done];
      if !added {
        return;
      }
      ApplyAsync(i, limit);
    }

    /** The guarded part of the task: acquired, run and released with no other process in between. */
    method RunOnce(i: nat, limit: nat) returns (followUpRequired: bool)
      requires Enabled(View(), Deliver(i)) && !running
      modifies this
      ensures View() == RunAlone(old(View()), i, limit)
      ensures followUpRequired == Enabled(View(), ClearForFollowUp(i)) == (old(backlog) > limit)
      ensures !queued && !running && passes == old(passes) + 1 && covered == changes
      ensures backlog == if old(backlog) > limit then old(backlog) - limit else 0
    {
      hide RunAlone;
      RunAloneIs(View(), i, limit);
      running := true;
      queued := false;
      var remaining := backlog > limit;
      covered, passes, backlog := changes, passes + 1, backlog - Min(limit, backlog);
      followUpRequired := remaining || queued;
      running := false;
      procs := procs[i := if followUpRequired then FollowUp else Done];
    }

    /** renewestjob_summary_pdfs_task with no other process in between. */
    method RefreshTask(i: nat, limit: nat)
      requires Enabled(View(), Deliver(i))
      modifies this
      ensures View() == TaskAlone(old(View()), i, limit)
      ensures old(running) ==> View() == old(View()).(procs := old(procs)[i := Done])
      ensures !old(running) ==>
                && !running && covered == changes && (queued <==> old(backlog) > limit)
                && backlog == (if old(backlog) > limit then old(backlog) - limit else 0)
                && dispatched == old(dispatched) + (if old(backlog) > limit then 1 else 0)
    {
      if running {
        procs := procs[i := Done];
        return;
      }
      hide RunAlone;
      var followUpRequired := RunOnce(i, limit);
      if followUpRequired {
        queued := false;
        procs := procs[i := FollowUpCleared];
        assert View() == Next(RunAlone(old(View()), i, limit), ClearForFollowUp(i), limit);
        hide Next;
        QueueRefresh(i, limit);
      }
    }

    /** One worker and no new request: the chain of follow-ups ends, with nothing stale left and in
        exactly as many passes as the backlog has batches. */
    method Drain(limit: nat)
      requires limit > 0 && OneTask(View())
      modifies this
      ensures backlog == 0 && Quiescent(View()) && !queued && !running
      ensures passes == old(passes) + ChainLength(old(backlog), limit)
    {
      hide TaskAlone;
      while procs[|procs| - 1].TaskPending?
        invariant |procs| > 0
        invariant OneTask(View()) || (Quiescent(View()) && backlog == 0 && !queued && !running)
        invariant passes + (if procs[|procs| - 1].TaskPending? then ChainLength(backlog, limit) else 0)
                  == old(passes) + ChainLength(old(backlog), limit)
        decreases backlog, if procs[|procs| - 1].TaskPending? then 1 else 0
      {
        RoundAlone(View(), limit);
        RefreshTask(|procs| - 1, limit);
      }
    }
  }
}
