/** apps/operations/push.py and apps/operations/tasks.py: the coalescing publish protocol.

    Any number of committing processes race for one shared lease. The winner publishes at once and
    dispatches a trailing task; the task deletes the lease and only then reads. Every access to the
    shared cache and to the event stream is one atomic step. Reading the versions is a dozen queries,
    one after another, so it has a start and an end with other steps in between. The steps of
    different processes interleave freely, the lease may expire at any moment, and a task may be
    delivered more than once. No step raises. */
module Push {
  import opened Processes

  /** Where one process stands. A version is the number of writes committed when its read began: those
      are the writes that every query of the read is sure to see. */
  datatype Pc =
    | Committed(write: nat)    // transaction committed; schedule_data_versions_publish not yet run
    | Leading                  // cache.add succeeded; versions not yet read
    | LeaderReading(version: nat) // reading the versions
    | LeaderRead(version: nat) // versions read; event not yet sent
    | LeaderSent               // event sent; trailing task not yet dispatched
    | TaskQueued               // trailing task waiting in the broker
    | TaskReleased             // trailing task deleted the lease; versions not yet read
    | TaskReading(version: nat) // trailing task is reading the versions
    | TaskRead(version: nat)   // trailing task read the versions; event not yet sent
    | Done

  /** The shared state, with the history the properties speak about: which writes have had their
      callback run, the version of every read begun, every version sent, and how often the lease was taken,
      freed, and a task redelivered. */
  datatype State = State(
    writes: nat, lease: bool, procs: seq<Pc>,
    asked: set<nat>, seen: seq<nat>, sent: seq<nat>,
    taken: nat, freed: nat, dispatched: nat, redelivered: nat)

  datatype Action =
    | Commit | RunCallback(i: nat) | StartRead(i: nat) | FinishRead(i: nat) | SendEvent(i: nat)
    | Dispatch(i: nat) | ReleaseLease(i: nat) | Redeliver | Expire

  const INIT := State(0, false, [], {}, [], [], 0, 0, 0, 0)

  predicate Enabled(s: State, a: Action) {
    match a
    case Commit => true
    case RunCallback(i) => i < |s.procs| && s.procs[i].Committed?
    case StartRead(i) => i < |s.procs| && (s.procs[i].Leading? || s.procs[i].TaskReleased?)
    case FinishRead(i) => i < |s.procs| && (s.procs[i].LeaderReading? || s.procs[i].TaskReading?)
    case SendEvent(i) => i < |s.procs| && (s.procs[i].LeaderRead? || s.procs[i].TaskRead?)
    case Dispatch(i) => i < |s.procs| && s.procs[i].LeaderSent?
    case ReleaseLease(i) => i < |s.procs| && s.procs[i].TaskQueued?
    case Redeliver => s.dispatched > 0
    case Expire => s.lease
  }

  /** One atomic step; a step that is not enabled changes nothing. */
  function Next(s: State, a: Action): State {
    if !Enabled(s, a) then s else
    match a
    case Commit =>
      s.(writes := s.writes + 1, procs := s.procs + [Committed(s.writes + 1)])
    case RunCallback(i) =>
      var asked := s.asked + {s.procs[i].write};
      if s.lease then s.(asked := asked, procs := s.procs[i := Done])
      else s.(asked := asked, lease := true, taken := s.taken + 1, procs := s.procs[i := Leading])
    case StartRead(i) =>
      var to := if s.procs[i].Leading? then LeaderReading(s.writes) else TaskReading(s.writes);
      s.(seen := s.seen + [s.writes], procs := s.procs[i := to])
    case FinishRead(i) =>
      var v := s.procs[i].version;
      s.(procs := s.procs[i := if s.procs[i].LeaderReading? then LeaderRead(v) else TaskRead(v)])
    case SendEvent(i) =>
      var to := if s.procs[i].LeaderRead? then LeaderSent else Done;
      s.(sent := s.sent + [s.procs[i].version], procs := s.procs[i := to])
    case Dispatch(i) =>
      s.(dispatched := s.dispatched + 1, procs := s.procs[i := Done] + [TaskQueued])
    case ReleaseLease(i) =>
      s.(lease := false, freed := s.freed + (if s.lease then 1 else 0), procs := s.procs[i := TaskReleased])
    case Redeliver =>
      s.(redelivered := s.redelivered + 1, procs := s.procs + [TaskQueued])
    case Expire =>
      s.(lease := false, freed := s.freed + 1)
  }

  function Run(s: State, acts: seq<Action>): State {
    if acts == [] then s else Next(Run(s, acts[..|acts| - 1]), acts[|acts| - 1])
  }

  predicate CanRun(s: State, acts: seq<Action>) {
    acts == [] ||
    (CanRun(s, acts[..|acts| - 1]) && Enabled(Run(s, acts[..|acts| - 1]), acts[|acts| - 1]))
  }

  lemma RunOneMore(s: State, acts: seq<Action>, a: Action)
    ensures Run(s, acts + [a]) == Next(Run(s, acts), a)
    ensures CanRun(s, acts + [a]) <==> CanRun(s, acts) && Enabled(Run(s, acts), a)
  {
    assert (acts + [a])[..|acts|] == acts;
  }

  // ----- nothing is lost

  /** Processes that still have a version read to begin, once their callback has run. */
  predicate WillRead(p: Pc) {
    p.Leading? || p.LeaderReading? || p.LeaderRead? || p.LeaderSent? || p.TaskQueued? || p.TaskReleased?
  }

  /** Processes whose lease-deleting task is still to come: one of these stands behind every held lease. */
  predicate WillRelease(p: Pc) {
    p.Leading? || p.LeaderReading? || p.LeaderRead? || p.LeaderSent? || p.TaskQueued?
  }

  predicate HoldsVersion(p: Pc) {
    p.LeaderReading? || p.LeaderRead? || p.TaskReading? || p.TaskRead?
  }

  predicate Sending(p: Pc, version: nat) {
    HoldsVersion(p) && p.version == version
  }

  ghost predicate Covered(seen: seq<nat>, write: nat) {
    Any(seen, (v: nat) => v >= write)
  }

  /** A write whose callback has run is in a version whose read has begun, or a reader is still outstanding. */
  ghost predicate NothingLost(s: State) {
    forall w | w in s.asked :: Covered(s.seen, w) || Any(s.procs, WillRead)
  }

  /** Every version whose read began was sent, or the process that reads it is about to send it. */
  ghost predicate ReadsReachTheStream(s: State) {
    forall v | v in s.seen :: v in s.sent || Any(s.procs, (p: Pc) => Sending(p, v))
  }

  /** Nothing speaks of a write that has not been made. */
  ghost predicate Bounded(s: State) {
    && (forall w | w in s.asked :: w <= s.writes)
    && (forall i | 0 <= i < |s.procs| && s.procs[i].Committed? :: s.procs[i].write <= s.writes)
    && (forall v | v in s.seen || v in s.sent :: v <= s.writes)
    && (forall i | 0 <= i < |s.procs| && HoldsVersion(s.procs[i]) :: s.procs[i].version <= s.writes)
  }

  /** Every write has had its callback run, or a process still has to run it. */
  ghost predicate WritesAccountedFor(s: State) {
    (forall w | 1 <= w <= s.writes :: w in s.asked || Committed(w) in s.procs) && Bounded(s)
  }

  /** Sends still owed: a leader owes its own and its task's. */
  function Owed(p: Pc): nat {
    match p
    case Leading => 2
    case LeaderReading(_) => 2
    case LeaderRead(_) => 2
    case LeaderSent => 1
    case TaskQueued => 1
    case TaskReleased => 1
    case TaskReading(_) => 1
    case TaskRead(_) => 1
    case _ => 0
  }

  ghost predicate Balanced(s: State) {
    |s.sent| + Sum(s.procs, Owed) == 2 * s.taken + s.redelivered
  }

  ghost predicate Inv(s: State) {
    && (s.lease ==> Any(s.procs, WillRelease))
    && NothingLost(s)
    && ReadsReachTheStream(s)
    && WritesAccountedFor(s)
    && Balanced(s)
    && s.taken == s.freed + (if s.lease then 1 else 0)
  }

  lemma ReleasersRead(ps: seq<Pc>)
    requires Any(ps, WillRelease)
    ensures Any(ps, WillRead)
  {
    var k :| 0 <= k < |ps| && WillRelease(ps[k]);
    assert WillRead(ps[k]);
  }

  lemma LeaseHolderKept(s: State, a: Action)
    requires Enabled(s, a) && Inv(s) && Next(s, a).lease
    ensures Any(Next(s, a).procs, WillRelease)
  {
    match a
    case Commit => AnyAppend(s.procs, WillRelease, Committed(s.writes + 1));
    case RunCallback(i) =>
      if s.lease { AnyUpdate(s.procs, WillRelease, i, Done); }
      else { AnyAt(s.procs[i := Leading], WillRelease, i); }
    case Dispatch(i) => AnyAppend(s.procs[i := Done], WillRelease, TaskQueued);
    case Redeliver => AnyAppend(s.procs, WillRelease, TaskQueued);
    case StartRead(i) => AnyUpdate(s.procs, WillRelease, i, Next(s, a).procs[i]);
    case FinishRead(i) => AnyUpdate(s.procs, WillRelease, i, Next(s, a).procs[i]);
    case SendEvent(i) => AnyUpdate(s.procs, WillRelease, i, Next(s, a).procs[i]);
    case _ =>
  }

  lemma CoveredGrows(seen: seq<nat>, more: nat, write: nat)
    requires Covered(seen, write) || more >= write
    ensures Covered(seen + [more], write)
  {
    AnyAppend(seen, (v: nat) => v >= write, more);
  }

  lemma ReaderKept(s: State, a: Action)
    requires Enabled(s, a) && Inv(s) && Any(s.procs, WillRead)
    requires !(a.StartRead? && s.procs[a.i].TaskReleased?)
    ensures Any(Next(s, a).procs, WillRead)
  {
    match a
    case Commit => AnyAppend(s.procs, WillRead, Committed(s.writes + 1));
    case Dispatch(i) => AnyAppend(s.procs[i := Done], WillRead, TaskQueued);
    case Redeliver => AnyAppend(s.procs, WillRead, TaskQueued);
    case Expire =>
    case _ => AnyUpdate(s.procs, WillRead, a.i, Next(s, a).procs[a.i]);
  }

  lemma NothingLostKept(s: State, a: Action)
    requires Enabled(s, a) && Inv(s)
    ensures NothingLost(Next(s, a))
  {
    var t := Next(s, a);
    forall w | w in t.asked ensures Covered(t.seen, w) || Any(t.procs, WillRead) {
      if a.StartRead? {
        CoveredGrows(s.seen, s.writes, w);
      } else if w !in s.asked && !s.lease {
        AnyAt(t.procs, WillRead, a.i);
      } else if w !in s.asked {
        ReleasersRead(s.procs);
        ReaderKept(s, a);
      } else if !Covered(s.seen, w) {
        ReaderKept(s, a);
      }
    }
  }

  lemma StreamKept(s: State, a: Action)
    requires Enabled(s, a) && Inv(s)
    ensures ReadsReachTheStream(Next(s, a))
  {
    var t := Next(s, a);
    forall v | v in t.seen ensures v in t.sent || Any(t.procs, (p: Pc) => Sending(p, v)) {
      var sends := (p: Pc) => Sending(p, v);
      if v in s.seen && v !in t.sent {
        assert Any(s.procs, sends);
        match a
        case Commit => AnyAppend(s.procs, sends, Committed(s.writes + 1));
        case Dispatch(i) =>
          AnyUpdate(s.procs, sends, i, Done);
          AnyAppend(s.procs[i := Done], sends, TaskQueued);
        case Redeliver => AnyAppend(s.procs, sends, TaskQueued);
        case Expire =>
        case _ => AnyUpdate(s.procs, sends, a.i, t.procs[a.i]);
      } else if v !in t.sent {
        AnyAt(t.procs, sends, a.i);
      }
    }
  }

  /** Only its own callback moves a committed process on. */
  lemma CommittedStays(s: State, a: Action, k: nat)
    requires Enabled(s, a) && k < |s.procs| && s.procs[k].Committed?
    ensures k < |Next(s, a).procs|
    ensures Next(s, a).procs[k] == s.procs[k] || s.procs[k].write in Next(s, a).asked
  {
  }

  lemma BoundedKept(s: State, a: Action)
    requires Enabled(s, a) && Bounded(s)
    ensures Bounded(Next(s, a))
  {
  }

  lemma AccountKept(s: State, a: Action)
    requires Enabled(s, a) && Inv(s)
    ensures WritesAccountedFor(Next(s, a))
  {
    var t := Next(s, a);
    BoundedKept(s, a);
    hide Bounded;
    forall w | 1 <= w <= t.writes ensures w in t.asked || Committed(w) in t.procs {
      if w <= s.writes && w !in s.asked {
        var k :| 0 <= k < |s.procs| && s.procs[k] == Committed(w);
        CommittedStays(s, a, k);
      } else if w > s.writes {
        assert t.procs[|s.procs|] == Committed(w);
      }
    }
  }

  lemma MoveBalances(s: State, a: Action)
    requires Enabled(s, a) && Balanced(s)
    requires a.RunCallback? || a.StartRead? || a.FinishRead? || a.SendEvent? || a.ReleaseLease?
    ensures Balanced(Next(s, a))
  {
    var to := Next(s, a).procs[a.i];
    assert Next(s, a).procs == s.procs[a.i := to];
    SumUpdate(s.procs, Owed, a.i, to);
  }

  lemma AppendBalances(s: State, a: Action)
    requires Enabled(s, a) && Balanced(s) && (a.Commit? || a.Redeliver?)
    ensures Balanced(Next(s, a))
  {
    var t := Next(s, a);
    var more := if a.Commit? then Committed(s.writes + 1) else TaskQueued;
    assert t.procs == s.procs + [more] && t.sent == s.sent && t.taken == s.taken;
    assert t.redelivered == s.redelivered + Owed(more);
    hide Next, Enabled, Owed;
    SumAppend(s.procs, Owed, more);
  }

  lemma DispatchBalances(s: State, i: nat)
    requires Enabled(s, Dispatch(i)) && Balanced(s)
    ensures Balanced(Next(s, Dispatch(i)))
  {
    SumUpdate(s.procs, Owed, i, Done);
    SumAppend(s.procs[i := Done], Owed, TaskQueued);
  }

  lemma SendsBalance(s: State, a: Action)
    requires Enabled(s, a) && Balanced(s)
    ensures Balanced(Next(s, a))
  {
    if a.Commit? || a.Redeliver? {
      AppendBalances(s, a);
    } else if a.Dispatch? {
      DispatchBalances(s, a.i);
    } else if !a.Expire? {
      MoveBalances(s, a);
    }
  }

  /** Every step keeps the invariant. */
  lemma StepKeepsInv(s: State, a: Action)
    requires Enabled(s, a) && Inv(s)
    ensures Inv(Next(s, a))
  {
    if Next(s, a).lease { LeaseHolderKept(s, a); }
    NothingLostKept(s, a);
    StreamKept(s, a);
    AccountKept(s, a);
    SendsBalance(s, a);
  }

  /** The invariant holds after every run, whatever the interleaving. */
  lemma {:induction false} RunKeepsInv(s: State, acts: seq<Action>)
    requires Inv(s) && CanRun(s, acts)
    ensures Inv(Run(s, acts))
  {
    if acts != [] {
      RunKeepsInv(s, acts[..|acts| - 1]);
      StepKeepsInv(Run(s, acts[..|acts| - 1]), acts[|acts| - 1]);
    }
  }

  // ----- what a run guarantees

  ghost predicate Quiescent(s: State) {
    forall i | 0 <= i < |s.procs| :: s.procs[i].Done?
  }

  /** At every moment of every run, a write whose callback has run is covered by a version whose read
      began after it committed, or some leader or trailing task that has yet to begin one is outstanding. */
  lemma NoWriteIsLost(acts: seq<Action>, write: nat)
    requires CanRun(INIT, acts) && write in Run(INIT, acts).asked
    ensures var s := Run(INIT, acts); Covered(s.seen, write) || Any(s.procs, WillRead)
  {
    RunKeepsInv(INIT, acts);
  }

  lemma NewestIsSent(s: State)
    requires Inv(s) && Quiescent(s) && s.writes > 0
    ensures s.writes in s.sent
  {
    assert s.writes in s.asked;
    assert !Any(s.procs, WillRead);
    var k :| 0 <= k < |s.seen| && s.seen[k] >= s.writes;
    assert s.seen[k] in s.seen && s.seen[k] == s.writes;
  }

  /** When nothing is outstanding, every write is in a published version, and the newest version,
      the one that holds all of them, has been published. */
  lemma QuiescenceMeansPublished(acts: seq<Action>, write: nat)
    requires CanRun(INIT, acts) && Quiescent(Run(INIT, acts))
    requires 1 <= write <= Run(INIT, acts).writes
    ensures Covered(Run(INIT, acts).sent, write)
    ensures Run(INIT, acts).writes in Run(INIT, acts).sent
  {
    var s := Run(INIT, acts);
    RunKeepsInv(INIT, acts);
    NewestIsSent(s);
    var k :| 0 <= k < |s.sent| && s.sent[k] == s.writes;
    AnyAt(s.sent, (v: nat) => v >= write, k);
  }

  lemma {:induction false} QuiescentOwesNothing(ps: seq<Pc>)
    requires forall i | 0 <= i < |ps| :: ps[i].Done?
    ensures Sum(ps, Owed) == 0
  {
    if ps != [] {
      QuiescentOwesNothing(ps[..|ps| - 1]);
    }
  }

  // ----- what each event holds

  predicate ReadsLater(p: Pc) {
    p.Leading? || p.TaskQueued? || p.TaskReleased?
  }

  /** A process with its read still ahead, when all the first `writes` writes have been made: whatever it
      has got to, the version it holds or has sent is no older. */
  ghost predicate CarriesAll(s: State, i: nat, writes: nat) {
    && i < |s.procs| && s.writes >= writes
    && (ReadsLater(s.procs[i])
        || (HoldsVersion(s.procs[i]) && s.procs[i].version >= writes)
        || ((s.procs[i].LeaderSent? || s.procs[i].Done?) && Covered(s.sent, writes)))
  }

  lemma StepCarriesAll(s: State, a: Action, i: nat, writes: nat)
    requires Enabled(s, a) && CarriesAll(s, i, writes)
    ensures CarriesAll(Next(s, a), i, writes)
  {
    var t := Next(s, a);
    if a.SendEvent? && a.i == i {
      CoveredGrows(s.sent, s.procs[i].version, writes);
    } else if a.SendEvent? && Covered(s.sent, writes) {
      CoveredGrows(s.sent, s.procs[a.i].version, writes);
    }
  }

  /** In every interleaving, once a leader or a trailing task has sent, the stream has a version with all
      the writes that had been made while its read was still ahead; for the leader, its own write among them. */
  lemma {:induction false} EventsCarryTheirWrites(s: State, acts: seq<Action>, i: nat)
    requires CanRun(s, acts) && i < |s.procs| && ReadsLater(s.procs[i])
    ensures CarriesAll(Run(s, acts), i, s.writes)
  {
    if acts != [] {
      EventsCarryTheirWrites(s, acts[..|acts| - 1], i);
      StepCarriesAll(Run(s, acts[..|acts| - 1]), acts[|acts| - 1], i, s.writes);
    }
  }

  /** The winner of the lease publishes the write that it ran for. */
  lemma LeaderPublishesItsWrite(acts: seq<Action>, i: nat, later: seq<Action>)
    requires CanRun(INIT, acts) && Enabled(Run(INIT, acts), RunCallback(i)) && !Run(INIT, acts).lease
    requires CanRun(Next(Run(INIT, acts), RunCallback(i)), later)
    ensures var t := Run(Next(Run(INIT, acts), RunCallback(i)), later);
            && i < |t.procs|
            && (t.procs[i].LeaderSent? || t.procs[i].Done? ==> Covered(t.sent, Run(INIT, acts).procs[i].write))
  {
    RunKeepsInv(INIT, acts);
    var s := Run(INIT, acts);
    var u := Next(s, RunCallback(i));
    assert u.procs[i] == Leading && u.writes == s.writes && s.procs[i].write <= s.writes;
    hide Run, CanRun, Inv;
    EventsCarryTheirWrites(u, later, i);
    var t := Run(u, later);
    if Covered(t.sent, s.writes) {
      var k :| 0 <= k < |t.sent| && t.sent[k] >= s.writes;
      AnyAt(t.sent, (v: nat) => v >= s.procs[i].write, k);
    }
  }

  /** The steps that come from outside: a commit makes the next write and a callback for it, a redelivery
      another trailing task, and a timeout only lets the lease go. */
  lemma OutsideSteps(s: State)
    ensures Next(s, Commit) == s.(writes := s.writes + 1, procs := s.procs + [Committed(s.writes + 1)])
    ensures Enabled(s, Redeliver) <==> s.dispatched > 0
    ensures s.dispatched > 0 ==> Next(s, Redeliver).procs == s.procs + [TaskQueued] && Next(s, Redeliver).sent == s.sent
    ensures s.lease ==> !Next(s, Expire).lease && Next(s, Expire).procs == s.procs && Next(s, Expire).sent == s.sent
  {
  }

  /** Conservation: once nothing is outstanding, each lease taken has cost exactly two events, the
      leading one and the trailing one, and each redelivery one more; and the lease was taken once
      more than it was freed, or as often, according to whether it is held. */
  lemma EventsPerLease(acts: seq<Action>)
    requires CanRun(INIT, acts) && Quiescent(Run(INIT, acts))
    ensures var s := Run(INIT, acts);
            && |s.sent| == 2 * s.taken + s.redelivered
            && s.taken == s.freed + (if s.lease then 1 else 0)
  {
    var s := Run(INIT, acts);
    RunKeepsInv(INIT, acts);
    QuiescentOwesNothing(s.procs);
  }

  /** A burst of any number of commits against one held lease sends nothing and dispatches nothing. */
  lemma {:induction false} BurstIsSilent(s: State, acts: seq<Action>)
    requires s.lease && CanRun(s, acts)
    requires forall a | a in acts :: a.Commit? || a.RunCallback?
    ensures Run(s, acts).sent == s.sent && Run(s, acts).dispatched == s.dispatched
    ensures Run(s, acts).lease && Run(s, acts).taken == s.taken
  {
    if acts != [] {
      BurstIsSilent(s, acts[..|acts| - 1]);
      assert acts[|acts| - 1] in acts;
    }
  }

  // ----- every drain ends, published

  /** The steps the protocol takes by itself: no new commit, no redelivery, no expiry. */
  predicate Internal(a: Action) {
    !a.Commit? && !a.Redeliver? && !a.Expire?
  }

  function StepsLeft(p: Pc): nat {
    match p
    case Committed(_) => 9
    case Leading => 8
    case LeaderReading(_) => 7
    case LeaderRead(_) => 6
    case LeaderSent => 5
    case TaskQueued => 4
    case TaskReleased => 3
    case TaskReading(_) => 2
    case TaskRead(_) => 1
    case Done => 0
  }

  lemma DispatchProgresses(s: State, i: nat)
    requires Enabled(s, Dispatch(i))
    ensures Sum(Next(s, Dispatch(i)).procs, StepsLeft) < Sum(s.procs, StepsLeft)
  {
    SumUpdate(s.procs, StepsLeft, i, Done);
    SumAppend(s.procs[i := Done], StepsLeft, TaskQueued);
  }

  lemma MoveProgresses(s: State, a: Action)
    requires Enabled(s, a) && Internal(a) && !a.Dispatch?
    ensures Sum(Next(s, a).procs, StepsLeft) < Sum(s.procs, StepsLeft)
  {
    var to := Next(s, a).procs[a.i];
    assert StepsLeft(to) < StepsLeft(s.procs[a.i]);
    assert Next(s, a).procs == s.procs[a.i := to];
    SumUpdate(s.procs, StepsLeft, a.i, to);
  }

  lemma InternalStepProgresses(s: State, a: Action)
    requires Enabled(s, a) && Internal(a)
    ensures Sum(Next(s, a).procs, StepsLeft) < Sum(s.procs, StepsLeft)
  {
    if a.Dispatch? {
      DispatchProgresses(s, a.i);
    } else {
      MoveProgresses(s, a);
    }
  }

  /** Left to itself the protocol takes at most this many steps, in any order. */
  lemma {:induction false} DrainIsBounded(s: State, acts: seq<Action>)
    requires CanRun(s, acts) && forall a | a in acts :: Internal(a)
    ensures |acts| + Sum(Run(s, acts).procs, StepsLeft) <= Sum(s.procs, StepsLeft)
  {
    if acts != [] {
      DrainIsBounded(s, acts[..|acts| - 1]);
      assert acts[|acts| - 1] in acts;
      InternalStepProgresses(Run(s, acts[..|acts| - 1]), acts[|acts| - 1]);
    }
  }

  /** It stops only when nothing is outstanding. */
  lemma StuckMeansQuiescent(s: State)
    requires forall a | Internal(a) :: !Enabled(s, a)
    ensures Quiescent(s)
  {
    forall i | 0 <= i < |s.procs| ensures s.procs[i].Done? {
      assert !Enabled(s, RunCallback(i)) && !Enabled(s, StartRead(i)) && !Enabled(s, FinishRead(i)) && !Enabled(s, SendEvent(i));
      assert !Enabled(s, Dispatch(i)) && !Enabled(s, ReleaseLease(i));
    }
  }

  // ----- when the last event is the newest

  /** The newest event sent is of a read that began before the newest write. */
  predicate LastIsOld(s: State) {
    s.sent != [] && s.sent[|s.sent| - 1] < s.writes
  }

  /** A trailing task whose read began before the newest write and whose event is yet to be sent. */
  predicate Overtaken(p: Pc, writes: nat) {
    (p.TaskReading? || p.TaskRead?) && p.version < writes
  }

  ghost predicate HoldsOvertaken(s: State) {
    exists i | 0 <= i < |s.procs| :: Overtaken(s.procs[i], s.writes)
  }

  predicate NoCommit(acts: seq<Action>) {
    forall a | a in acts :: !a.Commit?
  }

  predicate AllInternal(acts: seq<Action>) {
    forall a | a in acts :: Internal(a)
  }

  /** Without an overtaken task, either the last event is the newest or another is still to come. An
      overtaken leader does no harm: it owes a trailing read. */
  ghost predicate EndsNewest(s: State) {
    !HoldsOvertaken(s) && (Quiescent(s) ==> !LastIsOld(s))
  }

  lemma StepEndsNewest(s: State, a: Action)
    requires Inv(s) && Enabled(s, a) && !a.Commit? && EndsNewest(s)
    ensures EndsNewest(Next(s, a))
  {
    var t := Next(s, a);
    forall i | 0 <= i < |t.procs| ensures !Overtaken(t.procs[i], t.writes) {
      if i < |s.procs| { assert !Overtaken(s.procs[i], s.writes); }
    }
    if a.RunCallback? && s.lease {
      var k :| 0 <= k < |s.procs| && WillRelease(s.procs[k]);
      assert !t.procs[k].Done?;
    } else if a.SendEvent? && s.procs[a.i].TaskRead? {
      assert !Overtaken(s.procs[a.i], s.writes);
    } else if !a.Expire? {
      var k := if a.Dispatch? || a.Redeliver? then |s.procs| else a.i;
      assert !t.procs[k].Done?;
    }
  }

  lemma {:induction false} RunEndsNewest(s: State, acts: seq<Action>)
    requires Inv(s) && CanRun(s, acts) && NoCommit(acts) && EndsNewest(s)
    ensures EndsNewest(Run(s, acts))
  {
    if acts != [] {
      var before := acts[..|acts| - 1];
      RunEndsNewest(s, before);
      RunKeepsInv(s, before);
      assert acts[|acts| - 1] in acts;
      StepEndsNewest(Run(s, before), acts[|acts| - 1]);
    }
  }

  lemma Then(s0: State, acts: seq<Action>, s: State, a: Action) returns (acts': seq<Action>, s': State)
    requires CanRun(s0, acts) && s == Run(s0, acts) && Enabled(s, a)
    ensures acts' == acts + [a] && s' == Next(s, a)
    ensures CanRun(s0, acts') && s' == Run(s0, acts')
  {
    RunOneMore(s0, acts, a);
    acts', s' := acts + [a], Next(s, a);
  }

  lemma OwnStep(s: State, k: nat) returns (a: Action)
    requires k < |s.procs| && !s.procs[k].Done?
    ensures Enabled(s, a) && Internal(a) && a.i == k
  {
    a := match s.procs[k]
      case Committed(_) => RunCallback(k)
      case Leading => StartRead(k)
      case TaskReleased => StartRead(k)
      case LeaderReading(_) => FinishRead(k)
      case TaskReading(_) => FinishRead(k)
      case LeaderSent => Dispatch(k)
      case TaskQueued => ReleaseLease(k)
      case _ => SendEvent(k);
  }

  /** Everybody but process i runs to the end, in some order. */
  lemma DrainOthers(s0: State, acts: seq<Action>, s: State, i: nat) returns (acts': seq<Action>, s': State)
    requires CanRun(s0, acts) && s == Run(s0, acts) && AllInternal(acts)
    requires i < |s.procs| && s.procs[i].TaskRead?
    ensures CanRun(s0, acts') && s' == Run(s0, acts') && AllInternal(acts')
    ensures i < |s'.procs| && s'.procs[i] == s.procs[i] && s'.writes == s.writes
    ensures forall k | 0 <= k < |s'.procs| && k != i :: s'.procs[k].Done?
    decreases Sum(s.procs, StepsLeft)
  {
    hide Run, CanRun;
    if k :| 0 <= k < |s.procs| && k != i && !s.procs[k].Done? {
      var a := OwnStep(s, k);
      InternalStepProgresses(s, a);
      acts', s' := Then(s0, acts, s, a);
      acts', s' := DrainOthers(s0, acts', s', i);
    } else {
      acts', s' := acts, s;
    }
  }

  lemma SendLast(s: State, i: nat)
    requires i < |s.procs| && s.procs[i].TaskRead? && s.procs[i].version < s.writes
    requires forall k | 0 <= k < |s.procs| && k != i :: s.procs[k].Done?
    ensures Enabled(s, SendEvent(i))
    ensures var t := Next(s, SendEvent(i)); Quiescent(t) && LastIsOld(t) && t.writes == s.writes
  {
  }

  lemma RunNothing(s: State)
    ensures CanRun(s, []) && Run(s, []) == s
  {
  }

  /** From an overtaken task: let all others finish, and send its event last. */
  lemma OvertakenCanBeLast(s: State, i: nat) returns (acts: seq<Action>)
    requires i < |s.procs| && Overtaken(s.procs[i], s.writes)
    ensures CanRun(s, acts) && AllInternal(acts)
    ensures Quiescent(Run(s, acts)) && LastIsOld(Run(s, acts)) && Run(s, acts).writes == s.writes
  {
    RunNothing(s);
    var t := s;
    acts := [];
    if s.procs[i].TaskReading? {
      hide Run, CanRun;
      acts, t := Then(s, acts, t, FinishRead(i));
    }
    hide Run, CanRun, Next;
    acts, t := DrainOthers(s, acts, t, i);
    SendLast(t, i);
    acts, t := Then(s, acts, t, SendEvent(i));
  }

  /** The run comes to rest with an old event as its last. */
  ghost predicate RestsOld(s: State, acts: seq<Action>) {
    CanRun(s, acts) && NoCommit(acts) && Quiescent(Run(s, acts)) && LastIsOld(Run(s, acts))
  }

  /** Exactly when the last event can be an old one: from any state of the protocol, with no further
      commit, and whether or not leases expire and tasks are redelivered, some run comes to rest with an event last whose read began
      before the newest write if and only if a trailing task holds such a read now, or nothing is
      outstanding and the last event already is one. */
  lemma LastEventOldIff(s: State)
    requires Inv(s)
    ensures (exists acts :: RestsOld(s, acts)) <==> HoldsOvertaken(s) || (Quiescent(s) && LastIsOld(s))
    ensures (exists acts :: RestsOld(s, acts) && AllInternal(acts)) <==> HoldsOvertaken(s) || (Quiescent(s) && LastIsOld(s))
  {
    RunNothing(s);
    if HoldsOvertaken(s) {
      var i :| 0 <= i < |s.procs| && Overtaken(s.procs[i], s.writes);
      var acts := OvertakenCanBeLast(s, i);
      assert RestsOld(s, acts) && AllInternal(acts);
    } else if Quiescent(s) && LastIsOld(s) {
      assert RestsOld(s, []) && AllInternal([]);
    } else {
      forall acts | RestsOld(s, acts) ensures false {
        RunEndsNewest(s, acts);
      }
    }
  }

  lemma {:induction false} RunOn(s: State, first: seq<Action>, second: seq<Action>)
    requires CanRun(s, first) && CanRun(Run(s, first), second)
    ensures CanRun(s, first + second) && Run(s, first + second) == Run(Run(s, first), second)
  {
    if second == [] {
      assert first + second == first;
    } else {
      var n := |second| - 1;
      RunOn(s, first, second[..n]);
      assert first + second == first + second[..n] + [second[n]];
      RunOneMore(s, first + second[..n], second[n]);
    }
  }

  /** Any run from the start that has overtaken a task can be brought to rest so. */
  lemma OldEnding(first: seq<Action>) returns (acts: seq<Action>)
    requires CanRun(INIT, first) && HoldsOvertaken(Run(INIT, first))
    ensures CanRun(INIT, acts) && Quiescent(Run(INIT, acts)) && LastIsOld(Run(INIT, acts))
  {
    RunKeepsInv(INIT, first);
    hide Run, CanRun, Inv, HoldsOvertaken, Quiescent, LastIsOld, NoCommit;
    LastEventOldIff(Run(INIT, first));
    var second :| RestsOld(Run(INIT, first), second);
    RunOn(INIT, first, second);
    acts := first + second;
  }

  /** A trailing task can read the versions and pause while a second write commits. */
  lemma SlowTrailingTask() returns (acts: seq<Action>)
    ensures CanRun(INIT, acts) && HoldsOvertaken(Run(INIT, acts))
  {
    RunNothing(INIT);
    hide Run;
    hide CanRun;
    var s := INIT;
    acts := [];
    acts, s := Then(INIT, acts, s, Commit);              // process 0
    acts, s := Then(INIT, acts, s, RunCallback(0));
    acts, s := Then(INIT, acts, s, StartRead(0));
    acts, s := Then(INIT, acts, s, FinishRead(0));
    acts, s := Then(INIT, acts, s, SendEvent(0));
    acts, s := Then(INIT, acts, s, Dispatch(0));         // task 1
    assert s == State(1, true, [Done, TaskQueued], {1}, [1], [1], 1, 0, 1, 0);
    acts, s := Then(INIT, acts, s, ReleaseLease(1));
    acts, s := Then(INIT, acts, s, StartRead(1));
    acts, s := Then(INIT, acts, s, FinishRead(1));
    acts, s := Then(INIT, acts, s, Commit);              // process 2
    assert Overtaken(s.procs[1], s.writes);
  }

  /** So it does happen: that task's event, of a read finished before the second write, can come last.
      The newest version was sent all the same. */
  lemma LastEventMayBeOlder() returns (acts: seq<Action>)
    ensures CanRun(INIT, acts) && Quiescent(Run(INIT, acts)) && LastIsOld(Run(INIT, acts))
  {
    var first := SlowTrailingTask();
    hide *;
    acts := OldEnding(first);
  }

  // ----- the code, step by step on mutable state

  function ReadAndSend(s: State, i: nat): State {
    Next(Next(Next(s, StartRead(i)), FinishRead(i)), SendEvent(i))
  }

  /** The cache, the tables, the broker and the stream, as the module's functions update them. */
  class Publisher {
    var writes: nat
    var lease: bool
    var procs: seq<Pc>
    var asked: set<nat>
    var seen: seq<nat>
    var sent: seq<nat>
    var taken: nat
    var freed: nat
    var dispatched: nat
    var redelivered: nat

    ghost function View(): State
      reads this
    {
      State(writes, lease, procs, asked, seen, sent, taken, freed, dispatched, redelivered)
    }

    constructor ()
      ensures View() == INIT
    {
      writes, lease, procs, asked, seen, sent := 0, false, [], {}, [], [];
      taken, freed, dispatched, redelivered := 0, 0, 0, 0;
    }

    /** cache.add: succeeds for exactly one caller while the key stands. */
    method AddLease(i: nat) returns (added: bool)
      requires Enabled(View(), RunCallback(i))
      modifies this
      ensures added == !old(lease) && lease
      ensures View() == Next(old(View()), RunCallback(i))
      ensures asked == old(asked) + {old(procs[i]).write} && sent == old(sent) && dispatched == old(dispatched)
      ensures procs == old(procs)[i := if added then Leading else Done]
    {
      asked := asked + {procs[i].write};
      added := !lease;
      if added {
        lease, taken, procs := true, taken + 1, procs[i := Leading];
      } else {
        procs := procs[i := Done];
      }
    }

    /** publish_data_versions_now with no other process in between: read the versions, then send them. */
    method PublishDataVersionsNow(i: nat)
      requires Enabled(View(), StartRead(i))
      modifies this
      ensures View() == ReadAndSend(old(View()), i)
      ensures sent == old(sent) + [old(writes)] && writes == old(writes) && lease == old(lease)
      ensures procs == old(procs)[i := if old(procs[i]).Leading? then LeaderSent else Done]
    {
      var version := writes;
      seen := seen + [version];
      procs := procs[i := if procs[i].Leading? then LeaderReading(version) else TaskReading(version)];
      procs := procs[i := if procs[i].LeaderReading? then LeaderRead(version) else TaskRead(version)];
      sent := sent + [version];
      procs := procs[i := if procs[i].LeaderRead? then LeaderSent else Done];
    }

    method ApplyAsync(i: nat)
      requires Enabled(View(), Dispatch(i))
      modifies this
      ensures View() == Next(old(View()), Dispatch(i))
      ensures dispatched == old(dispatched) + 1 && procs == old(procs)[i := Done] + [TaskQueued]
      ensures sent == old(sent) && lease == old(lease)
    {
      dispatched := dispatched + 1;
      procs := procs[i := Done] + [TaskQueued];
    }

    /** schedule_data_versions_publish with no other process in between: one run of the steps above. */
    method ScheduleDataVersionsPublish(i: nat)
      requires Enabled(View(), RunCallback(i))
      modifies this
      ensures var first := Next(old(View()), RunCallback(i));
              View() == if old(lease) then first
                        else Next(ReadAndSend(first, i), Dispatch(i))
      ensures lease && asked == old(asked) + {old(procs[i]).write}
      ensures sent == if old(lease) then old(sent) else old(sent) + [old(writes)]
      ensures procs == if old(lease) then old(procs)[i := Done] else old(procs)[i := Done] + [TaskQueued]
    {
      var added := AddLease(i);
      if !added {
        return;
      }
      PublishDataVersionsNow(i);
      ApplyAsync(i);
    }

    /** publish_trailing_data_versions with no other process in between: release first, read second. */
    method PublishTrailingDataVersions(i: nat)
      requires Enabled(View(), ReleaseLease(i))
      modifies this
      ensures View() == ReadAndSend(Next(old(View()), ReleaseLease(i)), i)
      ensures !lease && sent == old(sent) + [old(writes)] && procs == old(procs)[i := Done]
    {
      freed := freed + (if lease then 1 else 0);
      lease := false;
      procs := procs[i := TaskReleased];
      PublishDataVersionsNow(i);
    }
  }
}
