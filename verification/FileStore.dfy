/** apps/core/file_store.py: concurrent writers of a private file store.

    A directory entry and the bytes it leads to are separate things: a rename moves an entry, a hard
    link makes a second entry for the same inode. Every system call is one atomic step, the steps of
    any number of writers interleave freely, and a writer may crash between any two of them. The
    random part of a temporary name is the identity of the writer, so no two writers share one. */
module FileStore {
  import opened Wrappers

  type Byte = x: int | 0 <= x < 256
  type Bytes = seq<Byte>

  datatype Name = Target(path: string) | Temp(path: string, writer: nat)

  datatype Call = Call(path: string, payload: Bytes, overwrite: bool)

  datatype Pc =
    | Start
    | Checked                  // the fast existence test passed
    | Writing(inode: nat)      // temporary file open; part of the payload written
    | Written(inode: nat)      // payload complete, file closed
    | Cleanup                  // in `finally`, before the existence test
    | Unlinking                // the temporary file was seen; about to be unlinked
    | Finished
    | Crashed

  /** `published` records whether this call put its payload under the target name. */
  datatype Writer = Writer(call: Call, pc: Pc, published: bool)

  /** What the store's users can tell has happened, in order. */
  datatype Event = Created(writer: nat, path: string, payload: Bytes)
                 | Replaced(writer: nat, path: string, payload: Bytes)
                 | Removed(path: string)

  datatype State = State(
    names: map<Name, nat>, inodes: map<nat, Bytes>, nextInode: nat,
    writers: seq<Writer>, history: seq<Event>)

  datatype Action =
    | Begin(call: Call) | CheckExists(i: nat) | OpenTemp(i: nat) | WriteSome(i: nat, upTo: nat) | Close(i: nat)
    | WriteFails(i: nat) | Publish(i: nat) | TestTemp(i: nat) | UnlinkTemp(i: nat) | Crash(i: nat)
    | Delete(path: string)

  const INIT := State(map[], map[], 0, [], [])

  predicate At(s: State, i: nat, pc: Pc) {
    i < |s.writers| && s.writers[i].pc == pc
  }

  predicate Enabled(s: State, a: Action) {
    match a
    case Begin(_) => true
    case Delete(_) => true
    case CheckExists(i) => At(s, i, Start)
    case OpenTemp(i) => At(s, i, Checked)
    case WriteSome(i, upTo) =>
      && i < |s.writers| && s.writers[i].pc.Writing? && s.writers[i].pc.inode in s.inodes
      && |s.inodes[s.writers[i].pc.inode]| < upTo <= |s.writers[i].call.payload|
    case Close(i) =>
      && i < |s.writers| && s.writers[i].pc.Writing? && s.writers[i].pc.inode in s.inodes
      && |s.inodes[s.writers[i].pc.inode]| == |s.writers[i].call.payload|
    case WriteFails(i) => i < |s.writers| && s.writers[i].pc.Writing?
    case Publish(i) => i < |s.writers| && s.writers[i].pc.Written?
    case TestTemp(i) => At(s, i, Cleanup)
    case UnlinkTemp(i) => At(s, i, Unlinking)
    case Crash(i) => i < |s.writers| && !s.writers[i].pc.Finished?
  }

  function Move(s: State, i: nat, pc: Pc): State
    requires i < |s.writers|
  {
    s.(writers := s.writers[i := s.writers[i].(pc := pc)])
  }

  function TempOf(s: State, i: nat): Name
    requires i < |s.writers|
  {
    Temp(s.writers[i].call.path, i)
  }

  /** rename(temp, target): the target entry now leads where the temporary one led. */
  function Rename(names: map<Name, nat>, temp: Name, target: Name): map<Name, nat>
    requires temp in names
  {
    names[target := names[temp]] - {temp}
  }

  /** Path.replace when overwriting, else os.link, which refuses an existing target. */
  function PublishNext(s: State, i: nat): State
    requires i < |s.writers| && s.writers[i].pc.Written?
  {
    var call := s.writers[i].call;
    var temp, target := TempOf(s, i), Target(call.path);
    if temp !in s.names then Move(s, i, Cleanup)
    else if call.overwrite then
      s.(names := Rename(s.names, temp, target),
         writers := s.writers[i := Writer(call, Cleanup, true)],
         history := s.history + [Replaced(i, call.path, call.payload)])
    else if target in s.names then Move(s, i, Cleanup)
    else
      s.(names := s.names[target := s.names[temp]],
         writers := s.writers[i := Writer(call, Cleanup, true)],
         history := s.history + [Created(i, call.path, call.payload)])
  }

  function Next(s: State, a: Action): State {
    if !Enabled(s, a) then s else
    match a
    case Begin(call) => s.(writers := s.writers + [Writer(call, Start, false)])
    case CheckExists(i) =>
      var call := s.writers[i].call;
      Move(s, i, if !call.overwrite && Target(call.path) in s.names then Finished else Checked)
    case OpenTemp(i) =>
      // open("xb") would refuse an existing name
      if TempOf(s, i) in s.names then Move(s, i, Cleanup) else
      Move(s, i, Writing(s.nextInode)).(
        names := s.names[TempOf(s, i) := s.nextInode],
        inodes := s.inodes[s.nextInode := []], nextInode := s.nextInode + 1)
    case WriteSome(i, upTo) =>
      s.(inodes := s.inodes[s.writers[i].pc.inode := s.writers[i].call.payload[..upTo]])
    case Close(i) => Move(s, i, Written(s.writers[i].pc.inode))
    case WriteFails(i) => Move(s, i, Cleanup)
    case Publish(i) => PublishNext(s, i)
    case TestTemp(i) => Move(s, i, if TempOf(s, i) in s.names then Unlinking else Finished)
    case UnlinkTemp(i) => Move(s, i, Finished).(names := s.names - {TempOf(s, i)})
    case Crash(i) => Move(s, i, Crashed)
    case Delete(p) =>
      if Target(p) in s.names then s.(names := s.names - {Target(p)}, history := s.history + [Removed(p)]) else s
  }

  function Run(s: State, acts: seq<Action>): State {
    if acts == [] then s else Next(Run(s, acts[..|acts| - 1]), acts[|acts| - 1])
  }

  // ----- the store its users see: a map from paths to whole payloads

  function Apply(store: map<string, Bytes>, e: Event): map<string, Bytes> {
    match e
    case Created(_, p, b) => store[p := b]
    case Replaced(_, p, b) => store[p := b]
    case Removed(p) => store - {p}
  }

  function Replay(history: seq<Event>): map<string, Bytes> {
    if history == [] then map[] else Apply(Replay(history[..|history| - 1]), history[|history| - 1])
  }

  /** A history the one-step store allows: a create finds its path free, a removal finds it taken. */
  predicate Legal(history: seq<Event>) {
    history == [] ||
    var before := history[..|history| - 1];
    var e := history[|history| - 1];
    && Legal(before)
    && (e.Created? ==> e.path !in Replay(before))
    && (e.Removed? ==> e.path in Replay(before))
  }

  lemma HistoryGrows(history: seq<Event>, e: Event)
    ensures Replay(history + [e]) == Apply(Replay(history), e)
    ensures Legal(history + [e]) <==>
            Legal(history) && (e.Created? ==> e.path !in Replay(history)) && (e.Removed? ==> e.path in Replay(history))
  {
    assert (history + [e])[..|history|] == history;
  }

  // ----- the invariant

  /** A file whose bytes are still this writer's own. */
  predicate OwnsInode(w: Writer) {
    w.pc.Writing? || w.pc.Written?
  }

  ghost predicate WriterInv(s: State, i: nat)
    requires i < |s.writers|
  {
    var w := s.writers[i];
    && (OwnsInode(w) ==>
          && TempOf(s, i) in s.names && s.names[TempOf(s, i)] == w.pc.inode
          && w.pc.inode in s.inodes
          && s.inodes[w.pc.inode] <= w.call.payload
          && (w.pc.Written? ==> s.inodes[w.pc.inode] == w.call.payload)
          && !w.published)
    && (w.pc.Start? || w.pc.Checked? ==> !w.published)
    && (w.pc.Start? || w.pc.Checked? || w.pc.Finished? ==> TempOf(s, i) !in s.names)
  }

  ghost predicate NamesInv(s: State) {
    && (forall n | n in s.names :: s.names[n] in s.inodes)
    && (forall k | k in s.inodes :: k < s.nextInode)
    && (forall n | n in s.names && n.Temp? :: n.writer < |s.writers| && s.writers[n.writer].call.path == n.path)
  }

  /** An inode still being filled is reached only through its writer's temporary name. */
  ghost predicate Private(s: State) {
    forall i, n | 0 <= i < |s.writers| && OwnsInode(s.writers[i]) && n in s.names ::
      s.names[n] == s.writers[i].pc.inode ==> n == TempOf(s, i)
  }

  /** The target entries are exactly the store that the history describes. */
  ghost predicate Shows(s: State, store: map<string, Bytes>) {
    forall p: string ::
      && (Target(p) in s.names <==> p in store)
      && (Target(p) in s.names ==> s.names[Target(p)] in s.inodes && s.inodes[s.names[Target(p)]] == store[p])
  }

  function EventsOf(history: seq<Event>, i: nat): nat {
    if history == [] then 0
    else EventsOf(history[..|history| - 1], i)
         + (var e := history[|history| - 1]; if !e.Removed? && e.writer == i then 1 else 0)
  }

  /** Every event names its writer's own call, and a call accounts for one event or none. */
  ghost predicate EventsMatchWriters(s: State) {
    && (forall e | e in s.history && !e.Removed? ::
          && e.writer < |s.writers|
          && e.path == s.writers[e.writer].call.path && e.payload == s.writers[e.writer].call.payload
          && (e.Created? <==> !s.writers[e.writer].call.overwrite))
    && (forall i: nat :: EventsOf(s.history, i) == if i < |s.writers| && s.writers[i].published then 1 else 0)
  }

  ghost predicate Inv(s: State) {
    && NamesInv(s)
    && (forall i | 0 <= i < |s.writers| :: WriterInv(s, i))
    && Private(s)
    && Shows(s, Replay(s.history))
    && Legal(s.history)
    && EventsMatchWriters(s)
  }

  lemma EventsGrow(history: seq<Event>, e: Event, i: nat)
    ensures EventsOf(history + [e], i) == EventsOf(history, i) + (if !e.Removed? && e.writer == i then 1 else 0)
  {
    assert (history + [e])[..|history|] == history;
  }

  /** A step that only moves a writer on, without touching the file system. */
  lemma MoveKeepsInv(s: State, i: nat, pc: Pc)
    requires Inv(s) && i < |s.writers|
    requires WriterInv(Move(s, i, pc), i)
    requires OwnsInode(Move(s, i, pc).writers[i]) ==> OwnsInode(s.writers[i]) && pc.inode == s.writers[i].pc.inode
    ensures Inv(Move(s, i, pc))
  {
    hide Legal;
    hide EventsOf;
    hide Replay;
    var t := Move(s, i, pc);
    forall j | 0 <= j < |t.writers| ensures WriterInv(t, j) {
      if j != i { assert WriterInv(s, j); }
    }
  }

  lemma BeginKeepsInv(s: State, call: Call)
    requires Inv(s)
    ensures Inv(Next(s, Begin(call)))
  {
    hide Legal;
    hide EventsOf;
    hide Replay;
    var t := Next(s, Begin(call));
    assert EventsOf(s.history, |s.writers|) == 0;
    forall j | 0 <= j < |t.writers| ensures WriterInv(t, j) {
      if j < |s.writers| { assert WriterInv(s, j); }
    }
  }

  lemma OpenKeepsWriters(s: State, i: nat)
    requires Inv(s) && Enabled(s, OpenTemp(i))
    ensures forall j | 0 <= j < |s.writers| :: WriterInv(Next(s, OpenTemp(i)), j)
  {
    hide Legal, EventsOf, Replay, Private;
    var t := Next(s, OpenTemp(i));
    assert WriterInv(s, i) && s.nextInode !in s.inodes;
    forall j | 0 <= j < |t.writers| ensures WriterInv(t, j) {
      if j != i { assert WriterInv(s, j); }
    }
  }

  lemma OwnedStands(s: State, j: nat)
    requires Inv(s) && j < |s.writers| && OwnsInode(s.writers[j])
    ensures s.writers[j].pc.inode in s.inodes && s.writers[j].pc.inode < s.nextInode
  {
    assert WriterInv(s, j);
  }

  lemma OpenKeepsPrivate(s: State, i: nat)
    requires Inv(s) && Enabled(s, OpenTemp(i))
    ensures Private(Next(s, OpenTemp(i)))
  {
    var t := Next(s, OpenTemp(i));
    forall j, n | 0 <= j < |t.writers| && OwnsInode(t.writers[j]) && n in t.names && t.names[n] == t.writers[j].pc.inode
      ensures n == TempOf(t, j) {
      if j != i { OwnedStands(s, j); }
    }
  }

  lemma OpenKeepsShows(s: State, i: nat)
    requires Inv(s) && Enabled(s, OpenTemp(i))
    ensures Shows(Next(s, OpenTemp(i)), Replay(Next(s, OpenTemp(i)).history))
  {
    hide Legal, EventsOf, Replay, WriterInv, Private;
    var t := Next(s, OpenTemp(i));
    forall p: string ensures (Target(p) in t.names <==> p in Replay(t.history))
      && (Target(p) in t.names ==> t.names[Target(p)] in t.inodes && t.inodes[t.names[Target(p)]] == Replay(t.history)[p]) {
      assert Target(p) in t.names <==> Target(p) in s.names;
    }
  }

  lemma OpenKeepsNames(s: State, i: nat)
    requires Inv(s) && Enabled(s, OpenTemp(i))
    ensures NamesInv(Next(s, OpenTemp(i)))
  {
    hide Legal, EventsOf, Replay, WriterInv, Private, Shows, EventsMatchWriters;
  }

  lemma SameCallsMatch(s: State, t: State)
    requires EventsMatchWriters(s) && t.history == s.history && |t.writers| == |s.writers|
    requires forall k | 0 <= k < |s.writers| :: t.writers[k].call == s.writers[k].call && t.writers[k].published == s.writers[k].published
    ensures EventsMatchWriters(t)
  {
    hide EventsOf;
    forall e | e in t.history && !e.Removed? ensures e.writer < |t.writers| && e.path == t.writers[e.writer].call.path
      && e.payload == t.writers[e.writer].call.payload && (e.Created? <==> !t.writers[e.writer].call.overwrite) {
      assert e in s.history;
    }
  }

  lemma OpenKeepsInv(s: State, i: nat)
    requires Inv(s) && Enabled(s, OpenTemp(i))
    ensures Inv(Next(s, OpenTemp(i)))
  {
    OpenKeepsWriters(s, i);
    OpenKeepsPrivate(s, i);
    OpenKeepsShows(s, i);
    OpenKeepsNames(s, i);
    hide Legal, EventsOf, Replay, WriterInv, Private, Shows, NamesInv;
    var t := Next(s, OpenTemp(i));
    assert t.history == s.history && |t.writers| == |s.writers|;
    SameCallsMatch(s, t);
    hide EventsMatchWriters;
  }

  lemma WriteKeepsInv(s: State, i: nat, upTo: nat)
    requires Inv(s) && Enabled(s, WriteSome(i, upTo))
    ensures Inv(Next(s, WriteSome(i, upTo)))
  {
    hide Legal;
    hide EventsOf;
    hide Replay;
    var t := Next(s, WriteSome(i, upTo));
    var inode := s.writers[i].pc.inode;
    assert WriterInv(s, i);
    forall j | 0 <= j < |t.writers| ensures WriterInv(t, j) {
      assert WriterInv(s, j);
      if j != i && OwnsInode(s.writers[j]) {
        assert TempOf(s, j) in s.names && TempOf(s, j) != TempOf(s, i);
        assert s.names[TempOf(s, j)] != inode;
      }
    }
    forall p: string ensures (Target(p) in t.names <==> p in Replay(t.history))
      && (Target(p) in t.names ==> t.names[Target(p)] in t.inodes && t.inodes[t.names[Target(p)]] == Replay(t.history)[p]) {
      if Target(p) in s.names { assert s.names[Target(p)] != inode; }
    }
  }

  lemma EventsMatchAfterPublish(s: State, i: nat)
    requires Inv(s) && Enabled(s, Publish(i)) && Next(s, Publish(i)).history != s.history
    ensures EventsMatchWriters(Next(s, Publish(i)))
  {
    hide Shows;
    hide Private;
    hide NamesInv;
    hide Rename;
    hide Legal;
    hide EventsOf;
    hide Replay;
    var t := Next(s, Publish(i));
    assert WriterInv(s, i);
    var e := t.history[|s.history|];
    assert t.history == s.history + [e];
    forall j: nat ensures EventsOf(t.history, j) == if j < |t.writers| && t.writers[j].published then 1 else 0 {
      EventsGrow(s.history, e, j);
    }
  }

  lemma LinkKeepsInv(s: State, i: nat)
    requires Inv(s) && Enabled(s, Publish(i)) && !s.writers[i].call.overwrite && Target(s.writers[i].call.path) !in s.names
    ensures Inv(Next(s, Publish(i)))
  {
    hide Legal;
    hide EventsOf;
    hide Replay;
    assert WriterInv(s, i);
    var t := Next(s, Publish(i));
    var call := s.writers[i].call;
    var target := Target(call.path);
    EventsMatchAfterPublish(s, i);
    HistoryGrows(s.history, Created(i, call.path, call.payload));
    forall j | 0 <= j < |t.writers| ensures WriterInv(t, j) {
      assert WriterInv(s, j);
    }
    forall j, n | 0 <= j < |t.writers| && OwnsInode(t.writers[j]) && n in t.names && t.names[n] == t.writers[j].pc.inode
      ensures n == TempOf(t, j) {
      assert j != i && OwnsInode(s.writers[j]);
      assert TempOf(s, i) != TempOf(s, j) && s.names[TempOf(s, i)] != s.writers[j].pc.inode;
    }
    forall p: string ensures (Target(p) in t.names <==> p in Replay(t.history))
      && (Target(p) in t.names ==> t.names[Target(p)] in t.inodes && t.inodes[t.names[Target(p)]] == Replay(t.history)[p]) {
      if p != call.path { assert Target(p) in t.names <==> Target(p) in s.names; }
    }
  }

  lemma ReplaceKeepsInv(s: State, i: nat)
    requires Inv(s) && Enabled(s, Publish(i)) && s.writers[i].call.overwrite
    ensures Inv(Next(s, Publish(i)))
  {
    hide Legal;
    hide EventsOf;
    hide Replay;
    assert WriterInv(s, i);
    var t := Next(s, Publish(i));
    var call := s.writers[i].call;
    var target := Target(call.path);
    EventsMatchAfterPublish(s, i);
    HistoryGrows(s.history, Replaced(i, call.path, call.payload));
    forall j | 0 <= j < |t.writers| ensures WriterInv(t, j) {
      assert WriterInv(s, j);
      if j != i { assert TempOf(s, j) != TempOf(s, i) && TempOf(t, j) == TempOf(s, j); }
    }
    forall j, n | 0 <= j < |t.writers| && OwnsInode(t.writers[j]) && n in t.names && t.names[n] == t.writers[j].pc.inode
      ensures n == TempOf(t, j) {
      assert j != i && OwnsInode(s.writers[j]);
      assert TempOf(s, i) != TempOf(s, j) && s.names[TempOf(s, i)] != s.writers[j].pc.inode;
    }
    forall p: string ensures (Target(p) in t.names <==> p in Replay(t.history))
      && (Target(p) in t.names ==> t.names[Target(p)] in t.inodes && t.inodes[t.names[Target(p)]] == Replay(t.history)[p]) {
      if p != call.path { assert Target(p) in t.names <==> Target(p) in s.names; }
    }
  }

  lemma UnlinkKeepsWriters(s: State, i: nat)
    requires Inv(s) && Enabled(s, UnlinkTemp(i))
    ensures forall j | 0 <= j < |s.writers| :: WriterInv(Next(s, UnlinkTemp(i)), j)
  {
    var t := Next(s, UnlinkTemp(i));
    forall j | 0 <= j < |t.writers| ensures WriterInv(t, j) {
      assert WriterInv(s, j);
      if j != i { assert TempOf(s, j) != TempOf(s, i) && TempOf(t, j) == TempOf(s, j); }
    }
  }

  /** Taking a temporary name away leaves the names and the targets in order. */
  lemma UnlinkKeepsNames(s: State, i: nat)
    requires Inv(s) && Enabled(s, UnlinkTemp(i))
    ensures NamesInv(Next(s, UnlinkTemp(i))) && Private(Next(s, UnlinkTemp(i)))
  {
    hide Legal, EventsOf, Replay, WriterInv, Shows, EventsMatchWriters;
    var t := Next(s, UnlinkTemp(i));
    forall n | n in t.names ensures n in s.names && t.names[n] == s.names[n] {
    }
  }

  lemma UnlinkKeepsShows(s: State, i: nat)
    requires Inv(s) && Enabled(s, UnlinkTemp(i))
    ensures Shows(Next(s, UnlinkTemp(i)), Replay(Next(s, UnlinkTemp(i)).history))
  {
    hide Legal, EventsOf, Replay, WriterInv, Private, EventsMatchWriters;
    var t := Next(s, UnlinkTemp(i));
    forall p: string ensures (Target(p) in t.names <==> p in Replay(t.history))
      && (Target(p) in t.names ==> t.names[Target(p)] in t.inodes && t.inodes[t.names[Target(p)]] == Replay(t.history)[p]) {
      assert Target(p) in t.names <==> Target(p) in s.names;
    }
  }

  lemma UnlinkKeepsInv(s: State, i: nat)
    requires Inv(s) && Enabled(s, UnlinkTemp(i))
    ensures Inv(Next(s, UnlinkTemp(i)))
  {
    UnlinkKeepsWriters(s, i);
    UnlinkKeepsNames(s, i);
    UnlinkKeepsShows(s, i);
    hide Legal, EventsOf, Replay, WriterInv, Private, Shows, NamesInv;
    var t := Next(s, UnlinkTemp(i));
    assert t.history == s.history && |t.writers| == |s.writers|;
    SameCallsMatch(s, t);
    hide EventsMatchWriters;
  }

  lemma DeleteKeepsWriters(s: State, path: string)
    requires Inv(s)
    ensures forall j | 0 <= j < |s.writers| :: WriterInv(Next(s, Delete(path)), j)
  {
    var t := Next(s, Delete(path));
    forall j | 0 <= j < |t.writers| ensures WriterInv(t, j) {
      assert WriterInv(s, j);
      assert TempOf(t, j) in t.names <==> TempOf(s, j) in s.names;
    }
  }

  lemma DeleteKeepsInv(s: State, path: string)
    requires Inv(s)
    ensures Inv(Next(s, Delete(path)))
  {
    hide Legal;
    hide EventsOf;
    hide Replay;
    var t := Next(s, Delete(path));
    if Target(path) in s.names {
      HistoryGrows(s.history, Removed(path));
      forall j: nat ensures EventsOf(t.history, j) == if j < |t.writers| && t.writers[j].published then 1 else 0 {
        EventsGrow(s.history, Removed(path), j);
      }
      DeleteKeepsWriters(s, path);
      hide WriterInv;
      forall p: string ensures (Target(p) in t.names <==> p in Replay(t.history))
        && (Target(p) in t.names ==> t.names[Target(p)] in t.inodes && t.inodes[t.names[Target(p)]] == Replay(t.history)[p]) {
        if p != path { assert Target(p) in t.names <==> Target(p) in s.names; }
      }
    }
  }

  lemma WriterInvAt(s: State, i: nat)
    requires Inv(s) && i < |s.writers|
    ensures WriterInv(s, i)
  {
  }

  lemma PublishKeepsInv(s: State, i: nat)
    requires Inv(s) && Enabled(s, Publish(i))
    ensures Inv(Next(s, Publish(i)))
  {
    hide Inv;
    assert WriterInv(s, i) by { WriterInvAt(s, i); }
    if s.writers[i].call.overwrite {
      ReplaceKeepsInv(s, i);
    } else if Target(s.writers[i].call.path) !in s.names {
      LinkKeepsInv(s, i);
    } else {
      MoveKeepsInv(s, i, Cleanup);
    }
  }

  lemma CallStepKeepsInv(s: State, a: Action)
    requires Inv(s) && Enabled(s, a)
    requires a.CheckExists? || a.Close? || a.WriteFails? || a.TestTemp? || a.Crash?
    ensures Inv(Next(s, a))
  {
    hide Inv;
    WriterInvAt(s, a.i);
    MoveKeepsInv(s, a.i, Next(s, a).writers[a.i].pc);
  }

  lemma StepKeepsInv(s: State, a: Action)
    requires Inv(s) && Enabled(s, a)
    ensures Inv(Next(s, a))
  {
    hide Next;
    match a
    case Begin(call) => BeginKeepsInv(s, call);
    case Delete(path) => DeleteKeepsInv(s, path);
    case OpenTemp(i) => OpenKeepsInv(s, i);
    case WriteSome(i, upTo) => WriteKeepsInv(s, i, upTo);
    case UnlinkTemp(i) => UnlinkKeepsInv(s, i);
    case Publish(i) => PublishKeepsInv(s, i);
    case _ => CallStepKeepsInv(s, a);
  }

  lemma {:induction false} RunKeepsInv(acts: seq<Action>)
    ensures Inv(Run(INIT, acts))
  {
    if acts != [] {
      RunKeepsInv(acts[..|acts| - 1]);
      var s, a := Run(INIT, acts[..|acts| - 1]), acts[|acts| - 1];
      if Enabled(s, a) { StepKeepsInv(s, a); }
    }
  }

  // ----- what every interleaving guarantees

  /** The target names always show exactly what the completed operations, taken one after another in
      the order they happened, would leave; and that order is legal: a no-overwrite write succeeded
      only where nothing stood. Concurrent writers refine a one-step store. */
  lemma StoreIsOneStep(acts: seq<Action>)
    ensures var s := Run(INIT, acts); Legal(s.history) && Shows(s, Replay(s.history))
  {
    RunKeepsInv(acts);
  }

  lemma {:induction false} EventCounted(history: seq<Event>, e: Event)
    requires e in history && !e.Removed?
    ensures EventsOf(history, e.writer) > 0
  {
    var n := |history| - 1;
    if history[n] != e {
      assert e in history[..n];
      EventCounted(history[..n], e);
    }
  }

  lemma {:induction false} LastPut(history: seq<Event>, path: string) returns (e: Event)
    requires path in Replay(history)
    ensures e in history && !e.Removed? && e.path == path && e.payload == Replay(history)[path]
  {
    var n := |history| - 1;
    if history[n].path == path {
      e := history[n];
    } else {
      e := LastPut(history[..n], path);
    }
  }

  /** A target name never leads to a partly written payload: its bytes are the whole payload of a
      call for that path that has published, whatever crashed meanwhile. */
  lemma TargetIsNeverPartial(acts: seq<Action>, path: string)
    requires Target(path) in Run(INIT, acts).names
    ensures var s := Run(INIT, acts);
            && s.names[Target(path)] in s.inodes
            && exists w | w in s.writers :: w.published && w.call.path == path && w.call.payload == s.inodes[s.names[Target(path)]]
  {
    RunKeepsInv(acts);
    var s := Run(INIT, acts);
    var e := LastPut(s.history, path);
    assert EventsOf(s.history, e.writer) > 0 by { EventCounted(s.history, e); }
    assert s.writers[e.writer] in s.writers;
  }

  /** A call that has ended leaves no temporary entry, whether it succeeded, was refused or failed. */
  lemma FinishedLeavesNoTemp(acts: seq<Action>, i: nat)
    requires i < |Run(INIT, acts).writers| && Run(INIT, acts).writers[i].pc.Finished?
    ensures TempOf(Run(INIT, acts), i) !in Run(INIT, acts).names
  {
    RunKeepsInv(acts);
    WriterInvAt(Run(INIT, acts), i);
  }

  lemma NamesAndPrivacy(s: State)
    requires Inv(s)
    ensures NamesInv(s) && Private(s) && Shows(s, Replay(s.history))
  {
  }

  /** Other processes leave a file that is being written alone, in any state the invariant allows. */
  lemma OwnTempKept(s: State, a: Action, i: nat)
    requires Inv(s) && Enabled(s, a) && i < |s.writers| && OwnsInode(s.writers[i])
    requires a.Begin? || a.Delete? || a.i != i
    ensures var inode := s.writers[i].pc.inode;
            var t := Next(s, a);
            && inode in s.inodes && inode in t.inodes && t.inodes[inode] == s.inodes[inode]
            && TempOf(s, i) in t.names && t.names[TempOf(s, i)] == inode
  {
    hide Legal;
    hide EventsOf;
    hide Replay;
    hide Inv;
    WriterInvAt(s, i);
    NamesAndPrivacy(s);
    if a.WriteSome? {
      WriterInvAt(s, a.i);
      assert TempOf(s, a.i) != TempOf(s, i);
    }
  }

  /** No step takes away another writer's temporary file or touches the bytes it is writing. */
  lemma TempsAreNotDisturbed(acts: seq<Action>, a: Action, i: nat)
    requires i < |Run(INIT, acts).writers| && OwnsInode(Run(INIT, acts).writers[i])
    requires Enabled(Run(INIT, acts), a) && (a.Begin? || a.Delete? || a.i != i)
    ensures var s := Run(INIT, acts);
            var inode := s.writers[i].pc.inode;
            var t := Next(s, a);
            && inode in s.inodes && inode in t.inodes && t.inodes[inode] == s.inodes[inode]
            && TempOf(s, i) in t.names && t.names[TempOf(s, i)] == inode
  {
    hide Inv;
    hide Next;
    RunKeepsInv(acts);
    OwnTempKept(Run(INIT, acts), a, i);
  }

  lemma {:induction false} LegalPrefix(history: seq<Event>, n: nat)
    requires Legal(history) && n <= |history|
    ensures Legal(history[..n])
  {
    if n == |history| {
      assert history[..n] == history;
    } else {
      LegalPrefix(history[..|history| - 1], n);
      assert history[..|history| - 1][..n] == history[..n];
    }
  }

  lemma {:induction false} CreatedStands(history: seq<Event>, path: string, i: nat, n: nat)
    requires i < n <= |history| && history[i].Created? && history[i].path == path
    requires forall k | i < k < n :: history[k] != Removed(path)
    ensures path in Replay(history[..n])
  {
    assert history[..n][..n - 1] == history[..n - 1];
    if i < n - 1 {
      CreatedStands(history, path, i, n - 1);
    }
  }

  /** Between two no-overwrite writes of one path that both succeeded, the path was deleted. */
  lemma CreatesAreRationed(history: seq<Event>, path: string, i: nat, j: nat)
    requires Legal(history) && i < j < |history|
    requires history[i].Created? && history[i].path == path && history[j].Created? && history[j].path == path
    ensures exists k | i < k < j :: history[k] == Removed(path)
  {
    LegalPrefix(history, j + 1);
    assert history[..j + 1][..j] == history[..j];
    if forall k | i < k < j :: history[k] != Removed(path) {
      CreatedStands(history, path, i, j);
    }
  }

  lemma OnlyDeleteRemoves(s: State, a: Action, path: string)
    requires a != Delete(path) && Removed(path) !in s.history
    ensures Removed(path) !in Next(s, a).history
  {
  }

  lemma {:induction false} RemovedWasDeleted(acts: seq<Action>, path: string)
    requires Delete(path) !in acts
    ensures Removed(path) !in Run(INIT, acts).history
  {
    hide Next;
    if acts != [] {
      assert acts[|acts| - 1] in acts;
      RemovedWasDeleted(acts[..|acts| - 1], path);
      OnlyDeleteRemoves(Run(INIT, acts[..|acts| - 1]), acts[|acts| - 1], path);
    }
  }

  lemma {:induction false} CountedEvent(history: seq<Event>, i: nat) returns (k: nat)
    requires EventsOf(history, i) > 0
    ensures k < |history| && !history[k].Removed? && history[k].writer == i
  {
    k := |history| - 1;
    if history[k].Removed? || history[k].writer != i {
      k := CountedEvent(history[..k], i);
    }
  }

  lemma CreatorHasEvent(s: State, i: nat) returns (k: nat)
    requires Inv(s) && i < |s.writers| && s.writers[i].published && !s.writers[i].call.overwrite
    ensures k < |s.history| && s.history[k].Created? && s.history[k].writer == i && s.history[k].path == s.writers[i].call.path
  {
    hide EventsOf, Replay, Legal, Shows, NamesInv, Private, WriterInv;
    k := CountedEvent(s.history, i);
    assert s.history[k] in s.history;
  }

  lemma HistoryIsLegal(s: State)
    requires Inv(s)
    ensures Legal(s.history)
  {
    hide Legal;
  }

  lemma CreatorsDiffer(s: State, path: string, i: nat, j: nat)
    requires Inv(s) && Removed(path) !in s.history && i < |s.writers| && j < |s.writers|
    requires s.writers[i].published && !s.writers[i].call.overwrite && s.writers[i].call.path == path
    requires s.writers[j].published && !s.writers[j].call.overwrite && s.writers[j].call.path == path
    ensures i == j
  {
    hide *;
    HistoryIsLegal(s);
    if i != j {
      var k := CreatorHasEvent(s, i);
      var n := CreatorHasEvent(s, j);
      CreatesAreRationed(s.history, path, if k < n then k else n, if k < n then n else k);
    }
  }

  /** Of any number of no-overwrite writers of a path that is never deleted, at most one succeeds. */
  lemma AtMostOneCreator(acts: seq<Action>, path: string, i: nat, j: nat)
    requires Delete(path) !in acts
    requires i < |Run(INIT, acts).writers| && j < |Run(INIT, acts).writers|
    requires var w := Run(INIT, acts).writers[i]; w.published && !w.call.overwrite && w.call.path == path
    requires var w := Run(INIT, acts).writers[j]; w.published && !w.call.overwrite && w.call.path == path
    ensures i == j
  {
    hide *;
    RunKeepsInv(acts);
    RemovedWasDeleted(acts, path);
    CreatorsDiffer(Run(INIT, acts), path, i, j);
  }

  /** A standing target keeps its bytes under every step but its deletion or an overwriting write of that
      very path. */
  lemma StandingBytesStay(acts: seq<Action>, a: Action, path: string)
    requires Target(path) in Run(INIT, acts).names && Enabled(Run(INIT, acts), a)
    requires a != Delete(path)
    requires a.Publish? ==> var c := Run(INIT, acts).writers[a.i].call; !(c.overwrite && c.path == path)
    ensures var s := Run(INIT, acts);
            var t := Next(s, a);
            && s.names[Target(path)] in s.inodes
            && Target(path) in t.names && t.names[Target(path)] in t.inodes
            && t.inodes[t.names[Target(path)]] == s.inodes[s.names[Target(path)]]
  {
    hide Legal;
    hide EventsOf;
    hide Replay;
    hide Inv;
    RunKeepsInv(acts);
    var s := Run(INIT, acts);
    NamesAndPrivacy(s);
    if a.WriteSome? {
      WriterInvAt(s, a.i);
    }
  }

  // ----- each call takes effect

  /** What a reader of the path would get. */
  function Content(s: State, path: string): Option<Bytes> {
    if Target(path) in s.names && s.names[Target(path)] in s.inodes then Some(s.inodes[s.names[Target(path)]]) else None
  }

  /** Publishing succeeds exactly when the call may overwrite or nothing stands at its path; then the path
      has its payload, and otherwise nothing is changed. Other paths never are. */
  lemma PublishTakesEffectIff(s: State, i: nat)
    requires Inv(s) && Enabled(s, Publish(i))
    ensures var t := Next(s, Publish(i));
            var c := s.writers[i].call;
            && t.writers[i].call == c
            && (t.writers[i].published <==> c.overwrite || Target(c.path) !in s.names)
            && Content(t, c.path) == (if t.writers[i].published then Some(c.payload) else Content(s, c.path))
            && (forall p | p != c.path :: Content(t, p) == Content(s, p))
            && (!t.writers[i].published ==> t.names == s.names && t.history == s.history)
  {
    hide Legal, EventsOf, Replay, Inv;
    WriterInvAt(s, i);
    NamesAndPrivacy(s);
    hide NamesInv, Private, Shows;
    var t := Next(s, Publish(i));
    forall p | p != s.writers[i].call.path ensures Content(t, p) == Content(s, p) {
      assert Target(p) in t.names <==> Target(p) in s.names;
    }
  }

  /** So does deleting: the path is empty afterwards, and every other name leads where it led. */
  lemma DeleteTakesEffect(s: State, path: string)
    ensures var t := Next(s, Delete(path));
            && Content(t, path) == None && Target(path) !in t.names && t.writers == s.writers
            && (forall n | n != Target(path) :: (n in t.names <==> n in s.names) && (n in s.names ==> t.names[n] == s.names[n]))
            && t.inodes == s.inodes
  {
  }

  /** A call can fail while it writes, which sends it to its cleanup, and its process can die at any point
      before the end; neither touches a file. */
  lemma FailuresTouchNothing(s: State, i: nat)
    requires i < |s.writers|
    ensures s.writers[i].pc.Writing? ==>
              && Enabled(s, WriteFails(i))
              && Next(s, WriteFails(i)) == s.(writers := s.writers[i := s.writers[i].(pc := Cleanup)])
    ensures !s.writers[i].pc.Finished? ==>
              && Enabled(s, Crash(i))
              && Next(s, Crash(i)) == s.(writers := s.writers[i := s.writers[i].(pc := Crashed)])
  {
  }

  lemma RunOneMore(s: State, acts: seq<Action>, a: Action)
    ensures Run(s, acts + [a]) == Next(Run(s, acts), a)
  {
    hide Next;
    assert (acts + [a])[..|acts|] == acts;
  }

  /** The state of a call that has written its whole temporary file and disturbed nothing else. */
  predicate ReadyToPublish(s: State, t: State, call: Call) {
    var i := |s.writers|;
    && t.writers == s.writers + [Writer(call, Written(s.nextInode), false)]
    && t.names == s.names[Temp(call.path, i) := s.nextInode]
    && t.inodes == s.inodes[s.nextInode := call.payload]
  }

  function JustOpened(s: State, call: Call): State {
    State(s.names[Temp(call.path, |s.writers|) := s.nextInode], s.inodes[s.nextInode := []], s.nextInode + 1,
          s.writers + [Writer(call, Writing(s.nextInode), false)], s.history)
  }

  lemma OpensItsFile(s: State, call: Call)
    requires Temp(call.path, |s.writers|) !in s.names && (call.overwrite || Target(call.path) !in s.names)
    ensures Next(Next(Next(s, Begin(call)), CheckExists(|s.writers|)), OpenTemp(|s.writers|)) == JustOpened(s, call)
  {
    var i := |s.writers|;
    var t := Next(s, Begin(call));
    assert t == s.(writers := s.writers + [Writer(call, Start, false)]);
    assert Next(t, CheckExists(i)) == s.(writers := s.writers + [Writer(call, Checked, false)]);
  }

  lemma FillsItsFile(s: State, call: Call, t: State)
    requires t == JustOpened(s, call)
    ensures var i := |s.writers|;
            && (call.payload == [] ==> ReadyToPublish(s, Next(t, Close(i)), call))
            && (call.payload != [] ==> ReadyToPublish(s, Next(Next(t, WriteSome(i, |call.payload|)), Close(i)), call))
  {
    var i := |s.writers|;
    assert t.writers[i] == Writer(call, Writing(s.nextInode), false) && t.inodes[s.nextInode] == [];
    if call.payload != [] {
      var u := Next(t, WriteSome(i, |call.payload|));
      assert call.payload[..|call.payload|] == call.payload;
      assert u == t.(inodes := t.inodes[s.nextInode := call.payload]);
    }
  }

  lemma WritesItsFile(s: State, call: Call) returns (acts: seq<Action>)
    requires Inv(s) && (call.overwrite || Target(call.path) !in s.names)
    ensures ReadyToPublish(s, Run(s, acts), call)
  {
    NamesAndPrivacy(s);
    var i := |s.writers|;
    assert Temp(call.path, i) !in s.names;
    OpensItsFile(s, call);
    FillsItsFile(s, call, JustOpened(s, call));
    assert Run(s, []) == s;
    hide *;
    acts := [];
    RunOneMore(s, acts, Begin(call));
    acts := acts + [Begin(call)];
    RunOneMore(s, acts, CheckExists(i));
    acts := acts + [CheckExists(i)];
    RunOneMore(s, acts, OpenTemp(i));
    acts := acts + [OpenTemp(i)];
    if call.payload != [] {
      RunOneMore(s, acts, WriteSome(i, |call.payload|));
      acts := acts + [WriteSome(i, |call.payload|)];
    }
    RunOneMore(s, acts, Close(i));
    acts := acts + [Close(i)];
  }

  lemma CleanupSteps(s: State, i: nat)
    requires At(s, i, Cleanup)
    ensures var t := Next(s, TestTemp(i));
            var u := if TempOf(s, i) in s.names then Next(t, UnlinkTemp(i)) else t;
            && i < |u.writers| && u.writers[i] == s.writers[i].(pc := Finished)
            && u.names == s.names - {TempOf(s, i)} && u.inodes == s.inodes
  {
  }

  /** Undisturbed, the last steps of a call clear its temporary name away and touch nothing else. */
  lemma CleansUp(s: State, i: nat) returns (acts: seq<Action>)
    requires At(s, i, Cleanup)
    ensures var t := Run(s, acts);
            && i < |t.writers| && t.writers[i] == s.writers[i].(pc := Finished)
            && t.names == s.names - {TempOf(s, i)} && t.inodes == s.inodes
  {
    assert Run(s, []) == s && i < |s.writers|;
    CleanupSteps(s, i);
    hide *;
    acts := [];
    RunOneMore(s, acts, TestTemp(i));
    acts := acts + [TestTemp(i)];
    if TempOf(s, i) in s.names {
      RunOneMore(s, acts, UnlinkTemp(i));
      acts := acts + [UnlinkTemp(i)];
    }
  }

  lemma {:induction false} RunOn(s: State, first: seq<Action>, second: seq<Action>)
    ensures Run(s, first + second) == Run(Run(s, first), second)
  {
    hide Next;
    if second == [] {
      assert first + second == first;
    } else {
      var n := |second| - 1;
      RunOn(s, first, second[..n]);
      RunOneMore(s, first + second[..n], second[n]);
      RunOneMore(Run(s, first), second[..n], second[n]);
      assert first + second == first + second[..n] + [second[n]] && second == second[..n] + [second[n]];
    }
  }

  lemma UndisturbedPublish(s: State, u: State, call: Call)
    requires Inv(s) && ReadyToPublish(s, u, call) && (call.overwrite || Target(call.path) !in s.names)
    ensures var i := |s.writers|;
            var t := Next(u, Publish(i));
            && i < |t.writers| && t.writers[i] == Writer(call, Cleanup, true)
            && Content(t, call.path) == Some(call.payload)
            && (forall p | p != call.path :: Content(t, p) == Content(s, p))
  {
    NamesAndPrivacy(s);
    hide Inv, Shows, Private;
    var i := |s.writers|;
    var t := Next(u, Publish(i));
    assert u.writers[i] == Writer(call, Written(s.nextInode), false);
    forall p | p != call.path ensures Content(t, p) == Content(s, p) {
      assert Target(p) in t.names <==> Target(p) in s.names;
    }
  }

  lemma RefusedSteps(s: State, call: Call)
    requires !call.overwrite && Target(call.path) in s.names
    ensures Next(Next(s, Begin(call)), CheckExists(|s.writers|)) == s.(writers := s.writers + [Writer(call, Finished, false)])
  {
    assert Next(s, Begin(call)) == s.(writers := s.writers + [Writer(call, Start, false)]);
  }

  lemma RefusedAtOnce(s: State, call: Call) returns (acts: seq<Action>)
    requires Inv(s) && !call.overwrite && Target(call.path) in s.names
    ensures var t := Run(s, acts);
            && t == s.(writers := s.writers + [Writer(call, Finished, false)])
            && Temp(call.path, |s.writers|) !in s.names
  {
    NamesAndPrivacy(s);
    var i := |s.writers|;
    assert Run(s, []) == s && Temp(call.path, i) !in s.names;
    RefusedSteps(s, call);
    hide *;
    acts := [];
    RunOneMore(s, acts, Begin(call));
    acts := acts + [Begin(call)];
    RunOneMore(s, acts, CheckExists(i));
    acts := acts + [CheckExists(i)];
  }

  /** The steps of one undisturbed call end as the store's caller expects: the payload stands at its path,
      or the call is refused exactly when it may not overwrite what stands there; every other path has what
      it had, and the call's temporary name is gone. */
  lemma UndisturbedWrite(s: State, call: Call) returns (acts: seq<Action>)
    requires Inv(s)
    ensures var t := Run(s, acts);
            var i := |s.writers|;
            var ok := call.overwrite || Target(call.path) !in s.names;
            && i < |t.writers| && t.writers[i] == Writer(call, Finished, ok)
            && Content(t, call.path) == (if ok then Some(call.payload) else Content(s, call.path))
            && (forall p | p != call.path :: Content(t, p) == Content(s, p))
            && Temp(call.path, i) !in t.names
  {
    var i := |s.writers|;
    if call.overwrite || Target(call.path) !in s.names {
      var first := WritesItsFile(s, call);
      UndisturbedPublish(s, Run(s, first), call);
      var t := Next(Run(s, first), Publish(i));
      var last := CleansUp(t, i);
      RunOneMore(s, first, Publish(i));
      RunOn(s, first + [Publish(i)], last);
      acts := first + [Publish(i)] + last;
    } else {
      acts := RefusedAtOnce(s, call);
    }
  }

  // ----- readers

  /** A file nobody is writing any more. */
  ghost predicate Sealed(s: State, inode: nat) {
    inode in s.inodes && inode < s.nextInode
    && forall j | 0 <= j < |s.writers| :: s.writers[j].pc != Writing(inode)
  }

  lemma SealedStays(s: State, a: Action, inode: nat)
    requires Sealed(s, inode)
    ensures Sealed(Next(s, a), inode) && Next(s, a).inodes[inode] == s.inodes[inode]
  {
  }

  lemma {:induction false} SealedStaysOn(s: State, more: seq<Action>, inode: nat)
    requires Sealed(s, inode)
    ensures Sealed(Run(s, more), inode) && Run(s, more).inodes[inode] == s.inodes[inode]
  {
    if more != [] {
      SealedStaysOn(s, more[..|more| - 1], inode);
      SealedStays(Run(s, more[..|more| - 1]), more[|more| - 1], inode);
    }
  }

  lemma TargetsAreSealed(s: State, path: string)
    requires Inv(s) && Target(path) in s.names
    ensures Sealed(s, s.names[Target(path)])
  {
    hide Legal, EventsOf, Replay, Shows, EventsMatchWriters, WriterInv;
    var inode := s.names[Target(path)];
    forall j | 0 <= j < |s.writers| ensures s.writers[j].pc != Writing(inode) {
      assert Target(path) != TempOf(s, j);
    }
  }

  /** A reader that has opened a target reads one whole payload, however slowly and in however many
      pieces: at every later moment, the name replaced or removed meanwhile or not, the file it opened
      holds the payload of a call for that path that had published before. */
  lemma ReaderSeesOnePayload(acts: seq<Action>, more: seq<Action>, path: string)
    requires Target(path) in Run(INIT, acts).names
    ensures var s := Run(INIT, acts);
            var file := s.names[Target(path)];
            var later := Run(s, more);
            && file in s.inodes && file in later.inodes && later.inodes[file] == s.inodes[file]
            && exists w | w in s.writers :: w.published && w.call.path == path && w.call.payload == later.inodes[file]
  {
    RunKeepsInv(acts);
    TargetIsNeverPartial(acts, path);
    hide *;
    TargetsAreSealed(Run(INIT, acts), path);
    SealedStaysOn(Run(INIT, acts), more, Run(INIT, acts).names[Target(path)]);
  }

  // ----- the code on the directory it updates

  /** The store as one caller sees it when nobody else is running. */
  class PrivateFileStore {
    var names: map<Name, nat>
    var inodes: map<nat, Bytes>
    var nextInode: nat

    ghost predicate Valid()
      reads this
    {
      && (forall n | n in names :: names[n] in inodes)
      && (forall k | k in inodes :: k < nextInode)
    }

    /** The payload under a path, if one stands there. */
    ghost function Stored(path: string): Option<Bytes>
      reads this
      requires Valid()
    {
      if Target(path) in names then Some(inodes[names[Target(path)]]) else None
    }

    constructor ()
      ensures Valid() && names == map[]
    {
      names, inodes, nextInode := map[], map[], 0;
    }

    /** write: `unique` is the random part of the temporary name. The payload is stored, or the write
        is refused exactly when it may not overwrite and something stands there; every other path is
        untouched and no temporary entry is left. */
    method Write(path: string, payload: Bytes, overwrite: bool, unique: nat) returns (ok: bool)
      requires Valid() && Temp(path, unique) !in names
      modifies this
      ensures Valid()
      ensures ok <==> overwrite || old(Stored(path)) == None
      ensures Stored(path) == if ok then Some(payload) else old(Stored(path))
      ensures forall p | p != path :: Stored(p) == old(Stored(p))
      ensures forall n: Name | n.Temp? :: (n in names <==> n in old(names))
    {
      var target, temp := Target(path), Temp(path, unique);
      if !overwrite && target in names {
        return false;
      }
      var inode := nextInode;
      nextInode := nextInode + 1;
      names := names[temp := inode];
      inodes := inodes[inode := []];
      inodes := inodes[inode := payload];
      if overwrite {
        names := Rename(names, temp, target);
        ok := true;
      } else if target in names {
        ok := false;
      } else {
        names := names[target := inode];
        ok := true;
      }
      if temp in names {
        names := names - {temp};
      }
    }

    /** read: the payload, or nothing when the file has gone missing. */
    method Read(path: string) returns (r: Option<Bytes>)
      requires Valid()
      ensures r == Stored(path)
    {
      if Target(path) !in names {
        return None;
      }
      r := Some(inodes[names[Target(path)]]);
    }

    /** delete: a file already gone is the wanted state. */
    method Delete(path: string)
      requires Valid()
      modifies this
      ensures Valid() && Stored(path) == None
      ensures forall p | p != path :: Stored(p) == old(Stored(p))
      ensures forall n: Name | n.Temp? :: (n in names <==> n in old(names))
    {
      names := names - {Target(path)};
    }
  }
}
