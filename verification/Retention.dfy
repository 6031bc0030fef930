/** scripts/cleanup_backups.py:87-149 and 225-265: which backups a prune keeps.

    A backup is taken as already parsed: its name, its style, its moment in seconds, and labels for
    its local calendar day and month. */
module Retention {

  datatype Kind = TsDir | Predeploy | PreReset | Daily | Monthly | StaleTmp | Other

  datatype Entry = Entry(name: string, kind: Kind, at: int, day: int, month: int)

  const DAY := 86_400
  const PREDEPLOY_RETENTION_DAYS := 30
  const PRE_RESET_RETENTION_DAYS := 7
  const DAILY_RETENTION_COUNT: nat := 14
  const MONTHLY_RETENTION_COUNT: nat := 12

  /** A directory has one entry per name, and within a style whose rule compares moments, one entry
      per moment. */
  ghost predicate WellFormed(all: set<Entry>) {
    && (forall a, b | a in all && b in all :: a.name == b.name ==> a == b)
    && (forall a, b | a in all && b in all && a.kind == b.kind && a.kind in {TsDir, Daily, Monthly} :: a.at == b.at ==> a == b)
  }

  /** One entry per moment, for a single style. */
  ghost predicate DistinctMoments(s: set<Entry>) {
    forall a, b | a in s && b in s :: a.at == b.at ==> a == b
  }

  function Of(all: set<Entry>, kind: Kind): set<Entry> {
    set x | x in all && x.kind == kind
  }

  function Names(s: set<Entry>): set<string> {
    set x | x in s :: x.name
  }

  // ----- what each rule means

  predicate InWeek(x: Entry, now: int) {
    now - DAY >= x.at > now - 7 * DAY
  }

  predicate Newest(s: set<Entry>, x: Entry) {
    forall y | y in s :: y.at <= x.at
  }

  predicate LatestOfDay(s: set<Entry>, x: Entry, now: int) {
    InWeek(x, now) && forall y | y in s && InWeek(y, now) && y.day == x.day :: y.at <= x.at
  }

  predicate OldestOfMonth(s: set<Entry>, x: Entry) {
    forall y | y in s && y.month == x.month :: x.at <= y.at
  }

  /** The newest, all of the last 24 hours, the latest of each day of the week before, and the oldest
      of each month. */
  function KeepTsDir(s: set<Entry>, now: int): set<Entry> {
    set x | x in s && (Newest(s, x) || x.at > now - DAY || LatestOfDay(s, x, now) || OldestOfMonth(s, x))
  }

  function KeepWindow(s: set<Entry>, days: int, now: int): set<Entry> {
    set x | x in s && x.at >= now - days * DAY
  }

  function Newer(s: set<Entry>, x: Entry): set<Entry> {
    set y | y in s && y.at > x.at
  }

  /** The `count` newest. */
  function KeepRecent(s: set<Entry>, count: nat): set<Entry> {
    set x | x in s && |Newer(s, x)| < count
  }

  function Keep(s: set<Entry>, kind: Kind, now: int): set<Entry> {
    match kind
    case TsDir => KeepTsDir(s, now)
    case Predeploy => KeepWindow(s, PREDEPLOY_RETENTION_DAYS, now)
    case PreReset => KeepWindow(s, PRE_RESET_RETENTION_DAYS, now)
    case Daily => KeepRecent(s, DAILY_RETENTION_COUNT)
    case Monthly => KeepRecent(s, MONTHLY_RETENTION_COUNT)
    case StaleTmp => {}
    case Other => s
  }

  /** What a prune leaves in the directory. */
  function Survivors(all: set<Entry>, now: int): set<Entry> {
    set x | x in all && x in Keep(Of(all, x.kind), x.kind, now)
  }

  // ----- extremes of a finite set

  lemma {:induction false} OldestExists(s: set<Entry>) returns (m: Entry)
    requires s != {}
    ensures m in s && forall y | y in s :: m.at <= y.at
  {
    m :| m in s;
    if s - {m} != {} {
      var n := OldestExists(s - {m});
      if n.at < m.at { m := n; }
    }
  }

  lemma {:induction false} NewestExists(s: set<Entry>) returns (m: Entry)
    requires s != {}
    ensures m in s && Newest(s, m)
  {
    m :| m in s;
    if s - {m} != {} {
      var n := NewestExists(s - {m});
      if n.at > m.at { m := n; }
    }
  }

  // ----- pruning is confluent over time

  /** What the later prune keeps, the earlier one has kept. */
  lemma TsDirKeptSurvivesEarlierPrune(s: set<Entry>, more: set<Entry>, t1: int, t2: int, x: Entry)
    requires t1 <= t2 && x in KeepTsDir(s + more, t2)
    ensures x in KeepTsDir(KeepTsDir(s, t1) + more, t2)
  {
    assert forall y | y in s :: y in s + more;
    if x in s && x.at <= t1 - DAY && LatestOfDay(s + more, x, t2) {
      assert LatestOfDay(s, x, t1);
    }
    assert x in s ==> x in KeepTsDir(s, t1);
    assert KeepTsDir(s, t1) + more <= s + more;
  }

  lemma NewestIsKept(s: set<Entry>, more: set<Entry>, t1: int, x: Entry)
    requires Newest(KeepTsDir(s, t1) + more, x)
    ensures Newest(s + more, x)
  {
    if s != {} {
      var m := NewestExists(s);
      assert m in KeepTsDir(s, t1) + more;
    }
  }

  lemma DayRepresentativeIsKept(s: set<Entry>, more: set<Entry>, t1: int, t2: int, x: Entry)
    requires t1 <= t2 && LatestOfDay(KeepTsDir(s, t1) + more, x, t2)
    ensures LatestOfDay(s + more, x, t2)
  {
    var kept := KeepTsDir(s, t1);
    forall z | z in s + more && InWeek(z, t2) && z.day == x.day ensures z.at <= x.at {
      if z in s && z !in kept {
        var day := set y | y in s && InWeek(y, t1) && y.day == x.day;
        assert z in day;
        var m := NewestExists(day);
        assert LatestOfDay(s, m, t1) && m in kept + more;
        assert m.at >= z.at && InWeek(m, t2);
      } else {
        assert z in kept + more;
      }
    }
  }

  lemma MonthRepresentativeIsKept(s: set<Entry>, more: set<Entry>, t1: int, x: Entry)
    requires OldestOfMonth(KeepTsDir(s, t1) + more, x)
    ensures OldestOfMonth(s + more, x)
  {
    var kept := KeepTsDir(s, t1);
    forall z | z in s + more && z.month == x.month ensures x.at <= z.at {
      if z in s && z !in kept {
        var month := set y | y in s && y.month == x.month;
        assert z in month;
        var m := OldestExists(month);
        assert OldestOfMonth(s, m) && m in kept + more;
      } else {
        assert z in kept + more;
      }
    }
  }

  /** The earlier prune removes nothing that would have displaced an entry later. */
  lemma TsDirEarlierPruneKeepsNoMore(s: set<Entry>, more: set<Entry>, t1: int, t2: int, x: Entry)
    requires t1 <= t2 && x in KeepTsDir(KeepTsDir(s, t1) + more, t2)
    ensures x in KeepTsDir(s + more, t2)
  {
    var kept := KeepTsDir(s, t1);
    if Newest(kept + more, x) {
      NewestIsKept(s, more, t1, x);
    } else if LatestOfDay(kept + more, x, t2) {
      DayRepresentativeIsKept(s, more, t1, t2, x);
    } else if x.at <= t2 - DAY {
      MonthRepresentativeIsKept(s, more, t1, x);
    }
  }

  lemma TsDirConfluent(s: set<Entry>, more: set<Entry>, t1: int, t2: int)
    requires t1 <= t2
    ensures KeepTsDir(s + more, t2) == KeepTsDir(KeepTsDir(s, t1) + more, t2)
  {
    var kept := KeepTsDir(s, t1);
    forall x | x in KeepTsDir(s + more, t2) ensures x in KeepTsDir(kept + more, t2) {
      TsDirKeptSurvivesEarlierPrune(s, more, t1, t2, x);
    }
    forall x | x in KeepTsDir(kept + more, t2) ensures x in KeepTsDir(s + more, t2) {
      TsDirEarlierPruneKeepsNoMore(s, more, t1, t2, x);
    }
  }

  lemma SubsetSize<T>(a: set<T>, b: set<T>)
    requires a <= b
    ensures |a| <= |b|
  {
    assert b == a + (b - a);
  }

  lemma OneMoreNewer(s: set<Entry>, m: Entry, x: Entry)
    requires DistinctMoments(s) && m in s && Newest(s, m) && x in s - {m}
    ensures |Newer(s, x)| == |Newer(s - {m}, x)| + 1
  {
    assert m.at != x.at;
    assert Newer(s, x) == Newer(s - {m}, x) + {m};
  }

  lemma KeepRecentGrows(s: set<Entry>, m: Entry, count: nat)
    requires DistinctMoments(s) && m in s && Newest(s, m) && count > 0
    ensures KeepRecent(s - {m}, count - 1) + {m} <= KeepRecent(s, count)
    ensures m !in KeepRecent(s - {m}, count - 1)
  {
    forall x | x in KeepRecent(s - {m}, count - 1) ensures x in KeepRecent(s, count) {
      OneMoreNewer(s, m, x);
    }
    assert Newer(s, m) == {};
  }

  lemma OneLarger(a: set<Entry>, x: Entry, b: set<Entry>)
    requires x !in a && a + {x} <= b
    ensures |b| >= |a| + 1
  {
    SubsetSize(a + {x}, b);
  }

  /** Putting the newest entry back makes room for one more. */
  lemma OneMoreKept(s: set<Entry>, m: Entry, count: nat)
    requires DistinctMoments(s) && m in s && Newest(s, m) && count > 0
    ensures |KeepRecent(s, count)| >= |KeepRecent(s - {m}, count - 1)| + 1
  {
    KeepRecentGrows(s, m, count);
    hide *;
    OneLarger(KeepRecent(s - {m}, count - 1), m, KeepRecent(s, count));
  }

  lemma {:induction false} AtLeastCountKept(s: set<Entry>, count: nat)
    requires DistinctMoments(s) && |s| >= count
    ensures |KeepRecent(s, count)| >= count
    decreases count
  {
    if count > 0 {
      var m := NewestExists(s);
      AtLeastCountKept(s - {m}, count - 1);
      hide *;
      OneMoreKept(s, m, count);
    }
  }

  /** Once an entry is pushed out, `count` newer ones are kept and every kept one is newer. */
  lemma RecentIsFull(s: set<Entry>, count: nat, z: Entry)
    requires DistinctMoments(s) && z in s && z !in KeepRecent(s, count)
    ensures |KeepRecent(s, count)| >= count
    ensures forall k | k in KeepRecent(s, count) :: k.at > z.at
  {
    var kept := KeepRecent(s, count);
    forall k | k in kept ensures k.at > z.at {
      if k.at <= z.at { SubsetSize(Newer(s, z), Newer(s, k)); }
    }
    SubsetSize(Newer(s, z), s);
    AtLeastCountKept(s, count);
  }

  lemma RecentConfluent(s: set<Entry>, more: set<Entry>, count: nat)
    requires DistinctMoments(s + more)
    ensures KeepRecent(s + more, count) == KeepRecent(KeepRecent(s, count) + more, count)
  {
    var kept := KeepRecent(s, count);
    forall x | x in KeepRecent(s + more, count) ensures x in KeepRecent(kept + more, count) {
      SubsetSize(Newer(s, x), Newer(s + more, x));
      SubsetSize(Newer(kept + more, x), Newer(s + more, x));
    }
    forall x | x in KeepRecent(kept + more, count) ensures x in KeepRecent(s + more, count) {
      if z :| z in s && z !in kept && z.at > x.at {
        RecentIsFull(s, count, z);
        assert kept <= Newer(kept + more, x) by {
          forall k | k in kept ensures k.at > x.at { assert k.at > z.at; }
        }
        SubsetSize(kept, Newer(kept + more, x));
        assert false;
      } else {
        assert Newer(s + more, x) == Newer(kept + more, x);
      }
    }
  }

  lemma KeepConfluent(s: set<Entry>, more: set<Entry>, kind: Kind, t1: int, t2: int)
    requires t1 <= t2
    requires kind in {Daily, Monthly} ==> DistinctMoments(s + more)
    ensures Keep(s + more, kind, t2) == Keep(Keep(s, kind, t1) + more, kind, t2)
  {
    match kind
    case TsDir => TsDirConfluent(s, more, t1, t2);
    case Daily => RecentConfluent(s, more, DAILY_RETENTION_COUNT);
    case Monthly => RecentConfluent(s, more, MONTHLY_RETENTION_COUNT);
    case _ =>
  }

  /** Pruning now and again later leaves what the later prune alone would have left, for any backups
      made in between. */
  lemma PruneConfluent(s: set<Entry>, more: set<Entry>, t1: int, t2: int)
    requires t1 <= t2 && WellFormed(s + more)
    ensures Survivors(s + more, t2) == Survivors(Survivors(s, t1) + more, t2)
  {
    var pruned := Survivors(s, t1);
    forall kind: Kind ensures Keep(Of(s + more, kind), kind, t2) == Keep(Of(pruned + more, kind), kind, t2) {
      assert Of(s + more, kind) == Of(s, kind) + Of(more, kind);
      assert Of(pruned + more, kind) == Keep(Of(s, kind), kind, t1) + Of(more, kind);
      KeepConfluent(Of(s, kind), Of(more, kind), kind, t1, t2);
    }
    forall x | x in Survivors(s + more, t2) ensures x in Survivors(pruned + more, t2) {
      assert x in Keep(Of(pruned + more, x.kind), x.kind, t2);
    }
  }

  /** One run of the script: the backups made since the last run, and the moment it runs. */
  datatype Prune = Prune(made: set<Entry>, now: int)

  function Directory(history: seq<Prune>): set<Entry> {
    if history == [] then {}
    else
      var last := history[|history| - 1];
      Survivors(Directory(history[..|history| - 1]) + last.made, last.now)
  }

  function EverMade(history: seq<Prune>): set<Entry> {
    if history == [] then {} else EverMade(history[..|history| - 1]) + history[|history| - 1].made
  }

  predicate InOrder(history: seq<Prune>) {
    forall i | 1 <= i < |history| :: history[i - 1].now <= history[i].now
  }

  /** Any history of prunes leaves exactly what one prune at the end of everything ever made would. */
  lemma {:induction false} HistoryIsOnePrune(history: seq<Prune>)
    requires history != [] && InOrder(history) && WellFormed(EverMade(history))
    ensures Directory(history) == Survivors(EverMade(history), history[|history| - 1].now)
  {
    var n := |history| - 1;
    if n > 0 {
      HistoryIsOnePrune(history[..n]);
      PruneConfluent(EverMade(history[..n]), history[n].made, history[n - 1].now, history[n].now);
    } else {
      assert Directory(history[..n]) == {} && EverMade(history[..n]) == {};
    }
  }

  // ----- what a prune leaves, in seconds and counts

  /** Exactly which nested backups survive: the newest; those less than a day old; of those up to a week
      old, the latest of each day; and the oldest of each month. */
  lemma NestedSurvivesIff(all: set<Entry>, now: int, x: Entry)
    requires x in all && x.kind == TsDir
    ensures x in Survivors(all, now) <==>
            || (forall y | y in all && y.kind == TsDir :: y.at <= x.at)
            || x.at > now - 86_400
            || (now - 604_800 < x.at <= now - 86_400
                && forall y | y in all && y.kind == TsDir && y.day == x.day && now - 604_800 < y.at <= now - 86_400 :: y.at <= x.at)
            || (forall y | y in all && y.kind == TsDir && y.month == x.month :: x.at <= y.at)
  {
    forall y ensures y in Of(all, TsDir) <==> y in all && y.kind == TsDir {
    }
  }

  /** No day of the past week loses its latest nested backup: one at least as late as any of that day is
      still there. */
  lemma DayOfTheWeekKeepsOne(all: set<Entry>, now: int, x: Entry)
    requires x in all && x.kind == TsDir && x.at > now - 604_800
    ensures exists y | y in Survivors(all, now) :: y.kind == TsDir && y.day == x.day && y.at >= x.at
  {
    if x.at > now - 86_400 {
      NestedSurvivesIff(all, now, x);
    } else {
      var day := set y | y in all && y.kind == TsDir && y.day == x.day && now - 604_800 < y.at <= now - 86_400;
      assert x in day;
      var m := NewestExists(day);
      NestedSurvivesIff(all, now, m);
    }
  }

  /** And nothing older than a week stays but the newest of all and the oldest of its month. */
  lemma PastTheWeekOnlyMonthsStay(all: set<Entry>, now: int, x: Entry)
    requires x in all && x.kind == TsDir && x.at <= now - 604_800
    requires exists y | y in all :: y.kind == TsDir && y.at > x.at
    requires exists y | y in all :: y.kind == TsDir && y.month == x.month && y.at < x.at
    ensures x !in Survivors(all, now)
  {
    NestedSurvivesIff(all, now, x);
  }

  /** The other styles: thirty days of predeploy dumps, seven of pre-reset dumps, the fourteen newest
      daily and the twelve newest monthly ones, no stale temporary file, and everything unmanaged. */
  lemma OtherStylesSurviveIff(all: set<Entry>, now: int, x: Entry)
    requires x in all
    ensures x.kind == Predeploy ==> (x in Survivors(all, now) <==> now - x.at <= 2_592_000)
    ensures x.kind == PreReset ==> (x in Survivors(all, now) <==> now - x.at <= 604_800)
    ensures x.kind == Daily ==> (x in Survivors(all, now) <==> |set y | y in all && y.kind == Daily && y.at > x.at| < 14)
    ensures x.kind == Monthly ==> (x in Survivors(all, now) <==> |set y | y in all && y.kind == Monthly && y.at > x.at| < 12)
    ensures x.kind == StaleTmp ==> x !in Survivors(all, now)
    ensures x.kind == Other ==> x in Survivors(all, now)
  {
    assert Newer(Of(all, Daily), x) == set y | y in all && y.kind == Daily && y.at > x.at;
    assert Newer(Of(all, Monthly), x) == set y | y in all && y.kind == Monthly && y.at > x.at;
  }

  /** Pruning never empties a month of its nested backups. */
  lemma EveryMonthKeepsOne(all: set<Entry>, now: int, x: Entry)
    requires x in all && x.kind == TsDir
    ensures exists y | y in Survivors(all, now) :: y.kind == TsDir && y.month == x.month
  {
    var month := set y | y in Of(all, TsDir) && y.month == x.month;
    assert x in month;
    var m := OldestExists(month);
    assert OldestOfMonth(Of(all, TsDir), m);
    assert m in Survivors(all, now);
  }

  // ----- the script's loops

  function Elements(entries: seq<Entry>): set<Entry> {
    set x | x in entries
  }

  predicate Sorted(entries: seq<Entry>) {
    forall i, j | 0 <= i < j < |entries| :: entries[i].at <= entries[j].at
  }

  predicate StrictlySorted(entries: seq<Entry>) {
    forall i, j | 0 <= i < j < |entries| :: entries[i].at < entries[j].at
  }

  lemma ElementsAppend(entries: seq<Entry>, x: Entry)
    ensures Elements(entries + [x]) == Elements(entries) + {x}
  {
  }

  function Insert(entries: seq<Entry>, x: Entry): seq<Entry> {
    if entries == [] || entries[|entries| - 1].at <= x.at then entries + [x]
    else Insert(entries[..|entries| - 1], x) + [entries[|entries| - 1]]
  }

  /** sorted(..., key=timestamp). */
  function SortByMoment(entries: seq<Entry>): seq<Entry> {
    if entries == [] then [] else Insert(SortByMoment(entries[..|entries| - 1]), entries[|entries| - 1])
  }

  lemma {:induction false} InsertAdds(entries: seq<Entry>, x: Entry)
    ensures var r := Insert(entries, x); Elements(r) == Elements(entries) + {x} && |r| == |entries| + 1
  {
    if entries == [] || entries[|entries| - 1].at <= x.at {
      ElementsAppend(entries, x);
    } else {
      var n := |entries| - 1;
      InsertAdds(entries[..n], x);
      assert entries == entries[..n] + [entries[n]];
      ElementsAppend(entries[..n], entries[n]);
      ElementsAppend(Insert(entries[..n], x), entries[n]);
    }
  }

  lemma {:induction false} InsertSorts(entries: seq<Entry>, x: Entry)
    requires Sorted(entries)
    ensures Sorted(Insert(entries, x))
  {
    if entries != [] && entries[|entries| - 1].at > x.at {
      var n := |entries| - 1;
      InsertSorts(entries[..n], x);
      InsertAdds(entries[..n], x);
      var r := Insert(entries[..n], x);
      forall k | 0 <= k < |r| ensures r[k].at <= entries[n].at {
        assert r[k] in Elements(entries[..n]) + {x};
      }
    }
  }

  lemma {:induction false} SortSorts(entries: seq<Entry>)
    ensures var r := SortByMoment(entries);
            Sorted(r) && Elements(r) == Elements(entries) && |r| == |entries|
  {
    if entries != [] {
      var n := |entries| - 1;
      SortSorts(entries[..n]);
      InsertSorts(SortByMoment(entries[..n]), entries[n]);
      InsertAdds(SortByMoment(entries[..n]), entries[n]);
      assert entries == entries[..n] + [entries[n]];
      ElementsAppend(entries[..n], entries[n]);
    }
  }

  predicate NoRepeats(entries: seq<Entry>) {
    forall i, j | 0 <= i < j < |entries| :: entries[i] != entries[j]
  }

  lemma {:induction false} SizeOfElements(entries: seq<Entry>)
    ensures |Elements(entries)| <= |entries|
    ensures NoRepeats(entries) <==> |Elements(entries)| == |entries|
  {
    if entries != [] {
      var n := |entries| - 1;
      SizeOfElements(entries[..n]);
      assert entries == entries[..n] + [entries[n]];
      assert Elements(entries) == Elements(entries[..n]) + {entries[n]};
      if NoRepeats(entries) {
        assert entries[n] !in Elements(entries[..n]);
      } else if NoRepeats(entries[..n]) {
        assert entries[n] in Elements(entries[..n]);
      }
    }
  }

  lemma SortIsStrict(entries: seq<Entry>)
    requires NoRepeats(entries) && DistinctMoments(Elements(entries))
    ensures StrictlySorted(SortByMoment(entries)) && Elements(SortByMoment(entries)) == Elements(entries)
  {
    var r := SortByMoment(entries);
    SortSorts(entries);
    SizeOfElements(entries);
    SizeOfElements(r);
    assert NoRepeats(r);
    forall i, j | 0 <= i < j < |r| ensures r[i].at < r[j].at {
      assert r[i] != r[j] && r[i] in Elements(r) && r[j] in Elements(r);
    }
  }

  lemma NamesUnion(a: set<Entry>, b: set<Entry>)
    ensures Names(a + b) == Names(a) + Names(b)
  {
  }

  lemma NewestIsLast(pairs: seq<Entry>)
    requires StrictlySorted(pairs) && pairs != []
    ensures Newest(Elements(pairs), pairs[|pairs| - 1])
    ensures forall x | x in pairs && Newest(Elements(pairs), x) :: x == pairs[|pairs| - 1]
  {
    var last := pairs[|pairs| - 1];
    assert last in Elements(pairs);
    forall x | x in pairs ensures x.at <= last.at && (x.at == last.at ==> x == last) {
      var i :| 0 <= i < |pairs| && pairs[i] == x;
    }
  }

  lemma UnionOfRules(pairs: seq<Entry>, now: int)
    requires StrictlySorted(pairs) && pairs != []
    ensures var all := Elements(pairs);
            KeepTsDir(all, now) ==
            {pairs[|pairs| - 1]} + (set x | x in pairs && x.at > now - DAY)
            + (set x | x in pairs && LatestOfDay(all, x, now)) + (set x | x in pairs && OldestOfMonth(all, x))
  {
    NewestIsLast(pairs);
    hide Newest;
    hide LatestOfDay;
    hide OldestOfMonth;
  }

  lemma KeepTsDirIsUnion(pairs: seq<Entry>, now: int)
    requires StrictlySorted(pairs) && pairs != []
    ensures var all := Elements(pairs);
            Names(KeepTsDir(all, now)) ==
            {pairs[|pairs| - 1].name} + Names(set x | x in pairs && x.at > now - DAY)
            + Names(set x | x in pairs && LatestOfDay(all, x, now))
            + Names(set x | x in pairs && OldestOfMonth(all, x))
  {
    hide KeepTsDir;
    hide LatestOfDay;
    hide OldestOfMonth;
    var all := Elements(pairs);
    var last := pairs[|pairs| - 1];
    var recent := set x | x in pairs && x.at > now - DAY;
    var daily := set x | x in pairs && LatestOfDay(all, x, now);
    var monthly := set x | x in pairs && OldestOfMonth(all, x);
    UnionOfRules(pairs, now);
    NamesUnion({last} + recent + daily, monthly);
    NamesUnion({last} + recent, daily);
    NamesUnion({last}, recent);
    assert Names({last}) == {last.name};
  }

  lemma DayIsUnseenIffLatest(pairs: seq<Entry>, i: nat, now: int)
    requires StrictlySorted(pairs) && i < |pairs|
    ensures LatestOfDay(Elements(pairs), pairs[i], now) <==>
            InWeek(pairs[i], now) &&
            pairs[i].day !in (set k | i + 1 <= k < |pairs| && InWeek(pairs[k], now) :: pairs[k].day)
  {
    var later := set k | i + 1 <= k < |pairs| && InWeek(pairs[k], now) :: pairs[k].day;
    assert forall k | i + 1 <= k < |pairs| && InWeek(pairs[k], now) :: pairs[k].day in later && pairs[k] in Elements(pairs);
    if InWeek(pairs[i], now) && pairs[i].day !in later {
      forall y | y in Elements(pairs) && InWeek(y, now) && y.day == pairs[i].day ensures y.at <= pairs[i].at {
        var k :| 0 <= k < |pairs| && pairs[k] == y;
      }
    }
  }

  /** The scan from the newest down, keeping the first entry seen on each day. */
  method LatestPerDay(pairs: seq<Entry>, now: int) returns (keep: set<string>)
    requires StrictlySorted(pairs)
    ensures keep == Names(set x | x in pairs && LatestOfDay(Elements(pairs), x, now))
  {
    ghost var all := Elements(pairs);
    ghost var kept: set<Entry> := {};
    keep := {};
    var seenDays: set<int> := {};
    var i := |pairs|;
    while i > 0
      invariant 0 <= i <= |pairs|
      invariant keep == Names(kept)
      invariant seenDays == set k | i <= k < |pairs| && InWeek(pairs[k], now) :: pairs[k].day
      invariant kept == set k | i <= k < |pairs| && LatestOfDay(all, pairs[k], now) :: pairs[k]
    {
      i := i - 1;
      var x := pairs[i];
      ghost var before := kept;
      DayIsUnseenIffLatest(pairs, i, now);
      if InWeek(x, now) && x.day !in seenDays {
        keep := keep + {x.name};
        seenDays := seenDays + {x.day};
        kept := kept + {x};
        assert Names(kept) == Names(before) + {x.name};
      }
    }
    assert kept == set x | x in pairs && LatestOfDay(all, x, now);
  }

  lemma MonthsHoldTheOldest(pairs: seq<Entry>, months: map<int, Entry>)
    requires StrictlySorted(pairs)
    requires forall k | 0 <= k < |pairs| :: pairs[k].month in months && months[pairs[k].month].at <= pairs[k].at
    requires forall m | m in months :: months[m] in pairs && months[m].month == m
    ensures forall x | x in pairs :: x.month in months && (OldestOfMonth(Elements(pairs), x) <==> months[x.month] == x)
  {
    forall x | x in pairs ensures x.month in months && (OldestOfMonth(Elements(pairs), x) <==> months[x.month] == x) {
      var i :| 0 <= i < |pairs| && pairs[i] == x;
      var y := months[x.month];
      var j :| 0 <= j < |pairs| && pairs[j] == y;
      assert y in Elements(pairs);
      if months[x.month] == x {
        forall z | z in Elements(pairs) && z.month == x.month ensures x.at <= z.at {
          var k :| 0 <= k < |pairs| && pairs[k] == z;
        }
      }
    }
  }

  lemma MonthNames(pairs: seq<Entry>, months: map<int, Entry>)
    requires StrictlySorted(pairs)
    requires forall k | 0 <= k < |pairs| :: pairs[k].month in months && months[pairs[k].month].at <= pairs[k].at
    requires forall m | m in months :: months[m] in pairs && months[m].month == m
    ensures (set m | m in months :: months[m].name) == Names(set x | x in pairs && OldestOfMonth(Elements(pairs), x))
  {
    MonthsHoldTheOldest(pairs, months);
    hide OldestOfMonth;
    var kept := set x | x in pairs && OldestOfMonth(Elements(pairs), x);
    forall m | m in months ensures months[m].name in Names(kept) {
      assert months[m] in kept;
    }
    forall x | x in kept ensures x.month in months && months[x.month] == x {
    }
  }

  /** The dictionary of months, each holding the oldest entry seen so far. */
  method OldestPerMonth(pairs: seq<Entry>) returns (keep: set<string>)
    requires StrictlySorted(pairs)
    ensures keep == Names(set x | x in pairs && OldestOfMonth(Elements(pairs), x))
  {
    var months: map<int, Entry> := map[];
    var i := 0;
    while i < |pairs|
      invariant 0 <= i <= |pairs|
      invariant forall k | 0 <= k < i :: pairs[k].month in months && months[pairs[k].month].at <= pairs[k].at
      invariant forall m | m in months :: months[m] in pairs[..i] && months[m].month == m
    {
      var x := pairs[i];
      if x.month !in months || x.at < months[x.month].at {
        months := months[x.month := x];
      }
      i := i + 1;
    }
    keep := set m | m in months :: months[m].name;
    MonthNames(pairs, months);
  }

  /** compute_ts_dir_keep on pairs sorted by moment: the three loops compute exactly the names that
      the rule means. */
  method ComputeTsDirKeep(pairs: seq<Entry>, now: int) returns (keep: set<string>)
    requires StrictlySorted(pairs)
    ensures keep == Names(KeepTsDir(Elements(pairs), now))
  {
    keep := {};
    if pairs == [] {
      return;
    }
    keep := {pairs[|pairs| - 1].name};
    var recent := set x | x in pairs && x.at > now - DAY :: x.name;
    var daily := LatestPerDay(pairs, now);
    var monthly := OldestPerMonth(pairs);
    keep := keep + recent + daily + monthly;
    KeepTsDirIsUnion(pairs, now);
    assert recent == Names(set x | x in pairs && x.at > now - DAY);
  }

  /** compute_window_keep. */
  method ComputeWindowKeep(entries: seq<Entry>, days: int, now: int) returns (keep: set<string>)
    ensures keep == Names(KeepWindow(Elements(entries), days, now))
  {
    var cutoff := now - days * DAY;
    keep := {};
    var i := 0;
    while i < |entries|
      invariant 0 <= i <= |entries|
      invariant keep == set k | 0 <= k < i && entries[k].at >= cutoff :: entries[k].name
    {
      if entries[i].at >= cutoff {
        keep := keep + {entries[i].name};
      }
      i := i + 1;
    }
    assert keep == Names(KeepWindow(Elements(entries), days, now)) by {
      forall k | 0 <= k < |entries| && entries[k].at >= cutoff ensures entries[k].name in Names(KeepWindow(Elements(entries), days, now)) {
        assert entries[k] in KeepWindow(Elements(entries), days, now);
      }
    }
  }

  lemma NewerAt(pairs: seq<Entry>, i: nat)
    requires StrictlySorted(pairs) && i < |pairs|
    ensures |Newer(Elements(pairs), pairs[i])| == |pairs| - 1 - i
  {
    var later := pairs[i + 1..];
    forall y | y in Newer(Elements(pairs), pairs[i]) ensures y in later {
      var k :| 0 <= k < |pairs| && pairs[k] == y;
      assert later[k - i - 1] == y;
    }
    assert Newer(Elements(pairs), pairs[i]) == Elements(later);
    SizeOfElements(later);
  }

  lemma RecentIsSuffix(pairs: seq<Entry>, count: nat)
    requires StrictlySorted(pairs)
    ensures KeepRecent(Elements(pairs), count) == Elements(pairs[if |pairs| > count then |pairs| - count else 0..])
  {
    var from := if |pairs| > count then |pairs| - count else 0;
    forall x | x in Elements(pairs) ensures x in KeepRecent(Elements(pairs), count) <==> x in pairs[from..] {
      var i :| 0 <= i < |pairs| && pairs[i] == x;
      NewerAt(pairs, i);
      if i >= from { assert pairs[from..][i - from] == x; }
      if x in pairs[from..] { var k :| 0 <= k < |pairs[from..]| && pairs[from..][k] == x; assert pairs[from + k] == x; }
    }
  }

  /** compute_recent_keep: the last `count` of the sorted list, and none at all for a count of zero
      (where a slice from -0 would have been the whole list). */
  method ComputeRecentKeep(entries: seq<Entry>, count: nat) returns (keep: set<string>)
    requires NoRepeats(entries) && DistinctMoments(Elements(entries))
    ensures keep == Names(KeepRecent(Elements(entries), count))
  {
    var pairs := SortByMoment(entries);
    SortIsStrict(entries);
    if count == 0 {
      return {};
    }
    var from := if |pairs| > count then |pairs| - count else 0;
    var last := pairs[from..];
    keep := set x | x in last :: x.name;
    RecentIsSuffix(pairs, count);
    assert keep == Names(Elements(last));
  }

  function Select(entries: seq<Entry>, kind: Kind): seq<Entry> {
    if entries == [] then []
    else
      var n := |entries| - 1;
      Select(entries[..n], kind) + (if entries[n].kind == kind then [entries[n]] else [])
  }

  lemma {:induction false} SelectElements(entries: seq<Entry>, kind: Kind)
    ensures Elements(Select(entries, kind)) == Of(Elements(entries), kind)
  {
    if entries != [] {
      var n := |entries| - 1;
      SelectElements(entries[..n], kind);
      assert entries == entries[..n] + [entries[n]];
      ElementsAppend(entries[..n], entries[n]);
      ElementsAppend(Select(entries[..n], kind), entries[n]);
      assert Select(entries[..n], kind) + [] == Select(entries[..n], kind);
    }
  }

  lemma {:induction false} SelectNoRepeats(entries: seq<Entry>, kind: Kind)
    requires NoRepeats(entries)
    ensures NoRepeats(Select(entries, kind))
  {
    if entries != [] {
      var n := |entries| - 1;
      var r := Select(entries[..n], kind);
      SelectNoRepeats(entries[..n], kind);
      SelectElements(entries[..n], kind);
      assert forall i | 0 <= i < |r| :: r[i] in Elements(r);
      assert entries[n] !in Elements(entries[..n]);
    }
  }

  const KINDS := {TsDir, Predeploy, PreReset, Daily, Monthly, StaleTmp, Other}

  lemma KindIsListed(kind: Kind)
    ensures kind in KINDS
  {
    match kind
    case TsDir =>
    case Predeploy =>
    case PreReset =>
    case Daily =>
    case Monthly =>
    case StaleTmp =>
    case Other =>
  }

  lemma SelectStep(entries: seq<Entry>, i: nat, kind: Kind)
    requires i < |entries|
    ensures Select(entries[..i + 1], kind) == Select(entries[..i], kind) + (if kind == entries[i].kind then [entries[i]] else [])
  {
    assert entries[..i + 1][..i] == entries[..i];
  }

  /** bucket_entries: every style gets its entries in their order. */
  method BucketEntries(entries: seq<Entry>) returns (buckets: map<Kind, seq<Entry>>)
    ensures buckets.Keys == KINDS
    ensures forall kind | kind in KINDS :: buckets[kind] == Select(entries, kind)
  {
    buckets := map kind: Kind | kind in KINDS :: [];
    var i := 0;
    while i < |entries|
      invariant 0 <= i <= |entries|
      invariant buckets.Keys == KINDS
      invariant forall kind | kind in KINDS :: buckets[kind] == Select(entries[..i], kind)
    {
      var kind := entries[i].kind;
      KindIsListed(kind);
      hide Select;
      forall k | k in KINDS ensures Select(entries[..i + 1], k) == Select(entries[..i], k) + (if k == kind then [entries[i]] else []) {
        SelectStep(entries, i, k);
      }
      buckets := buckets[kind := buckets[kind] + [entries[i]]];
      i := i + 1;
    }
    assert entries[..i] == entries;
  }

  ghost predicate SoundBuckets(all: set<Entry>, buckets: map<Kind, seq<Entry>>) {
    && WellFormed(all)
    && buckets.Keys == {TsDir, Predeploy, PreReset, Daily, Monthly, StaleTmp, Other}
    && (forall kind | kind in buckets :: Elements(buckets[kind]) == Of(all, kind) && NoRepeats(buckets[kind]))
  }

  /** The keep set of each style that has a rule. */
  method ComputeKeepSets(ghost all: set<Entry>, buckets: map<Kind, seq<Entry>>, now: int) returns (keepSets: map<Kind, set<string>>)
    requires SoundBuckets(all, buckets)
    ensures keepSets.Keys == {TsDir, Predeploy, PreReset, Daily, Monthly}
    ensures forall kind | kind in keepSets :: keepSets[kind] == Names(Keep(Of(all, kind), kind, now))
  {
    hide KeepTsDir;
    hide KeepRecent;
    hide KeepWindow;
    SortIsStrict(buckets[TsDir]);
    var tsDir := ComputeTsDirKeep(SortByMoment(buckets[TsDir]), now);
    var predeploy := ComputeWindowKeep(buckets[Predeploy], PREDEPLOY_RETENTION_DAYS, now);
    var preReset := ComputeWindowKeep(buckets[PreReset], PRE_RESET_RETENTION_DAYS, now);
    var daily := ComputeRecentKeep(buckets[Daily], DAILY_RETENTION_COUNT);
    var monthly := ComputeRecentKeep(buckets[Monthly], MONTHLY_RETENTION_COUNT);
    keepSets := map[TsDir := tsDir, Predeploy := predeploy, PreReset := preReset, Daily := daily, Monthly := monthly];
  }

  lemma BucketsAreSound(entries: seq<Entry>, buckets: map<Kind, seq<Entry>>)
    requires NoRepeats(entries) && WellFormed(Elements(entries)) && buckets.Keys == KINDS
    requires forall kind | kind in KINDS :: buckets[kind] == Select(entries, kind)
    ensures SoundBuckets(Elements(entries), buckets)
    ensures (set kind: Kind, x: Entry | kind in KINDS && kind != Other && x in buckets[kind] :: x.name)
            == Names(Elements(entries) - Of(Elements(entries), Other))
    ensures (set x: Entry | x in buckets[Other] :: x.name) == Names(Of(Elements(entries), Other))
  {
    hide Select;
    var all := Elements(entries);
    forall kind: Kind
      ensures kind in KINDS && Elements(Select(entries, kind)) == Of(all, kind) && NoRepeats(Select(entries, kind))
    {
      SelectElements(entries, kind);
      SelectNoRepeats(entries, kind);
      KindIsListed(kind);
    }
    assert forall kind, x | kind in KINDS :: x in buckets[kind] <==> x in Elements(buckets[kind]);
    forall n | n in Names(all - Of(all, Other))
      ensures exists kind: Kind, x: Entry :: kind in KINDS && kind != Other && x in buckets[kind] && x.name == n
    {
      var x :| x in all - Of(all, Other) && x.name == n;
      assert x in Of(all, x.kind);
      assert x in buckets[x.kind];
    }
  }

  lemma NamesMinus(all: set<Entry>, a: set<Entry>, b: set<Entry>)
    requires WellFormed(all) && a <= all && b <= all
    ensures Names(a) - Names(b) == Names(a - b)
  {
    forall x | x in a ensures x.name in Names(b) <==> x in b {
      if x.name in Names(b) {
        var y :| y in b && y.name == x.name;
      }
    }
  }

  lemma KeepWithin(s: set<Entry>, kind: Kind, now: int)
    ensures Keep(s, kind, now) <= s
  {
  }

  /** Of the managed styles, the survivors are what the five rules keep. */
  lemma ManagedSurvivors(all: set<Entry>, now: int)
    ensures Survivors(all, now) - Of(all, Other) ==
            Keep(Of(all, TsDir), TsDir, now) + Keep(Of(all, Predeploy), Predeploy, now) + Keep(Of(all, PreReset), PreReset, now)
            + Keep(Of(all, Daily), Daily, now) + Keep(Of(all, Monthly), Monthly, now)
  {
    hide KeepTsDir;
    hide KeepRecent;
    hide KeepWindow;
    forall kind: Kind ensures Keep(Of(all, kind), kind, now) <= Of(all, kind) {
      KeepWithin(Of(all, kind), kind, now);
    }
  }

  lemma OthersSurvive(all: set<Entry>, now: int)
    ensures Of(all, Other) <= Survivors(all, now)
  {
  }

  lemma DisjointWhenMinusKeepsAll(a: set<string>, b: set<string>)
    requires a - b == a
    ensures a !! b
  {
  }

  lemma KeptNames(all: set<Entry>, now: int)
    ensures Names(Survivors(all, now) - Of(all, Other)) ==
            Names(Keep(Of(all, TsDir), TsDir, now)) + Names(Keep(Of(all, Predeploy), Predeploy, now))
            + Names(Keep(Of(all, PreReset), PreReset, now)) + Names(Keep(Of(all, Daily), Daily, now))
            + Names(Keep(Of(all, Monthly), Monthly, now))
    ensures Survivors(all, now) <= all
  {
    ManagedSurvivors(all, now);
    hide Keep;
  }

  lemma DeletedNames(all: set<Entry>, now: int, managed: set<string>, keep: set<string>)
    requires WellFormed(all)
    requires managed == Names(all - Of(all, Other))
    requires keep == Names(Keep(Of(all, TsDir), TsDir, now)) + Names(Keep(Of(all, Predeploy), Predeploy, now))
                     + Names(Keep(Of(all, PreReset), PreReset, now)) + Names(Keep(Of(all, Daily), Daily, now))
                     + Names(Keep(Of(all, Monthly), Monthly, now))
    ensures managed - keep == Names(all - Survivors(all, now))
    ensures Names(Of(all, Other)) !! (managed - keep)
  {
    ManagedSurvivors(all, now);
    hide Keep, Names;
    var kept := Survivors(all, now) - Of(all, Other);
    KeptNames(all, now);
    OthersSurvive(all, now);
    assert (all - Of(all, Other)) - kept == all - Survivors(all, now);
    assert Of(all, Other) - (all - Survivors(all, now)) == Of(all, Other);
    hide Survivors, Of;
    NamesMinus(all, all - Of(all, Other), kept);
    NamesMinus(all, Of(all, Other), all - Survivors(all, now));
    DisjointWhenMinusKeepsAll(Names(Of(all, Other)), Names(all - Survivors(all, now)));
  }

  /** plan_retention: the names kept of each style, and the names to delete. What is deleted is exactly
      what does not survive, so no unmanaged name is, and kept and deleted names split the managed ones. */
  method PlanRetention(entries: seq<Entry>, now: int) returns (keepSets: map<Kind, set<string>>, toDelete: set<string>)
    requires NoRepeats(entries) && WellFormed(Elements(entries))
    ensures keepSets.Keys == {TsDir, Predeploy, PreReset, Daily, Monthly, Other}
    ensures forall kind | kind in keepSets :: keepSets[kind] == Names(Keep(Of(Elements(entries), kind), kind, now))
    ensures toDelete == Names(Elements(entries) - Survivors(Elements(entries), now))
    ensures keepSets[Other] !! toDelete
  {
    ghost var all := Elements(entries);
    var buckets := BucketEntries(entries);
    BucketsAreSound(entries, buckets);
    keepSets := ComputeKeepSets(all, buckets, now);
    var managed := set kind: Kind, x: Entry | kind in KINDS && kind != Other && x in buckets[kind] :: x.name;
    var keep := keepSets[TsDir] + keepSets[Predeploy] + keepSets[PreReset] + keepSets[Daily] + keepSets[Monthly];
    toDelete := managed - keep;
    DeletedNames(all, now, managed, keep);
    keepSets := keepSets[Other := set x: Entry | x in buckets[Other] :: x.name];
  }
}
