/** apps/operations/api.py:47-124 and the registry of apps/operations/push.py:71-83: a version string
    stands for the whole contents of the tables behind a dataset.

    Times are whole microseconds since 1970. A write is stamped when it is made and takes effect when
    its transaction commits, so the stamps of one table may arrive out of order. */
module Fingerprint {
  import opened Wrappers
  import opened Text
  import Calendar
  import KanbanVersion

  datatype Model = Stock | Job | Company | CompanyPersonLink | Person | Staff | PhoneCallRecord | PhoneCallRecording

  datatype Dataset = StockData | Kanban | KanbanRelated | CrmCalls

  /** A stored row: its two timestamp columns and everything else. `updatedAt` is unset on a row
      that predates the column. */
  datatype Row = Row(updatedAt: Option<nat>, createdAt: nat, columns: seq<string>)

  type Table = map<nat, Row>

  function Max(a: nat, b: nat): nat {
    if a > b then a else b
  }

  function Updated(r: Row): nat {
    if r.updatedAt.Some? then r.updatedAt.value else 0
  }

  function Created(r: Row): nat {
    r.createdAt
  }

  /** `newest` is the highest stamp each table has ever been given. */
  datatype State = State(tables: map<Model, Table>, newest: map<Model, nat>)

  /** One committed write. A save moves `updated_at` unless it is a partial save that leaves it out. */
  datatype Action =
    | Insert(model: Model, id: nat, columns: seq<string>, at: nat)
    | Save(model: Model, id: nat, columns: seq<string>, stamps: bool, at: nat)
    | Delete(model: Model, id: nat)

  /** The start of 1970, counted from the start of year 1. */
  const EPOCH: nat := 719_162 * Calendar.MICROS_PER_DAY

  /** The times a datetime can hold. */
  predicate Representable(t: nat) {
    Calendar.InRange(EPOCH + t)
  }

  ghost predicate Valid(s: State) {
    && (forall m: Model :: m in s.tables)
    && (forall m: Model :: m in s.newest && Representable(s.newest[m]))
    && (forall m: Model, id | id in s.tables[m] ::
          Created(s.tables[m][id]) <= s.newest[m] && Updated(s.tables[m][id]) <= s.newest[m])
  }

  ghost predicate Enabled(s: State, a: Action)
    requires Valid(s)
  {
    (a.Insert? <==> a.id !in s.tables[a.model]) && (a.Delete? || Representable(a.at))
  }

  /** The write commits in the order of its stamp. */
  ghost predicate InOrder(s: State, a: Action)
    requires Valid(s)
  {
    a.Delete? || a.at > s.newest[a.model]
  }

  ghost function WriteTable(t: Table, a: Action): Table
    requires a.Insert? <==> a.id !in t
  {
    match a
    case Insert(_, id, columns, at) => t[id := Row(Some(at), at, columns)]
    case Save(_, id, columns, stamps, at) =>
      t[id := Row(if stamps then Some(at) else t[id].updatedAt, t[id].createdAt, columns)]
    case Delete(_, id) => t - {id}
  }

  ghost function Next(s: State, a: Action): (t: State)
    requires Valid(s) && Enabled(s, a)
    ensures Valid(t)
  {
    State(s.tables[a.model := WriteTable(s.tables[a.model], a)],
          if a.Delete? then s.newest else s.newest[a.model := Max(s.newest[a.model], a.at)])
  }

  ghost predicate CanRun(s: State, acts: seq<Action>)
    requires Valid(s)
    decreases |acts|, 0
  {
    acts == [] ||
    (CanRun(s, acts[..|acts| - 1]) && Enabled(Run(s, acts[..|acts| - 1]), acts[|acts| - 1]))
  }

  ghost function Run(s: State, acts: seq<Action>): (t: State)
    requires Valid(s) && CanRun(s, acts)
    ensures Valid(t)
    decreases |acts|, 1
  {
    if acts == [] then s else Next(Run(s, acts[..|acts| - 1]), acts[|acts| - 1])
  }

  // ----- versions

  /** Max(column) over the rows, 0 when there is none. */
  ghost function Latest(t: Table, column: Row -> nat): nat {
    if t == map[] then 0 else
      var id :| id in t;
      Max(column(t[id]), Latest(t - {id}, column))
  }

  /** _model_version, with exact microseconds for the float timestamp. */
  ghost function ModelVersion(t: Table): string {
    Print(Latest(t, Updated)) + "-" + Print(|t|)
  }

  /** _kanban_version: the empty table reads as the epoch. */
  ghost function JobVersion(t: Table): string
    requires Representable(Latest(t, Updated)) && Representable(Latest(t, Created))
  {
    KanbanVersion.EncodeInstants(EPOCH + Latest(t, Updated), EPOCH + Latest(t, Created), |t|)
  }

  const KANBAN_RELATED_MODELS := [Company, CompanyPersonLink, Person, Staff]
  const CRM_CALL_MODELS := [PhoneCallRecord, PhoneCallRecording, Company, CompanyPersonLink, Person, Job]

  ghost function Versions(s: State, models: seq<Model>): (r: seq<string>)
    requires Valid(s)
    ensures |r| == |models|
    ensures forall i | 0 <= i < |r| :: r[i] == ModelVersion(s.tables[models[i]])
  {
    if models == [] then [] else [ModelVersion(s.tables[models[0]])] + Versions(s, models[1..])
  }

  lemma {:induction false} LatestIsMax(t: Table, column: Row -> nat)
    ensures forall id | id in t :: column(t[id]) <= Latest(t, column)
    ensures Latest(t, column) == 0 || exists id | id in t :: column(t[id]) == Latest(t, column)
    decreases |t|
  {
    if t != map[] {
      var id :| id in t && Latest(t, column) == Max(column(t[id]), Latest(t - {id}, column));
      var rest := t - {id};
      LatestIsMax(rest, column);
      assert Latest(t, column) == Max(column(t[id]), Latest(rest, column));
      forall k | k in t ensures column(t[k]) <= Latest(t, column) {
        if k != id {
          assert k in rest && rest[k] == t[k];
          assert column(rest[k]) <= Latest(rest, column);
        }
      }
      if Latest(t, column) != column(t[id]) && Latest(rest, column) != 0 {
        var k :| k in rest && column(rest[k]) == Latest(rest, column);
        assert k in t && t[k] == rest[k];
      }
    }
  }

  lemma LatestIsBounded(t: Table, column: Row -> nat, bound: nat)
    requires forall id | id in t :: column(t[id]) <= bound
    ensures Latest(t, column) <= bound
  {
    LatestIsMax(t, column);
  }

  ghost function DatasetVersion(s: State, d: Dataset): string
    requires Valid(s)
  {
    match d
    case StockData => ModelVersion(s.tables[Stock])
    case Kanban =>
      LatestIsBounded(s.tables[Job], Updated, s.newest[Job]);
      LatestIsBounded(s.tables[Job], Created, s.newest[Job]);
      JobVersion(s.tables[Job])
    case KanbanRelated => Join(Versions(s, KANBAN_RELATED_MODELS), '|')
    case CrmCalls => Join(Versions(s, CRM_CALL_MODELS), '|')
  }

  /** DATA_VERSION_SOURCE_MODELS: which models the signal receivers watch for each dataset. */
  function Sources(d: Dataset): set<Model> {
    match d
    case StockData => {Stock}
    case Kanban => {Job}
    case KanbanRelated => {Company, CompanyPersonLink, Person, Staff}
    case CrmCalls => {PhoneCallRecord, PhoneCallRecording, Company, CompanyPersonLink, Person, Job}
  }

  // ----- the aggregates

  lemma ModelVersionSplits(t: Table)
    ensures Split(ModelVersion(t), '-') == [Print(Latest(t, Updated)), Print(|t|)]
    ensures '|' !in ModelVersion(t)
  {
    var parts := [Print(Latest(t, Updated)), Print(|t|)];
    assert Join(parts, '-') == ModelVersion(t);
    SplitJoin(parts, '-');
  }

  lemma ModelVersionInjective(t: Table, u: Table)
    requires ModelVersion(t) == ModelVersion(u)
    ensures Latest(t, Updated) == Latest(u, Updated) && |t| == |u|
  {
    ModelVersionSplits(t);
    ModelVersionSplits(u);
  }

  /** The newest stamp of a table: a row carries it and none a later one, or it is 0 and no row is stamped
      past the start of 1970. */
  ghost predicate IsNewest(t: Table, n: nat) {
    && (forall id | id in t && t[id].updatedAt.Some? :: t[id].updatedAt.value <= n)
    && (n == 0 || exists id | id in t && t[id].updatedAt.Some? :: t[id].updatedAt.value == n)
  }

  /** The latest creation, or 0 when there is no row. */
  ghost predicate IsLastCreated(t: Table, n: nat) {
    && (forall id | id in t :: t[id].createdAt <= n)
    && (n == 0 || exists id | id in t :: t[id].createdAt == n)
  }

  lemma NewestIsLatest(t: Table, n: nat)
    requires IsNewest(t, n)
    ensures Latest(t, Updated) == n
  {
    LatestIsMax(t, Updated);
    if n > 0 {
      var id :| id in t && t[id].updatedAt == Some(n);
      assert Updated(t[id]) == n;
    }
  }

  lemma LastCreatedIsLatest(t: Table, n: nat)
    requires IsLastCreated(t, n)
    ensures Latest(t, Created) == n
  {
    LatestIsMax(t, Created);
    if n > 0 {
      var id :| id in t && t[id].createdAt == n;
      assert Created(t[id]) == n;
    }
  }

  /** A table's version is its newest stamp and its row count, in that order. */
  lemma ModelVersionIs(t: Table, newest: nat)
    requires IsNewest(t, newest)
    ensures ModelVersion(t) == Print(newest) + "-" + Print(|t|)
  {
    NewestIsLatest(t, newest);
    hide Latest, Print;
  }

  lemma JobVersionInjective(t: Table, u: Table)
    requires Representable(Latest(t, Updated)) && Representable(Latest(t, Created))
    requires Representable(Latest(u, Updated)) && Representable(Latest(u, Created))
    requires JobVersion(t) == JobVersion(u)
    ensures Latest(t, Updated) == Latest(u, Updated) && |t| == |u|
  {
    hide Latest;
    hide KanbanVersion.EncodeInstants;
    KanbanVersion.EncodeInstantsInjective(
      EPOCH + Latest(t, Updated), EPOCH + Latest(t, Created), |t|,
      EPOCH + Latest(u, Updated), EPOCH + Latest(u, Created), |u|);
  }

  // ----- what a write stores

  /** A write touches one row of one table: an insert stamps both columns, a save keeps the creation time and
      moves the stamp only when it names it, and a delete takes the row away. */
  lemma WriteStores(s: State, a: Action)
    requires Valid(s) && Enabled(s, a)
    ensures var t := Next(s, a);
            && (forall m: Model | m != a.model :: t.tables[m] == s.tables[m])
            && t.tables[a.model].Keys == (if a.Delete? then s.tables[a.model].Keys - {a.id} else s.tables[a.model].Keys + {a.id})
            && (forall id | id in s.tables[a.model] && id != a.id :: t.tables[a.model][id] == s.tables[a.model][id])
            && (a.Insert? ==> t.tables[a.model][a.id] == Row(Some(a.at), a.at, a.columns))
            && (a.Save? ==> t.tables[a.model][a.id] == Row(
                  if a.stamps then Some(a.at) else s.tables[a.model][a.id].updatedAt, s.tables[a.model][a.id].createdAt, a.columns))
    ensures var t := Next(s, a);
            && (forall m: Model | m != a.model :: t.newest[m] == s.newest[m])
            && t.newest[a.model] == if a.Delete? || a.at < s.newest[a.model] then s.newest[a.model] else a.at
  {
  }

  // ----- no ABA for one table

  /** What a stamping run leaves: every row either carries a stamp from after `since`, or is as it was. */
  ghost predicate TouchedRowsAreStamped(before: Table, since: nat, after: Table) {
    forall id | id in after :: Updated(after[id]) > since || (id in before && after[id] == before[id])
  }

  lemma {:induction false} SubmapOfSameSize(t: Table, u: Table)
    requires |t| == |u|
    requires forall id | id in u :: id in t && u[id] == t[id]
    ensures t == u
  {
    var gone := t.Keys - u.Keys;
    assert t.Keys == u.Keys + gone;
    assert |t.Keys| == |u.Keys| + |gone|;
    assert gone == {};
  }

  /** A table with the same newest stamp and the same count as before holds the same rows. */
  lemma SameFingerprintSameRows(before: Table, since: nat, after: Table)
    requires TouchedRowsAreStamped(before, since, after)
    requires forall id | id in before :: Updated(before[id]) <= since
    requires Latest(before, Updated) == Latest(after, Updated) && |before| == |after|
    ensures before == after
  {
    LatestIsBounded(before, Updated, since);
    LatestIsMax(after, Updated);
    SubmapOfSameSize(before, after);
  }

  // ----- no ABA over runs

  /** The step moves `updated_at` if it changes a row at all. */
  ghost predicate Stamps(s: State, a: Action)
    requires Valid(s) && Enabled(s, a)
  {
    a.Save? && !a.stamps ==> s.tables[a.model][a.id].columns == a.columns
  }

  /** Every write of the run to one of these models commits in the order of its stamp. */
  ghost predicate AllInOrder(s: State, acts: seq<Action>, models: set<Model>)
    requires Valid(s) && CanRun(s, acts)
    decreases |acts|
  {
    acts == [] ||
    (AllInOrder(s, acts[..|acts| - 1], models) &&
     (acts[|acts| - 1].model in models ==> InOrder(Run(s, acts[..|acts| - 1]), acts[|acts| - 1])))
  }

  /** Every save of the run to one of these models stamps the row or leaves it alone. */
  ghost predicate Disciplined(s: State, acts: seq<Action>, models: set<Model>)
    requires Valid(s) && CanRun(s, acts)
    decreases |acts|
  {
    acts == [] ||
    (Disciplined(s, acts[..|acts| - 1], models) &&
     (acts[|acts| - 1].model in models ==> Stamps(Run(s, acts[..|acts| - 1]), acts[|acts| - 1])))
  }

  ghost predicate SameSources(s: State, t: State, d: Dataset)
    requires Valid(s) && Valid(t)
  {
    forall m | m in Sources(d) :: s.tables[m] == t.tables[m]
  }

  lemma {:induction false} RunStampsWhatItTouches(s: State, acts: seq<Action>, models: set<Model>, m: Model)
    requires Valid(s) && CanRun(s, acts) && m in models
    requires Disciplined(s, acts, models) && AllInOrder(s, acts, models)
    ensures Run(s, acts).newest[m] >= s.newest[m]
    ensures TouchedRowsAreStamped(s.tables[m], s.newest[m], Run(s, acts).tables[m])
  {
    if acts != [] {
      RunStampsWhatItTouches(s, acts[..|acts| - 1], models, m);
    }
  }

  /** The "|"-joined form loses nothing either. */
  lemma JoinedVersionsInjective(s: State, t: State, models: seq<Model>)
    requires Valid(s) && Valid(t) && models != []
    requires Join(Versions(s, models), '|') == Join(Versions(t, models), '|')
    ensures forall m | m in models ::
              Latest(s.tables[m], Updated) == Latest(t.tables[m], Updated) && |s.tables[m]| == |t.tables[m]|
  {
    var v, w := Versions(s, models), Versions(t, models);
    forall i | 0 <= i < |models| ensures '|' !in v[i] && '|' !in w[i] {
      ModelVersionSplits(s.tables[models[i]]);
      ModelVersionSplits(t.tables[models[i]]);
    }
    SplitJoin(v, '|');
    SplitJoin(w, '|');
    forall m | m in models
      ensures Latest(s.tables[m], Updated) == Latest(t.tables[m], Updated) && |s.tables[m]| == |t.tables[m]|
    {
      var i :| 0 <= i < |models| && models[i] == m;
      assert v[i] == w[i];
      ModelVersionInjective(s.tables[m], t.tables[m]);
    }
  }

  lemma JoinedVersionsSplit(s: State, models: seq<Model>)
    requires Valid(s) && models != []
    ensures Split(Join(Versions(s, models), '|'), '|') == Versions(s, models)
  {
    forall i | 0 <= i < |models| ensures '|' !in Versions(s, models)[i] {
      ModelVersionSplits(s.tables[models[i]]);
    }
    SplitJoin(Versions(s, models), '|');
  }

  /** Which tables each dataset's version speaks of, and in what order. */
  lemma DatasetVersionSplits(s: State)
    requires Valid(s)
    ensures DatasetVersion(s, StockData) == ModelVersion(s.tables[Stock])
    ensures Split(DatasetVersion(s, KanbanRelated), '|') ==
            [ModelVersion(s.tables[Company]), ModelVersion(s.tables[CompanyPersonLink]), ModelVersion(s.tables[Person]),
             ModelVersion(s.tables[Staff])]
    ensures Split(DatasetVersion(s, CrmCalls), '|') ==
            [ModelVersion(s.tables[PhoneCallRecord]), ModelVersion(s.tables[PhoneCallRecording]),
             ModelVersion(s.tables[Company]), ModelVersion(s.tables[CompanyPersonLink]), ModelVersion(s.tables[Person]),
             ModelVersion(s.tables[Job])]
  {
    hide ModelVersion, Join, Split, Versions;
    JoinedVersionsSplit(s, KANBAN_RELATED_MODELS);
    JoinedVersionsSplit(s, CRM_CALL_MODELS);
  }

  lemma JobStampsFit(s: State, newest: nat, created: nat)
    requires Valid(s) && IsNewest(s.tables[Job], newest) && IsLastCreated(s.tables[Job], created)
    ensures Latest(s.tables[Job], Updated) == newest && Representable(newest)
    ensures Latest(s.tables[Job], Created) == created && Representable(created)
  {
    NewestIsLatest(s.tables[Job], newest);
    LastCreatedIsLatest(s.tables[Job], created);
    LatestIsBounded(s.tables[Job], Updated, s.newest[Job]);
    LatestIsBounded(s.tables[Job], Created, s.newest[Job]);
  }

  /** Decoding the Kanban dataset's version gives the newest stamp of the Job table, its latest creation
      and its row count, in that order, as instants counted from the start of year 1. */
  lemma KanbanVersionDecodes(s: State, newest: nat, created: nat)
    requires Valid(s) && IsNewest(s.tables[Job], newest) && IsLastCreated(s.tables[Job], created)
    ensures Representable(newest) && Representable(created)
    ensures KanbanVersion.Decode(DatasetVersion(s, Kanban)) == Ok(KanbanVersion.Version(
              Calendar.CivilAt(62_135_596_800_000_000 + newest), Calendar.CivilAt(62_135_596_800_000_000 + created),
              |s.tables[Job]|))
  {
    hide Latest, KanbanVersion.Decode, KanbanVersion.EncodeInstants, Calendar.CivilAt, Calendar.InRange;
    JobStampsFit(s, newest, created);
    KanbanVersion.EncodedInstantsDecode(EPOCH + newest, EPOCH + created, |s.tables[Job]|);
  }

  lemma EqualVersionsEqualAggregates(s: State, t: State, d: Dataset)
    requires Valid(s) && Valid(t) && DatasetVersion(s, d) == DatasetVersion(t, d)
    ensures forall m | m in Sources(d) ::
              Latest(s.tables[m], Updated) == Latest(t.tables[m], Updated) && |s.tables[m]| == |t.tables[m]|
  {
    hide ModelVersion;
    hide Join;
    hide Latest;
    hide KanbanVersion.EncodeInstants;
    match d
    case StockData => ModelVersionInjective(s.tables[Stock], t.tables[Stock]);
    case Kanban =>
      LatestIsBounded(s.tables[Job], Updated, s.newest[Job]);
      LatestIsBounded(s.tables[Job], Created, s.newest[Job]);
      LatestIsBounded(t.tables[Job], Updated, t.newest[Job]);
      LatestIsBounded(t.tables[Job], Created, t.newest[Job]);
      JobVersionInjective(s.tables[Job], t.tables[Job]);
    case KanbanRelated => JoinedVersionsInjective(s, t, KANBAN_RELATED_MODELS);
    case CrmCalls => JoinedVersionsInjective(s, t, CRM_CALL_MODELS);
  }

  /** No ABA: if a dataset's version string comes back after any run of inserts, stamping saves and
      deletes that commit in the order of their stamps, every table behind the dataset holds exactly the rows it held before. */
  lemma NoAba(s: State, acts: seq<Action>, d: Dataset)
    requires Valid(s) && CanRun(s, acts)
    requires Disciplined(s, acts, Sources(d)) && AllInOrder(s, acts, Sources(d))
    requires DatasetVersion(s, d) == DatasetVersion(Run(s, acts), d)
    ensures SameSources(s, Run(s, acts), d)
  {
    hide DatasetVersion;
    var t := Run(s, acts);
    EqualVersionsEqualAggregates(s, t, d);
    forall m | m in Sources(d) ensures s.tables[m] == t.tables[m] {
      RunStampsWhatItTouches(s, acts, Sources(d), m);
      SameFingerprintSameRows(s.tables[m], s.newest[m], t.tables[m]);
    }
  }

  ghost predicate SameAggregates(t: Table, u: Table) {
    Latest(t, Updated) == Latest(u, Updated) && Latest(t, Created) == Latest(u, Created) && |t| == |u|
  }

  lemma SameVersions(s: State, t: State, models: seq<Model>)
    requires Valid(s) && Valid(t)
    requires forall m | m in models :: ModelVersion(s.tables[m]) == ModelVersion(t.tables[m])
    ensures Versions(s, models) == Versions(t, models)
  {
    hide ModelVersion;
  }

  lemma SameAggregatesSameModelVersion(t: Table, u: Table)
    requires SameAggregates(t, u)
    ensures ModelVersion(t) == ModelVersion(u)
  {
    hide Latest;
    hide Print;
  }

  lemma SameAggregatesSameVersion(s: State, t: State, d: Dataset)
    requires Valid(s) && Valid(t)
    requires forall m | m in Sources(d) :: SameAggregates(s.tables[m], t.tables[m])
    ensures DatasetVersion(s, d) == DatasetVersion(t, d)
  {
    hide Latest;
    hide ModelVersion;
    hide KanbanVersion.EncodeInstants;
    hide Join;
    forall m | m in Sources(d) ensures ModelVersion(s.tables[m]) == ModelVersion(t.tables[m]) {
      SameAggregatesSameModelVersion(s.tables[m], t.tables[m]);
    }
    match d
    case StockData =>
    case Kanban =>
    case KanbanRelated => SameVersions(s, t, KANBAN_RELATED_MODELS);
    case CrmCalls => SameVersions(s, t, CRM_CALL_MODELS);
  }

  lemma DatasetVersionReadsItsSources(s: State, t: State, d: Dataset)
    requires Valid(s) && Valid(t) && SameSources(s, t, d)
    ensures DatasetVersion(s, d) == DatasetVersion(t, d)
  {
    hide DatasetVersion;
    SameAggregatesSameVersion(s, t, d);
  }

  // ----- exactly which writes show

  /** The stamp a save leaves on its row. */
  function NewStamp(r: Row, a: Action): nat
    requires a.Save?
  {
    if a.stamps then a.at else Updated(r)
  }

  /** What a write must do to show: change the row count, or move a stamp at the top of the table, the
      larger of the old and the new one exceeding those of all other rows. */
  ghost predicate Shows(t: Table, a: Action)
    requires a.Insert? <==> a.id !in t
  {
    a.Save? ==>
      var before, after := Updated(t[a.id]), NewStamp(t[a.id], a);
      before != after && forall k | k in t && k != a.id :: Updated(t[k]) < Max(before, after)
  }

  lemma SaveMovesLatestIff(t: Table, a: Action)
    requires a.Save? && a.id in t
    ensures Latest(WriteTable(t, a), Updated) != Latest(t, Updated) <==> Shows(t, a)
  {
    var u := WriteTable(t, a);
    LatestIsMax(t, Updated);
    LatestIsMax(u, Updated);
    assert Updated(u[a.id]) == NewStamp(t[a.id], a);
    forall k | k in t && k != a.id ensures k in u && u[k] == t[k] {
    }
    assert a.id in u && a.id in t;
  }

  lemma CountMoves(t: Table, a: Action)
    requires a.Insert? <==> a.id !in t
    ensures |WriteTable(t, a)| == |t| <==> a.Save?
  {
    var u := WriteTable(t, a);
    if a.Save? {
      assert u.Keys == t.Keys;
      assert |u| == |u.Keys| && |t| == |t.Keys|;
    } else if a.Insert? {
      assert u.Keys == t.Keys + {a.id};
      assert |u| == |u.Keys| && |t| == |t.Keys|;
    } else {
      assert u.Keys == t.Keys - {a.id};
      assert |u| == |u.Keys| && |t| == |t.Keys|;
    }
  }

  lemma SameStampsSameLatest(t: Table, u: Table, column: Row -> nat)
    requires t.Keys == u.Keys && forall id | id in t :: column(t[id]) == column(u[id])
    ensures Latest(t, column) == Latest(u, column)
  {
    LatestIsMax(t, column);
    LatestIsMax(u, column);
  }

  lemma HiddenWriteSameAggregates(t: Table, a: Action)
    requires (a.Insert? <==> a.id !in t) && !Shows(t, a)
    ensures SameAggregates(WriteTable(t, a), t)
  {
    var u := WriteTable(t, a);
    SaveMovesLatestIff(t, a);
    CountMoves(t, a);
    assert u.Keys == t.Keys;
    SameStampsSameLatest(t, u, Created);
  }

  /** Exactly which writes move a dataset's version string, in whatever order they commit. */
  lemma VersionMovesIff(s: State, a: Action, d: Dataset)
    requires Valid(s) && Enabled(s, a)
    ensures DatasetVersion(Next(s, a), d) != DatasetVersion(s, d) <==> a.model in Sources(d) && Shows(s.tables[a.model], a)
  {
    hide DatasetVersion, Latest, Shows, WriteTable;
    var t := Next(s, a);
    var table := s.tables[a.model];
    if a.model !in Sources(d) {
      DatasetVersionReadsItsSources(s, t, d);
    } else if Shows(table, a) {
      CountMoves(table, a);
      if a.Save? { SaveMovesLatestIff(table, a); }
      if DatasetVersion(t, d) == DatasetVersion(s, d) {
        EqualVersionsEqualAggregates(s, t, d);
        assert false;
      }
    } else {
      HiddenWriteSameAggregates(table, a);
      assert forall m | m in Sources(d) && m != a.model :: t.tables[m] == s.tables[m];
      SameAggregatesSameVersion(t, s, d);
    }
  }

  /** Push and poll agree on what feeds a dataset: a stamping write that commits in order moves a
      dataset's version string exactly when its model is one the push registry lists for that dataset. */
  lemma WriteMovesExactlyItsDatasets(s: State, a: Action, d: Dataset)
    requires Valid(s) && Enabled(s, a) && InOrder(s, a) && (a.Save? ==> a.stamps)
    ensures DatasetVersion(Next(s, a), d) != DatasetVersion(s, d) <==> a.model in Sources(d)
  {
    hide DatasetVersion;
    VersionMovesIff(s, a, d);
  }

  /** A partial save that changes a row without moving `updated_at` goes unseen: the row is different
      and every version string is the same. */
  lemma UnstampedSaveIsInvisible(s: State, a: Action, d: Dataset)
    requires Valid(s) && Enabled(s, a) && !Stamps(s, a)
    ensures Next(s, a).tables[a.model] != s.tables[a.model]
    ensures DatasetVersion(Next(s, a), d) == DatasetVersion(s, d)
  {
    hide DatasetVersion;
    assert Next(s, a).tables[a.model][a.id] != s.tables[a.model][a.id];
    VersionMovesIff(s, a, d);
  }

  /** So does a stamping save that commits behind a later stamp of the same table: of two open
      transactions, the one stamped first commits last. */
  lemma OvertakenSaveIsInvisible(s: State, a: Action, other: nat, d: Dataset)
    requires Valid(s) && Enabled(s, a) && a.Save? && a.stamps
    requires other in s.tables[a.model] && other != a.id
    requires Updated(s.tables[a.model][a.id]) < a.at < Updated(s.tables[a.model][other])
    ensures Next(s, a).tables[a.model] != s.tables[a.model]
    ensures DatasetVersion(Next(s, a), d) == DatasetVersion(s, d)
  {
    hide DatasetVersion;
    assert Updated(Next(s, a).tables[a.model][a.id]) == a.at;
    VersionMovesIff(s, a, d);
  }

  /** Along the run, a step that leaves the dataset's version string alone leaves its tables alone. */
  ghost predicate EveryChangeShows(s: State, acts: seq<Action>, d: Dataset)
    requires Valid(s) && CanRun(s, acts)
    decreases |acts|
  {
    acts == [] ||
    (EveryChangeShows(s, acts[..|acts| - 1], d) &&
     (DatasetVersion(Run(s, acts[..|acts| - 1]), d) == DatasetVersion(Run(s, acts), d) ==>
      SameSources(Run(s, acts[..|acts| - 1]), Run(s, acts), d)))
  }

  /** The save stores the row it found. */
  ghost predicate ChangesNothing(t: Table, a: Action)
    requires a.Insert? <==> a.id !in t
  {
    a.Save? && a.columns == t[a.id].columns && (a.stamps ==> t[a.id].updatedAt == Some(a.at))
  }

  /** Every write of the run to the dataset's tables shows or changes nothing. */
  ghost predicate AllShow(s: State, acts: seq<Action>, d: Dataset)
    requires Valid(s) && CanRun(s, acts)
    decreases |acts|
  {
    acts == [] ||
    (AllShow(s, acts[..|acts| - 1], d) &&
     (acts[|acts| - 1].model in Sources(d) ==>
      var t := Run(s, acts[..|acts| - 1]).tables[acts[|acts| - 1].model];
      Shows(t, acts[|acts| - 1]) || ChangesNothing(t, acts[|acts| - 1])))
  }

  lemma SourcesStayIff(s: State, a: Action, d: Dataset)
    requires Valid(s) && Enabled(s, a)
    ensures SameSources(s, Next(s, a), d) <==>
            (a.model in Sources(d) ==> WriteTable(s.tables[a.model], a) == s.tables[a.model])
  {
    hide WriteTable, Sources;
  }

  lemma WriteLeavesTableIff(t: Table, a: Action)
    requires a.Insert? <==> a.id !in t
    ensures WriteTable(t, a) == t <==> ChangesNothing(t, a)
  {
    var u := WriteTable(t, a);
    if a.Save? {
      assert u == t[a.id := u[a.id]];
      assert u[a.id] == t[a.id] <==> ChangesNothing(t, a);
    } else {
      assert a.id in u <==> a.id !in t;
    }
  }

  lemma StepShowsIff(s: State, a: Action, d: Dataset)
    requires Valid(s) && Enabled(s, a)
    ensures (DatasetVersion(s, d) == DatasetVersion(Next(s, a), d) ==> SameSources(s, Next(s, a), d))
            <==> (a.model in Sources(d) ==> Shows(s.tables[a.model], a) || ChangesNothing(s.tables[a.model], a))
  {
    VersionMovesIff(s, a, d);
    WriteLeavesTableIff(s.tables[a.model], a);
    SourcesStayIff(s, a, d);
    hide *;
  }

  /** The exact condition, for writes that commit in any order: every change to a dataset's tables moves
      its version string if and only if each of its writes changes the row count, moves a stamp at the
      top of its table, or changes nothing. */
  lemma {:induction false} EveryChangeShowsIff(s: State, acts: seq<Action>, d: Dataset)
    requires Valid(s) && CanRun(s, acts)
    ensures EveryChangeShows(s, acts, d) <==> AllShow(s, acts, d)
    decreases |acts|
  {
    if acts != [] {
      EveryChangeShowsIff(s, acts[..|acts| - 1], d);
      StepShowsIff(Run(s, acts[..|acts| - 1]), acts[|acts| - 1], d);
    }
  }

  lemma InOrderShowsIffStamps(s: State, a: Action)
    requires Valid(s) && Enabled(s, a) && InOrder(s, a)
    ensures var t := s.tables[a.model]; Shows(t, a) || ChangesNothing(t, a) <==> Stamps(s, a)
  {
  }

  /** When stamps arrive in commit order that comes down to the columns named: every change shows if and
      only if every row-changing save to those tables names `updated_at`. */
  lemma {:induction false} EveryChangeShowsIffSavesStamp(s: State, acts: seq<Action>, d: Dataset)
    requires Valid(s) && CanRun(s, acts) && AllInOrder(s, acts, Sources(d))
    ensures EveryChangeShows(s, acts, d) <==> Disciplined(s, acts, Sources(d))
    decreases |acts|
  {
    if acts != [] {
      var before := Run(s, acts[..|acts| - 1]);
      EveryChangeShowsIffSavesStamp(s, acts[..|acts| - 1], d);
      StepShowsIff(before, acts[|acts| - 1], d);
      if acts[|acts| - 1].model in Sources(d) {
        InOrderShowsIffStamps(before, acts[|acts| - 1]);
      }
    }
  }
}
