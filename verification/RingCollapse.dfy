/** apps/crm/api.py:217-280: one list row per burst of indistinguishable ring attempts.

    The twins of a call are looked up in the whole table, the rows to show come from a queryset that
    other filters may have narrowed. */
module RingCollapse {
  import opened Wrappers

  /** The columns that make two attempts indistinguishable; four of them may be NULL. */
  datatype Identity = Identity(
    account: string, moment: int, duration: nat,
    origin: Option<string>, destination: Option<string>, status: Option<string>, callType: Option<string>)

  datatype Call = Call(id: nat, recorded: bool, linked: bool, identity: Identity)

  /** Coalesce(column, ""). */
  function OrBlank(s: Option<string>): string {
    if s.Some? then s.value else ""
  }

  function Key(c: Call): (string, int, nat, string, string, string, string) {
    var i := c.identity;
    (i.account, i.moment, i.duration, OrBlank(i.origin), OrBlank(i.destination), OrBlank(i.status), OrBlank(i.callType))
  }

  /** The table's check constraints: these columns are NULL rather than blank. */
  predicate NeverBlank(i: Identity) {
    i.origin != Some("") && i.destination != Some("") && i.status != Some("") && i.callType != Some("")
  }

  /** Only rows that hold no evidence of their own collapse. */
  predicate Collapsible(c: Call) {
    !c.recorded && !c.linked
  }

  ghost predicate DistinctIds(table: set<Call>) {
    forall a, b | a in table && b in table :: a.id == b.id ==> a == b
  }

  function Twins(table: set<Call>, c: Call): set<Call> {
    set y | y in table && Collapsible(y) && Key(y) == Key(c)
  }

  predicate HasEarlierTwin(table: set<Call>, c: Call) {
    exists y | y in Twins(table, c) :: y.id < c.id
  }

  function Shown(table: set<Call>, queryset: set<Call>): set<Call> {
    set c | c in queryset && !(HasEarlierTwin(table, c) && Collapsible(c))
  }

  function AttemptCount(table: set<Call>, c: Call): nat {
    if Collapsible(c) then |Twins(table, c)| else 1
  }

  /** Reading NULL as blank confuses no two identities. */
  lemma KeysAreExact(a: Call, b: Call)
    requires NeverBlank(a.identity) && NeverBlank(b.identity)
    ensures Key(a) == Key(b) <==> a.identity == b.identity
  {
  }

  /** The queryset holds a collapsible row's whole burst or none of it. */
  ghost predicate WholeBursts(table: set<Call>, queryset: set<Call>) {
    queryset <= table && forall c | c in queryset && Collapsible(c) :: Twins(table, c) <= queryset
  }

  lemma {:induction false} SmallestExists(s: set<Call>) returns (m: Call)
    requires s != {}
    ensures m in s && forall y | y in s :: m.id <= y.id
  {
    m :| m in s;
    if s - {m} != {} {
      var n := SmallestExists(s - {m});
      if n.id < m.id { m := n; }
    }
  }

  /** A recorded or linked row always shows, alone; a burst shows as its smallest id, and only that. */
  lemma ShownRows(table: set<Call>, queryset: set<Call>, c: Call)
    requires DistinctIds(table) && queryset <= table && c in queryset
    ensures !Collapsible(c) ==> c in Shown(table, queryset) && AttemptCount(table, c) == 1
    ensures Collapsible(c) ==> (c in Shown(table, queryset) <==> forall y | y in Twins(table, c) :: c.id <= y.id)
    ensures AttemptCount(table, c) >= 1
  {
    if Collapsible(c) {
      assert c in Twins(table, c);
      assert Twins(table, c) == {c} + (Twins(table, c) - {c});
    }
  }

  /** In the table's own columns: a row of the queryset is listed unless it is neither recorded nor linked
      and another such row with the same identity has a smaller id; it counts all such rows, or 1. */
  lemma ListedIff(table: set<Call>, queryset: set<Call>, c: Call)
    requires c in table
    requires forall y | y in table ::
               && y.identity.origin != Some("") && y.identity.destination != Some("")
               && y.identity.status != Some("") && y.identity.callType != Some("")
    ensures c in Shown(table, queryset) <==>
            && c in queryset
            && (c.recorded || c.linked ||
                forall y | y in table && !y.recorded && !y.linked && y.identity == c.identity :: c.id <= y.id)
    ensures AttemptCount(table, c) ==
            if c.recorded || c.linked then 1
            else |set y | y in table && !y.recorded && !y.linked && y.identity == c.identity|
  {
    var burst := set y | y in table && !y.recorded && !y.linked && y.identity == c.identity;
    assert Twins(table, c) == burst by {
      forall y | y in table ensures Key(y) == Key(c) <==> y.identity == c.identity {
        KeysAreExact(y, c);
      }
    }
    hide Key;
    assert HasEarlierTwin(table, c) <==> exists y | y in burst :: y.id < c.id;
  }

  // ----- the counts add up

  ghost function Total(table: set<Call>, rows: set<Call>): nat {
    if rows == {} then 0 else
      var c :| c in rows;
      AttemptCount(table, c) + Total(table, rows - {c})
  }

  lemma {:induction false} TotalWithout(table: set<Call>, rows: set<Call>, c: Call)
    requires c in rows
    ensures Total(table, rows) == AttemptCount(table, c) + Total(table, rows - {c})
    decreases |rows|
  {
    hide AttemptCount;
    var d :| d in rows && Total(table, rows) == AttemptCount(table, d) + Total(table, rows - {d});
    if d != c {
      TotalWithout(table, rows - {d}, c);
      TotalWithout(table, rows - {c}, d);
      assert rows - {d} - {c} == rows - {c} - {d};
    }
  }

  /** One burst, or one row that stands alone. */
  function Group(table: set<Call>, c: Call): set<Call> {
    if Collapsible(c) then Twins(table, c) else {c}
  }

  /** Of one burst, the smallest id shows and no other. */
  lemma BurstShowsSmallest(table: set<Call>, queryset: set<Call>, c: Call, m: Call)
    requires DistinctIds(table) && queryset <= table
    requires m in Twins(table, c) && forall y | y in Twins(table, c) :: m.id <= y.id
    ensures forall x | x in Twins(table, c) && x in queryset :: x in Shown(table, queryset) <==> x == m
  {
    forall x | x in Twins(table, c) && x in queryset ensures x in Shown(table, queryset) <==> x == m {
      assert Twins(table, x) == Twins(table, c);
      if x != m {
        assert m.id < x.id;
        assert HasEarlierTwin(table, x);
      }
    }
  }

  /** Taking a group out takes out one shown row, which counts exactly what was taken. */
  lemma GroupShowsOnce(table: set<Call>, queryset: set<Call>, c: Call) returns (m: Call)
    requires DistinctIds(table) && WholeBursts(table, queryset) && c in queryset
    ensures c in Group(table, c) && Group(table, c) <= queryset
    ensures WholeBursts(table, queryset - Group(table, c))
    ensures m in Shown(table, queryset) && AttemptCount(table, m) == |Group(table, c)|
    ensures Shown(table, queryset) - {m} == Shown(table, queryset - Group(table, c))
  {
    var group := Group(table, c);
    if Collapsible(c) {
      assert c in group;
      m := SmallestExists(group);
      assert Twins(table, m) == Twins(table, c);
      BurstShowsSmallest(table, queryset, c, m);
    } else {
      m := c;
    }
    var rest := queryset - group;
    forall x, y | x in rest && Collapsible(x) && y in Twins(table, x) ensures y in rest {
      assert y in group ==> x in group;
    }
    forall x | x in queryset ensures x in Shown(table, queryset) && x != m <==> x in Shown(table, rest) {
      if x in group && Collapsible(c) { BurstShowsSmallest(table, queryset, c, m); }
    }
  }

  /** Conservation: on the whole table, or on any queryset made of whole bursts, the shown attempt
      counts add up to the number of rows. */
  lemma {:induction false} AttemptsAddUp(table: set<Call>, queryset: set<Call>)
    requires DistinctIds(table) && WholeBursts(table, queryset)
    ensures Total(table, Shown(table, queryset)) == |queryset|
    decreases |queryset|
  {
    if queryset == {} {
      assert Shown(table, queryset) == {};
    } else {
      var c :| c in queryset;
      var m := GroupShowsOnce(table, queryset, c);
      var group := Group(table, c);
      assert queryset == group + (queryset - group);
      assert |group| > 0 by { assert group == {c} + (group - {c}); }
      AttemptsAddUp(table, queryset - group);
      TotalWithout(table, Shown(table, queryset), m);
    }
  }

  lemma WholeTableAddsUp(table: set<Call>)
    requires DistinctIds(table)
    ensures Total(table, Shown(table, table)) == |table|
  {
    AttemptsAddUp(table, table);
  }

  // ----- under a filter

  /** Every burst with a row in the queryset is shown, wearing the number of its rows in the queryset. */
  ghost predicate CountsAreTrue(table: set<Call>, queryset: set<Call>) {
    forall c | c in queryset && Collapsible(c) ::
      exists m | m in Shown(table, queryset) && m in Twins(table, c) :: AttemptCount(table, m) == |Twins(table, c) * queryset|
  }

  lemma SameSize(a: set<Call>, b: set<Call>)
    requires a <= b && |a| == |b|
    ensures a == b
  {
    assert b == a + (b - a);
  }

  /** The list tells the truth about a filtered queryset if and only if the filter keeps whole bursts. */
  lemma CountsAreTrueIffWholeBursts(table: set<Call>, queryset: set<Call>)
    requires DistinctIds(table) && queryset <= table
    ensures CountsAreTrue(table, queryset) <==> WholeBursts(table, queryset)
  {
    if CountsAreTrue(table, queryset) {
      forall c | c in queryset && Collapsible(c) ensures Twins(table, c) <= queryset {
        var m :| m in Shown(table, queryset) && m in Twins(table, c) && AttemptCount(table, m) == |Twins(table, c) * queryset|;
        assert Twins(table, m) == Twins(table, c);
        SameSize(Twins(table, c) * queryset, Twins(table, c));
      }
    }
    if WholeBursts(table, queryset) {
      forall c | c in queryset && Collapsible(c)
        ensures exists m | m in Shown(table, queryset) && m in Twins(table, c) :: AttemptCount(table, m) == |Twins(table, c) * queryset| {
        assert c in Twins(table, c);
        var m := SmallestExists(Twins(table, c));
        BurstShowsSmallest(table, queryset, c, m);
        assert Twins(table, m) == Twins(table, c) && Twins(table, c) * queryset == Twins(table, c);
      }
    }
  }

  /** A burst shows in a filtered list exactly when the filter kept its smallest id; otherwise rows
      that match the filter do not show at all. */
  lemma BurstShowsIffSmallestKept(table: set<Call>, queryset: set<Call>, c: Call, smallest: Call)
    requires DistinctIds(table) && queryset <= table && c in queryset && Collapsible(c)
    requires smallest in Twins(table, c) && forall y | y in Twins(table, c) :: smallest.id <= y.id
    ensures (exists m | m in Shown(table, queryset) :: m in Twins(table, c)) <==> smallest in queryset
  {
    BurstShowsSmallest(table, queryset, c, smallest);
    if smallest in queryset {
      assert smallest in Shown(table, queryset);
    }
  }
}
