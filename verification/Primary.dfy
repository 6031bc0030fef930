/** Demote, then write: how the save() methods of apps/company/models.py keep one primary row.

    Each of them clears the flag of every other primary row in the saved row's group and then writes
    the row. Here is the pattern once, and its two plain users: CompanyPersonLink (491-513) and
    SupplierPickupAddress (1071-1079), whose tables have no constraint on the flag. The two statements
    share no transaction of their own: `atomic` says whether the caller has one open, whose rollback
    undoes the demotion of a refused write. */
module Primary {
  import opened Wrappers

  /** `slot(r)` is the one place of honour that row r claims, if it claims one. */
  ghost predicate AtMostOne<R, S>(rows: map<nat, R>, slot: R -> Option<S>) {
    forall a, b | a in rows && b in rows && slot(rows[a]).Some? && slot(rows[a]) == slot(rows[b]) :: a == b
  }

  /** filter(slot == taken).exclude(id).update(is_primary=False) */
  function DemoteOthers<R, S(==)>(rows: map<nat, R>, id: nat, taken: S, slot: R -> Option<S>, demoted: R -> R): map<nat, R> {
    map k | k in rows :: if k != id && slot(rows[k]) == Some(taken) then demoted(rows[k]) else rows[k]
  }

  /** The first half of a save: clear the slot the instance claims. */
  function Demotion<R, S(==)>(rows: map<nat, R>, id: nat, inst: R, slot: R -> Option<S>, demoted: R -> R): map<nat, R> {
    if slot(inst).Some? then DemoteOthers(rows, id, slot(inst).value, slot, demoted) else rows
  }

  /** The whole of an accepted one: clear the slot, then store the row. */
  function Saved<R, S(==)>(rows: map<nat, R>, id: nat, inst: R, written: R, slot: R -> Option<S>, demoted: R -> R): map<nat, R> {
    Demotion(rows, id, inst, slot, demoted)[id := written]
  }

  /** Another row has the same unique key. */
  predicate Clash<R, K(==)>(rows: map<nat, R>, id: nat, row: R, key: R -> K) {
    exists k | k in rows :: k != id && key(rows[k]) == key(row)
  }

  /** The rows afterwards, and whether the save stored its row or raised. */
  datatype Outcome<R> = Stored(rows: map<nat, R>) | Refused(rows: map<nat, R>)

  /** save(update_fields=columns): an empty list writes nothing, a partial save needs its row to exist. */
  function Save<R, S(==), K(==), C(==)>(rows: map<nat, R>, id: nat, inst: R, written: R, columns: Option<set<C>>,
      slot: R -> Option<S>, demoted: R -> R, key: R -> K, atomic: bool): Outcome<R>
  {
    var cleared := Demotion(rows, id, inst, slot, demoted);
    if columns.Some? && columns.value == {} then Stored(cleared)
    else if (columns.Some? && id !in rows) || Clash(cleared, id, written, key) then Refused(if atomic then rows else cleared)
    else Stored(cleared[id := written])
  }

  /** Demoting alone can only free slots. */
  lemma DemotingIsSafe<R, S>(rows: map<nat, R>, id: nat, taken: S, slot: R -> Option<S>, demoted: R -> R)
    requires AtMostOne(rows, slot)
    requires forall r :: slot(demoted(r)) == None
    ensures AtMostOne(DemoteOthers(rows, id, taken, slot, demoted), slot)
  {
  }

  /** A partial save writes only the named columns, so the stored row may claim another slot than the
      instance in memory whose slot was cleared. It is safe exactly when the stored row claims no slot,
      the cleared one, or one that no other row holds. */
  lemma PartialSaveSafeIff<R, S>(rows: map<nat, R>, id: nat, inst: R, written: R, slot: R -> Option<S>, demoted: R -> R)
    requires AtMostOne(rows, slot)
    requires forall r :: slot(demoted(r)) == None
    ensures AtMostOne(Saved(rows, id, inst, written, slot, demoted), slot) <==>
            || slot(written).None?
            || slot(written) == slot(inst)
            || !exists k | k in rows && k != id :: slot(rows[k]) == slot(written)
  {
    var after := Saved(rows, id, inst, written, slot, demoted);
    if slot(written).Some? && slot(written) != slot(inst) {
      if k :| k in rows && k != id && slot(rows[k]) == slot(written) {
        assert k in after && after[k] == rows[k] && after[id] == written;
      }
    }
  }

  /** Whether accepted or refused, a save whose stored row claims what was cleared, or nothing, is safe. */
  lemma SaveKeepsOne<R, S, K, C>(rows: map<nat, R>, id: nat, inst: R, written: R, columns: Option<set<C>>,
      slot: R -> Option<S>, demoted: R -> R, key: R -> K, atomic: bool)
    requires AtMostOne(rows, slot) && slot(written) in {None, slot(inst)}
    requires forall r :: slot(demoted(r)) == None
    ensures AtMostOne(Save(rows, id, inst, written, columns, slot, demoted, key, atomic).rows, slot)
  {
    PartialSaveSafeIff(rows, id, inst, written, slot, demoted);
    if slot(inst).Some? {
      DemotingIsSafe(rows, id, slot(inst).value, slot, demoted);
    }
  }

  /** A refused save is not without effect: outside a transaction it changes the table exactly when
      another row held the slot, and then nobody holds it any more. */
  lemma RefusedSaveStrandsIff<R, S, K, C>(rows: map<nat, R>, id: nat, inst: R, written: R, columns: Option<set<C>>,
      slot: R -> Option<S>, demoted: R -> R, key: R -> K, atomic: bool)
    requires AtMostOne(rows, slot)
    requires forall r :: slot(demoted(r)) == None
    requires Save(rows, id, inst, written, columns, slot, demoted, key, atomic).Refused?
    ensures var after := Save(rows, id, inst, written, columns, slot, demoted, key, atomic).rows;
            && (after != rows <==> !atomic && slot(inst).Some? && exists k | k in rows && k != id :: slot(rows[k]) == slot(inst))
            && (after != rows ==> forall k | k in after :: slot(after[k]) != slot(inst))
  {
    hide Clash;
    var after := Save(rows, id, inst, written, columns, slot, demoted, key, atomic).rows;
    if !atomic && slot(inst).Some? {
      if k :| k in rows && k != id && slot(rows[k]) == slot(inst) {
        assert slot(after[k]) == None;
      } else {
        assert after == rows;
      }
    }
  }

  // ----- savers that race

  /** A full save in progress: its demotion and its write are two statements. */
  datatype Phase = Waiting | Cleared | Written

  datatype Saver<R> = Saver(id: nat, row: R, phase: Phase)

  datatype Race<R> = Race(rows: map<nat, R>, savers: seq<Saver<R>>)

  datatype Move = Clear(i: nat) | Put(i: nat)

  predicate CanMove<R>(s: Race<R>, m: Move) {
    m.i < |s.savers| && s.savers[m.i].phase == if m.Clear? then Waiting else Cleared
  }

  function After<R, S(==)>(s: Race<R>, m: Move, slot: R -> Option<S>, demoted: R -> R): Race<R>
    requires CanMove(s, m)
  {
    var x := s.savers[m.i];
    if m.Clear? then Race(Demotion(s.rows, x.id, x.row, slot, demoted), s.savers[m.i := x.(phase := Cleared)])
    else Race(s.rows[x.id := x.row], s.savers[m.i := x.(phase := Written)])
  }

  /** Two saves that claim one place for different rows. */
  predicate Rivals<R, S(==)>(a: Saver<R>, b: Saver<R>, slot: R -> Option<S>) {
    a.id != b.id && slot(a.row).Some? && slot(a.row) == slot(b.row)
  }

  /** A write while no rival has cleared the place and not yet written. */
  predicate Quiet<R, S(==)>(s: Race<R>, m: Move, slot: R -> Option<S>)
    requires CanMove(s, m)
  {
    m.Put? ==> forall j | 0 <= j < |s.savers| && s.savers[j].phase == Cleared :: !Rivals(s.savers[m.i], s.savers[j], slot)
  }

  /** One primary each, and the place that a saver has cleared is still free for it. */
  ghost predicate RaceInv<R, S>(s: Race<R>, slot: R -> Option<S>) {
    && AtMostOne(s.rows, slot)
    && forall i, k | 0 <= i < |s.savers| && s.savers[i].phase == Cleared && k in s.rows && k != s.savers[i].id
         && slot(s.savers[i].row).Some? :: slot(s.rows[k]) != slot(s.savers[i].row)
  }

  /** Exactly which writes leave every cleared place free: those that no rival's save is waiting behind. */
  lemma PutKeepsRaceInvIff<R, S>(s: Race<R>, i: nat, slot: R -> Option<S>, demoted: R -> R)
    requires RaceInv(s, slot) && CanMove(s, Put(i))
    ensures RaceInv(After(s, Put(i), slot, demoted), slot) <==> Quiet(s, Put(i), slot)
  {
    var t := After(s, Put(i), slot, demoted);
    var x := s.savers[i];
    if j :| 0 <= j < |s.savers| && s.savers[j].phase == Cleared && Rivals(x, s.savers[j], slot) {
      assert t.savers[j] == s.savers[j] && x.id in t.rows && t.rows[x.id] == x.row;
    } else {
      forall j, k | 0 <= j < |t.savers| && t.savers[j].phase == Cleared && k in t.rows && k != t.savers[j].id
        && slot(t.savers[j].row).Some? ensures slot(t.rows[k]) != slot(t.savers[j].row) {
        assert !Rivals(x, s.savers[j], slot);
      }
    }
  }

  /** Two saves that have both cleared the place before either writes end with two primaries. */
  lemma RivalsMakeTwoPrimaries<R, S>(s: Race<R>, i: nat, j: nat, slot: R -> Option<S>, demoted: R -> R)
    requires CanMove(s, Put(i)) && CanMove(s, Put(j)) && Rivals(s.savers[i], s.savers[j], slot)
    ensures var t := After(s, Put(i), slot, demoted);
            CanMove(t, Put(j)) && !AtMostOne(After(t, Put(j), slot, demoted).rows, slot)
  {
    var t := After(After(s, Put(i), slot, demoted), Put(j), slot, demoted);
    var a, b := s.savers[i], s.savers[j];
    assert t.rows[a.id] == a.row && t.rows[b.id] == b.row;
  }

  /** Any number of saves whose moves interleave. */
  predicate QuietRun<R, S(==)>(s: Race<R>, moves: seq<Move>, slot: R -> Option<S>, demoted: R -> R)
    decreases |moves|
  {
    moves == [] ||
    (CanMove(s, moves[0]) && Quiet(s, moves[0], slot) && QuietRun(After(s, moves[0], slot, demoted), moves[1..], slot, demoted))
  }

  function RaceRun<R, S(==)>(s: Race<R>, moves: seq<Move>, slot: R -> Option<S>, demoted: R -> R): Race<R>
    requires QuietRun(s, moves, slot, demoted)
    decreases |moves|
  {
    if moves == [] then s else RaceRun(After(s, moves[0], slot, demoted), moves[1..], slot, demoted)
  }

  /** As long as no write falls between a rival's demotion and its write, there is one primary each. */
  lemma {:induction false} QuietRunKeepsOne<R, S>(s: Race<R>, moves: seq<Move>, slot: R -> Option<S>, demoted: R -> R)
    requires RaceInv(s, slot) && QuietRun(s, moves, slot, demoted) && forall r :: slot(demoted(r)) == None
    ensures RaceInv(RaceRun(s, moves, slot, demoted), slot)
    decreases |moves|
  {
    if moves != [] {
      if moves[0].Put? {
        PutKeepsRaceInvIff(s, moves[0].i, slot, demoted);
      }
      QuietRunKeepsOne(After(s, moves[0], slot, demoted), moves[1..], slot, demoted);
    }
  }

  /** A saver whose two statements nobody comes between leaves what an accepted full save leaves. */
  lemma UnracedSaverSaves<R, S, K, C>(s: Race<R>, i: nat, slot: R -> Option<S>, demoted: R -> R, key: R -> K,
      columns: Option<set<C>>, atomic: bool)
    requires i < |s.savers| && s.savers[i].phase == Waiting && columns.None?
    ensures var x := s.savers[i];
            var cleared := After(s, Clear(i), slot, demoted);
            && CanMove(s, Clear(i)) && CanMove(cleared, Put(i))
            && !CanMove(s, Put(i)) && !CanMove(cleared, Clear(i))
            && var t := After(cleared, Put(i), slot, demoted);
            && t.savers == s.savers[i := Saver(x.id, x.row, Written)]
            && !CanMove(t, Put(i)) && !CanMove(t, Clear(i))
            && (Save(s.rows, x.id, x.row, x.row, columns, slot, demoted, key, atomic).Stored? ==>
                  Save(s.rows, x.id, x.row, x.row, columns, slot, demoted, key, atomic).rows == t.rows)
            && (QuietRun(s, [Clear(i), Put(i)], slot, demoted) ==> RaceRun(s, [Clear(i), Put(i)], slot, demoted) == t)
  {
    hide Clash;
    var moves := [Clear(i), Put(i)];
    assert moves[1..] == [Put(i)] && [Put(i)][1..] == [];
    if QuietRun(s, moves, slot, demoted) {
      var cleared := After(s, Clear(i), slot, demoted);
      assert RaceRun(s, moves, slot, demoted) == RaceRun(cleared, [Put(i)], slot, demoted);
      assert RaceRun(cleared, [Put(i)], slot, demoted) == RaceRun(After(cleared, Put(i), slot, demoted), [], slot, demoted);
    }
  }

  // ----- CompanyPersonLink

  datatype Link = Link(company: nat, person: nat, isPrimary: bool, isActive: bool)

  datatype Column = CompanyColumn | PersonColumn | PrimaryColumn | ActiveColumn | NameColumn | OtherColumn

  function LinkSlot(l: Link): Option<nat> {
    if l.isPrimary && l.isActive then Some(l.company) else None
  }

  function LinkDemoted(l: Link): Link {
    l.(isPrimary := false)
  }

  /** unique_company_person_link */
  function LinkKey(l: Link): (nat, nat) {
    (l.company, l.person)
  }

  /** The row that save(update_fields=columns) stores. */
  function LinkWritten(links: map<nat, Link>, id: nat, inst: Link, columns: Option<set<Column>>): Link {
    if columns.None? || id !in links then inst
    else
      var row, c := links[id], columns.value;
      Link(if CompanyColumn in c then inst.company else row.company,
           if PersonColumn in c then inst.person else row.person,
           if PrimaryColumn in c then inst.isPrimary else row.isPrimary,
           if ActiveColumn in c then inst.isActive else row.isActive)
  }

  function SaveLink(links: map<nat, Link>, id: nat, inst: Link, columns: Option<set<Column>>, atomic: bool): Outcome<Link> {
    Save(links, id, inst, LinkWritten(links, id, inst, columns), columns, LinkSlot, LinkDemoted, LinkKey, atomic)
  }

  // ----- SupplierPickupAddress

  datatype Address = Address(company: nat, name: string, isPrimary: bool)

  function AddressSlot(a: Address): Option<nat> {
    if a.isPrimary then Some(a.company) else None
  }

  function AddressDemoted(a: Address): Address {
    a.(isPrimary := false)
  }

  /** unique_supplier_pickup_address_name */
  function AddressKey(a: Address): (nat, string) {
    (a.company, a.name)
  }

  function AddressWritten(addresses: map<nat, Address>, id: nat, inst: Address, columns: Option<set<Column>>): Address {
    if columns.None? || id !in addresses then inst
    else
      var row, c := addresses[id], columns.value;
      Address(if CompanyColumn in c then inst.company else row.company,
              if NameColumn in c then inst.name else row.name,
              if PrimaryColumn in c then inst.isPrimary else row.isPrimary)
  }

  function SaveAddress(addresses: map<nat, Address>, id: nat, inst: Address, columns: Option<set<Column>>, atomic: bool): Outcome<Address> {
    Save(addresses, id, inst, AddressWritten(addresses, id, inst, columns), columns, AddressSlot, AddressDemoted, AddressKey, atomic)
  }

  // ----- any run of saves and deletions

  datatype Step =
    | PutLink(id: nat, link: Link, columns: Option<set<Column>>, atomic: bool)
    | DropLink(id: nat)
    | PutAddress(id: nat, address: Address, columns: Option<set<Column>>, atomic: bool)
    | DropAddress(id: nat)

  datatype State = State(links: map<nat, Link>, addresses: map<nat, Address>)

  function Next(s: State, a: Step): State {
    match a
    case PutLink(id, l, c, t) => s.(links := SaveLink(s.links, id, l, c, t).rows)
    case DropLink(id) => s.(links := s.links - {id})
    case PutAddress(id, x, c, t) => s.(addresses := SaveAddress(s.addresses, id, x, c, t).rows)
    case DropAddress(id) => s.(addresses := s.addresses - {id})
  }

  /** The stored row claims the slot the instance claims, or none: true of every full save, and of a
      partial save from an instance that is not stale in the columns it leaves out. */
  predicate ClaimsWhatItCleared(s: State, a: Step) {
    && (a.PutLink? ==> LinkSlot(LinkWritten(s.links, a.id, a.link, a.columns)) in {None, LinkSlot(a.link)})
    && (a.PutAddress? ==>
          AddressSlot(AddressWritten(s.addresses, a.id, a.address, a.columns)) in {None, AddressSlot(a.address)})
  }

  function Run(s: State, steps: seq<Step>): State {
    if steps == [] then s else Next(Run(s, steps[..|steps| - 1]), steps[|steps| - 1])
  }

  /** A run is its saves one after the other ... */
  lemma {:induction false} RunOn(s: State, first: seq<Step>, second: seq<Step>)
    ensures Run(s, first + second) == Run(Run(s, first), second)
  {
    hide Next;
    if second == [] {
      assert first + second == first;
    } else {
      var n := |second| - 1;
      RunOn(s, first, second[..n]);
      assert (first + second)[..|first| + n] == first + second[..n];
    }
  }

  /** ... and a run of one is that save, or that deletion. */
  lemma RunOfOne(s: State, a: Step)
    ensures a.PutLink? ==> Run(s, [a]) == State(SaveLink(s.links, a.id, a.link, a.columns, a.atomic).rows, s.addresses)
    ensures a.DropLink? ==> Run(s, [a]) == State(s.links - {a.id}, s.addresses)
    ensures a.PutAddress? ==> Run(s, [a]) == State(s.links, SaveAddress(s.addresses, a.id, a.address, a.columns, a.atomic).rows)
    ensures a.DropAddress? ==> Run(s, [a]) == State(s.links, s.addresses - {a.id})
  {
    hide SaveLink, SaveAddress;
    assert [a][..0] == [];
  }

  predicate AllClaimsCleared(s: State, steps: seq<Step>) {
    steps == [] ||
    (AllClaimsCleared(s, steps[..|steps| - 1]) && ClaimsWhatItCleared(Run(s, steps[..|steps| - 1]), steps[|steps| - 1]))
  }

  ghost predicate OnePrimaryEach(s: State) {
    AtMostOne(s.links, LinkSlot) && AtMostOne(s.addresses, AddressSlot)
  }

  lemma StepKeepsOnePrimary(s: State, a: Step)
    requires OnePrimaryEach(s) && ClaimsWhatItCleared(s, a)
    ensures OnePrimaryEach(Next(s, a))
  {
    hide Save;
    match a
    case PutLink(id, l, c, t) =>
      SaveKeepsOne(s.links, id, l, LinkWritten(s.links, id, l, c), c, LinkSlot, LinkDemoted, LinkKey, t);
    case PutAddress(id, x, c, t) =>
      SaveKeepsOne(s.addresses, id, x, AddressWritten(s.addresses, id, x, c), c, AddressSlot, AddressDemoted, AddressKey, t);
    case _ =>
  }

  /** Over any run of such saves, accepted or refused, and deletions, each company has at most one active
      primary person and at most one primary pickup address. */
  lemma {:induction false} RunKeepsOnePrimary(s: State, steps: seq<Step>)
    requires OnePrimaryEach(s) && AllClaimsCleared(s, steps)
    ensures OnePrimaryEach(Run(s, steps))
  {
    if steps != [] {
      RunKeepsOnePrimary(s, steps[..|steps| - 1]);
      StepKeepsOnePrimary(Run(s, steps[..|steps| - 1]), steps[|steps| - 1]);
    }
  }

  /** A stale instance shows why the condition is needed: company 1 ends with two active primaries. */
  lemma StaleMoveMakesTwoPrimaries()
    ensures var links := map[10 := Link(1, 5, true, true), 11 := Link(2, 6, true, true)];
            var stale := Link(1, 6, false, true); // memory says "not primary"; the row says it is
            AtMostOne(links, LinkSlot) && !AtMostOne(SaveLink(links, 11, stale, Some({CompanyColumn}), false).rows, LinkSlot)
  {
    var links := map[10 := Link(1, 5, true, true), 11 := Link(2, 6, true, true)];
    var after := SaveLink(links, 11, Link(1, 6, false, true), Some({CompanyColumn}), false).rows;
    assert after[10] == Link(1, 5, true, true) && after[11] == Link(1, 6, true, true);
  }

  /** An accepted save changes nothing in the other rows but the flag of the displaced primary. */
  lemma SaveTouchesOnlyTheDisplaced(links: map<nat, Link>, id: nat, inst: Link, columns: Option<set<Column>>, atomic: bool, other: nat)
    requires other in links && other != id && SaveLink(links, id, inst, columns, atomic).Stored?
    ensures var after := SaveLink(links, id, inst, columns, atomic).rows;
            && other in after
            && after[other] == (if LinkSlot(inst).Some? && LinkSlot(links[other]) == LinkSlot(inst)
                                then links[other].(isPrimary := false) else links[other])
            && (id in links || columns.None? ==> id in after && after[id] == LinkWritten(links, id, inst, columns))
  {
    hide Clash;
  }

  // ----- which saves are accepted, and what they store

  predicate Named(columns: Option<set<Column>>, c: Column) {
    columns.None? || c in columns.value
  }

  /** An accepted save leaves the named columns of the instance in its row, and the others as they were; of
      the other rows only the company's active primary changes, and only its flag. */
  lemma LinkSaveStores(links: map<nat, Link>, id: nat, inst: Link, columns: Option<set<Column>>, atomic: bool)
    requires SaveLink(links, id, inst, columns, atomic).Stored? && columns != Some({})
    ensures var after := SaveLink(links, id, inst, columns, atomic).rows;
            && after.Keys == links.Keys + {id}
            && after[id].company == (if Named(columns, CompanyColumn) then inst.company else links[id].company)
            && after[id].person == (if Named(columns, PersonColumn) then inst.person else links[id].person)
            && after[id].isPrimary == (if Named(columns, PrimaryColumn) then inst.isPrimary else links[id].isPrimary)
            && after[id].isActive == (if Named(columns, ActiveColumn) then inst.isActive else links[id].isActive)
            && forall k | k in links && k != id ::
                 if inst.isPrimary && inst.isActive && links[k].isPrimary && links[k].isActive && links[k].company == inst.company
                 then after[k] == links[k].(isPrimary := false) else after[k] == links[k]
  {
    hide Clash;
  }

  /** So a full save of an active primary link makes it its company's one active primary. */
  lemma SavedLinkIsThePrimary(links: map<nat, Link>, id: nat, inst: Link, atomic: bool)
    requires SaveLink(links, id, inst, None, atomic).Stored? && inst.isPrimary && inst.isActive
    ensures var after := SaveLink(links, id, inst, None, atomic).rows;
            && id in after && after[id] == inst
            && forall k | k in after && after[k].company == inst.company && after[k].isPrimary && after[k].isActive :: k == id
  {
    LinkSaveStores(links, id, inst, None, atomic);
    hide SaveLink;
  }

  /** A save is refused exactly when it is partial and its row is gone, or another row links the stored
      company and person; an empty list of columns is never refused. */
  lemma LinkSaveRefusedIff(links: map<nat, Link>, id: nat, inst: Link, columns: Option<set<Column>>, atomic: bool)
    ensures SaveLink(links, id, inst, columns, atomic).Refused? <==>
            && columns != Some({})
            && (|| (columns.Some? && id !in links)
                || exists k | k in links :: k != id
                     && links[k].company == (if Named(columns, CompanyColumn) || id !in links then inst.company else links[id].company)
                     && links[k].person == (if Named(columns, PersonColumn) || id !in links then inst.person else links[id].person))
    ensures SaveLink(links, id, inst, columns, true).Refused? ==> SaveLink(links, id, inst, columns, true).rows == links
    ensures columns == Some({}) && id in links ==> SaveLink(links, id, inst, columns, atomic).rows[id] == links[id]
  {
    var cleared := Demotion(links, id, inst, LinkSlot, LinkDemoted);
    forall k | k in links ensures k in cleared && LinkKey(cleared[k]) == LinkKey(links[k]) {
    }
  }

  lemma AddressSaveStores(addresses: map<nat, Address>, id: nat, inst: Address, columns: Option<set<Column>>, atomic: bool)
    requires SaveAddress(addresses, id, inst, columns, atomic).Stored? && columns != Some({})
    ensures var after := SaveAddress(addresses, id, inst, columns, atomic).rows;
            && after.Keys == addresses.Keys + {id}
            && after[id].company == (if Named(columns, CompanyColumn) then inst.company else addresses[id].company)
            && after[id].name == (if Named(columns, NameColumn) then inst.name else addresses[id].name)
            && after[id].isPrimary == (if Named(columns, PrimaryColumn) then inst.isPrimary else addresses[id].isPrimary)
            && forall k | k in addresses && k != id ::
                 if inst.isPrimary && addresses[k].isPrimary && addresses[k].company == inst.company
                 then after[k] == addresses[k].(isPrimary := false) else after[k] == addresses[k]
  {
    hide Clash;
  }

  lemma SavedAddressIsThePrimary(addresses: map<nat, Address>, id: nat, inst: Address, atomic: bool)
    requires SaveAddress(addresses, id, inst, None, atomic).Stored? && inst.isPrimary
    ensures var after := SaveAddress(addresses, id, inst, None, atomic).rows;
            && id in after && after[id] == inst
            && forall k | k in after && after[k].company == inst.company && after[k].isPrimary :: k == id
  {
    AddressSaveStores(addresses, id, inst, None, atomic);
    hide SaveAddress;
  }

  lemma AddressSaveRefusedIff(addresses: map<nat, Address>, id: nat, inst: Address, columns: Option<set<Column>>, atomic: bool)
    ensures SaveAddress(addresses, id, inst, columns, atomic).Refused? <==>
            && columns != Some({})
            && (|| (columns.Some? && id !in addresses)
                || exists k | k in addresses :: k != id
                     && addresses[k].company ==
                        (if Named(columns, CompanyColumn) || id !in addresses then inst.company else addresses[id].company)
                     && addresses[k].name == (if Named(columns, NameColumn) || id !in addresses then inst.name else addresses[id].name))
    ensures SaveAddress(addresses, id, inst, columns, true).Refused? ==> SaveAddress(addresses, id, inst, columns, true).rows == addresses
    ensures columns == Some({}) && id in addresses ==> SaveAddress(addresses, id, inst, columns, atomic).rows[id] == addresses[id]
  {
    var cleared := Demotion(addresses, id, inst, AddressSlot, AddressDemoted);
    forall k | k in addresses ensures k in cleared && AddressKey(cleared[k]) == AddressKey(addresses[k]) {
    }
  }

  // ----- the code on the tables it updates

  class CompanyTables {
    var links: map<nat, Link>
    var addresses: map<nat, Address>

    constructor ()
      ensures links == map[] && addresses == map[]
    {
      links, addresses := map[], map[];
    }

    /** CompanyPersonLink.save. */
    method SaveCompanyPersonLink(id: nat, inst: Link, columns: Option<set<Column>>, atomic: bool) returns (ok: bool)
      modifies this`links
      ensures links == SaveLink(old(links), id, inst, columns, atomic).rows
      ensures ok == SaveLink(old(links), id, inst, columns, atomic).Stored?
    {
      var row := LinkWritten(links, id, inst, columns);
      var before := links;
      if inst.isPrimary && inst.isActive {
        links := map k | k in links ::
          if k != id && links[k].company == inst.company && links[k].isPrimary && links[k].isActive
          then links[k].(isPrimary := false) else links[k];
      }
      assert links == Demotion(before, id, inst, LinkSlot, LinkDemoted);
      if columns.Some? && columns.value == {} {
        return true;
      }
      ok := !((columns.Some? && id !in links) || Clash(links, id, row, LinkKey));
      if ok {
        links := links[id := row];
      } else if atomic {
        links := before; // the caller's transaction rolls back
      }
    }

    /** SupplierPickupAddress.save. */
    method SaveSupplierPickupAddress(id: nat, inst: Address, columns: Option<set<Column>>, atomic: bool) returns (ok: bool)
      modifies this`addresses
      ensures addresses == SaveAddress(old(addresses), id, inst, columns, atomic).rows
      ensures ok == SaveAddress(old(addresses), id, inst, columns, atomic).Stored?
    {
      var row := AddressWritten(addresses, id, inst, columns);
      var before := addresses;
      if inst.isPrimary {
        addresses := map k | k in addresses ::
          if k != id && addresses[k].company == inst.company && addresses[k].isPrimary
          then addresses[k].(isPrimary := false) else addresses[k];
      }
      assert addresses == Demotion(before, id, inst, AddressSlot, AddressDemoted);
      if columns.Some? && columns.value == {} {
        return true;
      }
      ok := !((columns.Some? && id !in addresses) || Clash(addresses, id, row, AddressKey));
      if ok {
        addresses := addresses[id := row];
      } else if atomic {
        addresses := before; // the caller's transaction rolls back
      }
    }
  }
}
