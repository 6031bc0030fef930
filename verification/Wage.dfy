/** apps/core/models.py:142-159 and 835-919, apps/accounts/models.py:315-357: the staff wage rate, a
    column derived from the base rate and the company's labour-cost loading, and its two writers.

    Money is in whole cents and a loading in hundredths of a percent, the columns' two decimals. */
module Wage {
  import opened Wrappers

  function Abs(n: int): nat {
    if n < 0 then -n else n
  }

  /** n / 10000 rounded to a whole number, halves away from zero (ROUND_HALF_UP). */
  function RoundHalfUp(n: int): int {
    var q: int := (2 * Abs(n) + 10_000) / 20_000;
    if n < 0 then -q else q
  }

  /** base * (1 + loading/100), in cents. */
  function LoadedWageRate(base: int, loading: int): int {
    if base == 0 then 0 else RoundHalfUp(base * (10_000 + loading))
  }

  /** The rounding meant: within half a cent of the exact amount, and on the far side of zero at a tie. */
  predicate NearestHalfAway(n: int, w: int) {
    if n >= 0 then 2 * n - 10_000 < 20_000 * w <= 2 * n + 10_000
    else 2 * n - 10_000 <= 20_000 * w < 2 * n + 10_000
  }

  lemma RoundHalfUpIsNearest(n: int, w: int)
    ensures w == RoundHalfUp(n) <==> NearestHalfAway(n, w)
  {
  }

  /** The loaded rate is the one whole-cent amount nearest to the exact product, halves away from zero. */
  lemma LoadedIsNearestCent(base: int, loading: int, w: int)
    ensures w == LoadedWageRate(base, loading) <==> NearestHalfAway(base * (10_000 + loading), w)
  {
    RoundHalfUpIsNearest(base * (10_000 + loading), w);
  }

  /** In figures: no more than half a cent away, up at a positive half and down at a negative one. */
  lemma RateIsWithinHalfACent(base: int, loading: int)
    ensures var exact, w := base * (10_000 + loading), 10_000 * LoadedWageRate(base, loading);
            && w - 5_000 <= exact <= w + 5_000
            && (exact == w + 5_000 ==> exact < 0)
            && (exact == w - 5_000 ==> exact > 0)
  {
    LoadedIsNearestCent(base, loading, LoadedWageRate(base, loading));
    hide RoundHalfUp;
  }

  // ----- the tables

  datatype Staff = Staff(base: int, wage: int)

  datatype State = State(loading: int, staff: map<nat, Staff>)

  datatype DefaultsColumn = LoadingColumn | OtherDefaults

  datatype StaffColumn = BaseColumn | WageColumn | OtherColumn

  predicate Names<C>(columns: Option<set<C>>, c: C) {
    columns.None? || c in columns.value
  }

  /** Every staff row with a base rate carries the wage its base and the stored loading give. */
  ghost predicate Consistent(s: State) {
    forall id | id in s.staff && s.staff[id].base >= 0 :: s.staff[id].wage == LoadedWageRate(s.staff[id].base, s.loading)
  }

  // ----- Staff.save

  /** The instance after _compute_wage_rate, which reads the loading through get_solo. */
  function Computed(inst: Staff, columns: Option<set<StaffColumn>>, solo: int): Staff {
    if Names(columns, BaseColumn) then inst.(wage := if inst.base == 0 then 0 else LoadedWageRate(inst.base, solo))
    else inst
  }

  /** save(): a new row is written whole, an existing one in the named columns. */
  function SaveStaff(s: State, id: nat, inst: Staff, columns: Option<set<StaffColumn>>, solo: int): State {
    var row := Computed(inst, columns, solo);
    if id !in s.staff then (if columns.None? then s.(staff := s.staff[id := row]) else s)
    else s.(staff := s.staff[id := Staff(
      if Names(columns, BaseColumn) then row.base else s.staff[id].base,
      if Names(columns, WageColumn) then row.wage else s.staff[id].wage)])
  }

  // ----- CompanyDefaults.save

  function Recomputed(staff: map<nat, Staff>, loading: int): map<nat, Staff> {
    map id | id in staff ::
      if staff[id].base > 0 then staff[id].(wage := LoadedWageRate(staff[id].base, loading)) else staff[id]
  }

  /** save(): `loading` is the instance's own value, however stale. */
  function SaveDefaults(s: State, loading: int, columns: Option<set<DefaultsColumn>>): State {
    if !Names(columns, LoadingColumn) then s
    else if loading == s.loading then s
    else State(loading, Recomputed(s.staff, loading))
  }

  // ----- what each save leaves

  /** Saving the defaults keeps every row and its base rate, and the wage of a row without a positive
      base; a changed loading, written, reprices every other row, and a written one is the one stored. */
  lemma SaveDefaultsRepricesIffChanged(s: State, loading: int, columns: Option<set<DefaultsColumn>>)
    ensures var t := SaveDefaults(s, loading, columns);
            var written := columns.None? || LoadingColumn in columns.value;
            && t.loading == (if written then loading else s.loading)
            && t.staff.Keys == s.staff.Keys
            && (forall id | id in s.staff ::
                  && t.staff[id].base == s.staff[id].base
                  && t.staff[id].wage == if written && loading != s.loading && s.staff[id].base > 0
                                         then LoadedWageRate(s.staff[id].base, loading)
                                         else s.staff[id].wage)
  {
    hide LoadedWageRate;
  }

  /** Saving a staff row stores exactly the named columns, the wage computed when the base rate is among
      them, and touches no other row and no loading; a row that is not there yet is only written whole. */
  lemma SaveStaffStores(s: State, id: nat, inst: Staff, columns: Option<set<StaffColumn>>, solo: int)
    ensures var t := SaveStaff(s, id, inst, columns, solo);
            && t.loading == s.loading
            && t.staff.Keys == s.staff.Keys + (if columns.None? then {id} else {})
            && (forall k | k in s.staff && k != id :: t.staff[k] == s.staff[k])
            && (columns.None? ==> t.staff[id] == Staff(inst.base, LoadedWageRate(inst.base, solo)))
            && (columns.Some? && id in s.staff ==>
                  && t.staff[id].base == (if BaseColumn in columns.value then inst.base else s.staff[id].base)
                  && t.staff[id].wage == if WageColumn !in columns.value then s.staff[id].wage
                                         else if BaseColumn in columns.value then LoadedWageRate(inst.base, solo)
                                         else inst.wage)
  {
    hide RoundHalfUp;
  }

  // ----- the derived column stays in step

  /** Saving the defaults keeps every wage right, from a stale instance too; and a save that leaves the
      loading out changes no wage and no loading. */
  lemma SaveDefaultsKeepsConsistent(s: State, loading: int, columns: Option<set<DefaultsColumn>>)
    requires Consistent(s)
    ensures Consistent(SaveDefaults(s, loading, columns))
    ensures !Names(columns, LoadingColumn) ==> SaveDefaults(s, loading, columns) == s
    ensures Names(columns, LoadingColumn) ==> SaveDefaults(s, loading, columns).loading == loading
  {
    hide RoundHalfUp;
  }

  /** Exactly when saving an existing row keeps the wages right. With the base rate named, the wage
      column must be named too, or already hold what the new base gives; and the loading read must round
      like the stored one. With the wage column named alone, its value must be the stored one. */
  lemma SaveStaffKeepsConsistentIff(s: State, id: nat, inst: Staff, columns: Option<set<StaffColumn>>, solo: int)
    requires Consistent(s) && id in s.staff
    ensures Consistent(SaveStaff(s, id, inst, columns, solo)) <==>
            (if Names(columns, BaseColumn) then inst.base else s.staff[id].base) < 0 ||
            if Names(columns, BaseColumn) then
              (if Names(columns, WageColumn)
               then LoadedWageRate(inst.base, solo) == LoadedWageRate(inst.base, s.loading)
               else LoadedWageRate(inst.base, s.loading) == s.staff[id].wage)
            else (Names(columns, WageColumn) ==> inst.wage == s.staff[id].wage)
  {
    hide RoundHalfUp;
    var t := SaveStaff(s, id, inst, columns, solo);
    assert Consistent(t) <==> t.staff[id].base < 0 || t.staff[id].wage == LoadedWageRate(t.staff[id].base, t.loading) by {
      if t.staff[id].base < 0 || t.staff[id].wage == LoadedWageRate(t.staff[id].base, t.loading) {
        forall k | k in t.staff && t.staff[k].base >= 0 ensures t.staff[k].wage == LoadedWageRate(t.staff[k].base, t.loading) {
          if k != id { assert t.staff[k] == s.staff[k]; }
        }
      }
    }
  }

  datatype Step =
    | PutDefaults(loading: int, defaultsColumns: Option<set<DefaultsColumn>>)
    | PutStaff(id: nat, inst: Staff, staffColumns: Option<set<StaffColumn>>, solo: int)
    | DropStaff(id: nat)

  function Next(s: State, a: Step): State {
    match a
    case PutDefaults(l, c) => SaveDefaults(s, l, c)
    case PutStaff(id, x, c, solo) => SaveStaff(s, id, x, c, solo)
    case DropStaff(id) => s.(staff := s.staff - {id})
  }

  /** get_solo gave the stored loading, and a partial save names both rate columns or neither. */
  predicate Disciplined(s: State, a: Step) {
    a.PutStaff? ==> a.solo == s.loading && (Names(a.staffColumns, BaseColumn) <==> Names(a.staffColumns, WageColumn))
  }

  function Run(s: State, steps: seq<Step>): State {
    if steps == [] then s else Next(Run(s, steps[..|steps| - 1]), steps[|steps| - 1])
  }

  /** A run is its saves one after the other ... */
  lemma {:induction false} RunOn(s: State, first: seq<Step>, second: seq<Step>)
    ensures Run(s, first + second) == Run(Run(s, first), second)
  {
    hide Next;
    if second == [] {
      assert first + second == first;
    } else {
      var n := |second| - 1;
      RunOn(s, first, second[..n]);
      assert (first + second)[..|first| + n] == first + second[..n];
    }
  }

  /** ... and a run of one is that save, or that deletion. */
  lemma RunOfOne(s: State, a: Step)
    ensures a.PutDefaults? ==> Run(s, [a]) == SaveDefaults(s, a.loading, a.defaultsColumns)
    ensures a.PutStaff? ==> Run(s, [a]) == SaveStaff(s, a.id, a.inst, a.staffColumns, a.solo)
    ensures a.DropStaff? ==> Run(s, [a]) == State(s.loading, s.staff - {a.id})
  {
    hide SaveDefaults, SaveStaff;
    assert [a][..0] == [];
  }

  predicate AllDisciplined(s: State, steps: seq<Step>) {
    steps == [] ||
    (AllDisciplined(s, steps[..|steps| - 1]) && Disciplined(Run(s, steps[..|steps| - 1]), steps[|steps| - 1]))
  }

  lemma StepKeepsConsistent(s: State, a: Step)
    requires Consistent(s) && Disciplined(s, a)
    ensures Consistent(Next(s, a))
  {
    hide RoundHalfUp;
    match a
    case PutDefaults(l, c) => SaveDefaultsKeepsConsistent(s, l, c);
    case PutStaff(id, x, c, solo) =>
      forall k | k in Next(s, a).staff && Next(s, a).staff[k].base >= 0
        ensures Next(s, a).staff[k].wage == LoadedWageRate(Next(s, a).staff[k].base, s.loading) {
        if k in s.staff { assert k != id ==> Next(s, a).staff[k] == s.staff[k]; }
      }
    case DropStaff(id) =>
  }

  /** Over any sequence of saves of either kind, stale defaults and partial saves included, every wage
      stays the loaded rate of its base at the stored loading. */
  lemma {:induction false} RunKeepsConsistent(s: State, steps: seq<Step>)
    requires Consistent(s) && AllDisciplined(s, steps)
    ensures Consistent(Run(s, steps))
  {
    if steps != [] {
      RunKeepsConsistent(s, steps[..|steps| - 1]);
      StepKeepsConsistent(Run(s, steps[..|steps| - 1]), steps[|steps| - 1]);
    }
  }

  // ----- the code on the rows it updates

  class Payroll {
    var loading: int
    var staff: map<nat, Staff>

    ghost function View(): State
      reads this
    {
      State(loading, staff)
    }

    constructor (loading: int)
      ensures View() == State(loading, map[]) && Consistent(View())
    {
      this.loading, staff := loading, map[];
    }

    /** Staff.save. */
    method SaveStaffRow(id: nat, given: Staff, columns: Option<set<StaffColumn>>, solo: int)
      modifies this`staff
      ensures View() == SaveStaff(old(View()), id, given, columns, solo)
      ensures columns.None? ==> staff == old(staff)[id := Staff(given.base, LoadedWageRate(given.base, solo))]
      ensures columns.Some? && BaseColumn !in columns.value && WageColumn !in columns.value ==> staff == old(staff)
    {
      hide RoundHalfUp;
      var inst := given;
      if Names(columns, BaseColumn) {
        inst := inst.(wage := if inst.base == 0 then 0 else LoadedWageRate(inst.base, solo));
      }
      if id !in staff {
        if columns.None? {
          staff := staff[id := inst];
        }
      } else {
        var row := staff[id];
        if Names(columns, BaseColumn) { row := row.(base := inst.base); }
        if Names(columns, WageColumn) { row := row.(wage := inst.wage); }
        staff := staff[id := row];
      }
    }

    /** _recompute_all_staff_wage_rates: each row with a positive base, in whatever order they come. */
    method RecomputeAllStaffWageRates(loading: int)
      modifies this`staff
      ensures staff == Recomputed(old(staff), loading)
      ensures staff.Keys == old(staff).Keys
      ensures forall id | id in staff :: staff[id].base == old(staff)[id].base
      ensures forall id | id in staff ::
                staff[id].wage == if staff[id].base > 0 then LoadedWageRate(staff[id].base, loading) else old(staff)[id].wage
    {
      hide RoundHalfUp;
      var todo := set id | id in staff && staff[id].base > 0;
      while todo != {}
        invariant staff.Keys == old(staff).Keys
        invariant forall id | id in todo :: id in staff && staff[id] == old(staff)[id] && staff[id].base > 0
        invariant forall id | id in staff && id !in todo :: staff[id] == Recomputed(old(staff), loading)[id]
        decreases todo
      {
        var id :| id in todo;
        var row := staff[id].(wage := LoadedWageRate(staff[id].base, loading));
        SaveStaffRow(id, row, Some({WageColumn, OtherColumn}), loading);
        todo := todo - {id};
      }
    }

    /** CompanyDefaults.save. */
    method SaveCompanyDefaults(instLoading: int, columns: Option<set<DefaultsColumn>>)
      modifies this
      ensures View() == SaveDefaults(old(View()), instLoading, columns)
      ensures loading == if columns.None? || LoadingColumn in columns.value then instLoading else old(loading)
      ensures staff.Keys == old(staff).Keys
    {
      var writesLoading := Names(columns, LoadingColumn);
      var loadingChanged := writesLoading && loading != instLoading;
      if writesLoading {
        loading := instLoading;
      }
      if loadingChanged {
        RecomputeAllStaffWageRates(instLoading);
      }
    }
  }
}
