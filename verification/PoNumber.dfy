/** apps/purchasing/models.py:140-180 and apps/purchasing/services/purchase_order_service.py:253-264:
    purchase-order numbers, a configured prefix followed by the next number, zero-padded to four digits.

    The prefix holds no regular-expression metacharacter, and `\d` is an ASCII digit. */
module PoNumber {
  import opened Text
  import opened Wrappers

  /** The largest value the query's cast to IntegerField can hold. */
  const INTEGER_MAX: nat := 2_147_483_647

  datatype Error = IntegerOutOfRange | DuplicateNumber

  function Max(a: int, b: int): int {
    if a < b then b else a
  }

  /** `^<prefix>\d+$` */
  predicate Matches(prefix: string, number: string) {
    |prefix| < |number| && prefix <= number && AllDigits(number[|prefix|..])
  }

  /** The numeric part: what Substr leaves after the prefix. */
  function NumberOf(prefix: string, number: string): nat
    requires Matches(prefix, number)
  {
    Value(number[|prefix|..])
  }

  predicate Castable(rows: seq<string>, prefix: string) {
    forall i | 0 <= i < |rows| && Matches(prefix, rows[i]) :: NumberOf(prefix, rows[i]) <= INTEGER_MAX
  }

  /** `aggregate(Max("num"))`, or 0 when no row matches. */
  function MaxExisting(rows: seq<string>, prefix: string): nat {
    if rows == [] then 0
    else
      var rest := MaxExisting(rows[1..], prefix);
      if Matches(prefix, rows[0]) then Max(NumberOf(prefix, rows[0]), rest) else rest
  }

  function Spell(prefix: string, n: nat): string {
    prefix + Pad(n, 4)
  }

  /** generate_po_number; `start` is a plain integer column, so it may be negative. */
  function Generate(rows: seq<string>, prefix: string, start: int): Result<string, Error> {
    if Castable(rows, prefix) then Ok(Spell(prefix, Max(start, MaxExisting(rows, prefix) + 1)))
    else Err(IntegerOutOfRange)
  }

  /** save() of a new order (None) or of the one at a row: a number is generated only for an order that
      has none, and the column is unique. */
  function Save(rows: seq<string>, at: Option<nat>, number: string, prefix: string, start: int): Result<seq<string>, Error>
    requires at.Some? ==> at.value < |rows|
  {
    var chosen := if number == "" then Generate(rows, prefix, start) else Ok(number);
    if chosen.Err? then Err(chosen.error)
    else if exists j | 0 <= j < |rows| :: at != Some(j) && rows[j] == chosen.value then Err(DuplicateNumber)
    else Ok(if at.None? then rows + [chosen.value] else rows[at.value := chosen.value])
  }

  // ----- printing and reading a number undo each other

  lemma SpellReadsBack(prefix: string, n: nat)
    ensures Matches(prefix, Spell(prefix, n)) && NumberOf(prefix, Spell(prefix, n)) == n
  {
    ValueOfPad(n, 4);
    assert Spell(prefix, n)[|prefix|..] == Pad(n, 4);
  }

  /** What counts as a number under a prefix, `^<prefix>\d+$`: the prefix and at least one digit after it. */
  lemma MatchesIff(prefix: string, digits: string)
    ensures Matches(prefix, prefix + digits) <==> digits != "" && forall c | c in digits :: '0' <= c <= '9'
    ensures Matches(prefix, prefix + digits) ==> NumberOf(prefix, prefix + digits) == Value(digits)
    ensures forall number | Matches(prefix, number) :: number == prefix + number[|prefix|..]
  {
    assert (prefix + digits)[|prefix|..] == digits;
    if forall c | c in digits :: '0' <= c <= '9' {
      assert forall i | 0 <= i < |digits| :: digits[i] in digits;
    }
  }

  /** The suffix has four characters, or as many as the number needs: the number with zeros before it. */
  lemma SuffixWidth(prefix: string, n: nat)
    ensures var s := Spell(prefix, n);
            && prefix <= s
            && |s| == |prefix| + (if |Print(n)| < 4 then 4 else |Print(n)|)
            && s[|s| - |Print(n)|..] == Print(n)
            && forall i | |prefix| <= i < |s| - |Print(n)| :: s[i] == '0'
  {
    hide Pad, Print;
    PadIs(n, 4);
    assert Spell(prefix, n)[|prefix|..] == Pad(n, 4);
  }

  lemma {:induction false} MaxExistingIsMax(rows: seq<string>, prefix: string)
    ensures forall i | 0 <= i < |rows| && Matches(prefix, rows[i]) :: NumberOf(prefix, rows[i]) <= MaxExisting(rows, prefix)
    ensures MaxExisting(rows, prefix) == 0 ||
            exists i | 0 <= i < |rows| && Matches(prefix, rows[i]) :: NumberOf(prefix, rows[i]) == MaxExisting(rows, prefix)
  {
    if rows != [] {
      var rest := rows[1..];
      MaxExistingIsMax(rest, prefix);
      forall i | 0 <= i < |rows| && Matches(prefix, rows[i]) ensures NumberOf(prefix, rows[i]) <= MaxExisting(rows, prefix) {
        if i > 0 { assert rest[i - 1] == rows[i]; }
      }
      if MaxExisting(rows, prefix) != 0 && !(Matches(prefix, rows[0]) && NumberOf(prefix, rows[0]) == MaxExisting(rows, prefix)) {
        var k :| 0 <= k < |rest| && Matches(prefix, rest[k]) && NumberOf(prefix, rest[k]) == MaxExisting(rest, prefix);
        assert rows[k + 1] == rest[k];
      }
    }
  }

  // ----- what one generated number is

  /** The least number that is at least the configured start, at least 1, and above every number in use
      under the prefix. */
  ghost predicate IsNext(rows: seq<string>, prefix: string, start: int, n: nat) {
    && n >= start && n >= 1
    && (forall i | 0 <= i < |rows| && Matches(prefix, rows[i]) :: NumberOf(prefix, rows[i]) < n)
    && (n == start || n == 1 || exists i | 0 <= i < |rows| && Matches(prefix, rows[i]) :: NumberOf(prefix, rows[i]) == n - 1)
  }

  /** Generation succeeds exactly when every number in use under the prefix fits the cast, and then it
      spells that one number and no other. */
  lemma GenerateSpellsTheNext(rows: seq<string>, prefix: string, start: int, n: nat)
    ensures Generate(rows, prefix, start) == Ok(Spell(prefix, n)) <==> Castable(rows, prefix) && IsNext(rows, prefix, start, n)
    ensures Castable(rows, prefix) <==>
            forall i | 0 <= i < |rows| && Matches(prefix, rows[i]) :: NumberOf(prefix, rows[i]) <= 2_147_483_647
  {
    MaxExistingIsMax(rows, prefix);
    var next := Max(start, MaxExisting(rows, prefix) + 1);
    SpellReadsBack(prefix, n);
    SpellReadsBack(prefix, next);
    assert Spell(prefix, n) == Spell(prefix, next) <==> n == next;
  }

  /** A generated number is not in the table: whatever the table holds, under prefixes that overlap
      this one included. */
  lemma GeneratedIsFresh(rows: seq<string>, prefix: string, start: int)
    requires Generate(rows, prefix, start).Ok?
    ensures var number := Generate(rows, prefix, start).value;
            && number !in rows
            && Matches(prefix, number) && NumberOf(prefix, number) >= start
            && forall i | 0 <= i < |rows| && Matches(prefix, rows[i]) :: NumberOf(prefix, rows[i]) < NumberOf(prefix, number)
  {
    var next := Max(start, MaxExisting(rows, prefix) + 1);
    SpellReadsBack(prefix, next);
    MaxExistingIsMax(rows, prefix);
  }

  /** So an order numbered and stored with nothing stored in between never meets the unique constraint. */
  lemma SavingAloneNeverCollides(rows: seq<string>, at: Option<nat>, prefix: string, start: int)
    requires at.Some? ==> at.value < |rows|
    ensures Save(rows, at, "", prefix, start) != Err(DuplicateNumber)
  {
    if Generate(rows, prefix, start).Ok? {
      GeneratedIsFresh(rows, prefix, start);
    }
  }

  /** What a save stores: the number given, unless another order has it, or the next one when none is given
      and the table can be read; at the row saved, or in a new last one. */
  lemma SaveStores(rows: seq<string>, at: Option<nat>, number: string, prefix: string, start: int)
    requires at.Some? ==> at.value < |rows|
    ensures var saved := Save(rows, at, number, prefix, start);
            && (number != "" ==>
                  (saved.Ok? <==> forall j | 0 <= j < |rows| && rows[j] == number :: at == Some(j)) &&
                  (saved.Err? ==> saved.error == DuplicateNumber))
            && (number == "" ==> (saved.Ok? <==> Castable(rows, prefix)) && (saved.Err? ==> saved.error == IntegerOutOfRange))
            && (saved.Ok? ==>
                  var x := if number != "" then number else Generate(rows, prefix, start).value;
                  saved.value == if at.None? then rows + [x] else rows[at.value := x])
  {
    if number == "" && Castable(rows, prefix) {
      GeneratedIsFresh(rows, prefix, start);
    }
    hide MaxExisting, Spell, Matches, NumberOf;
  }

  // ----- savers that race

  /** save() of a new order reads the maximum and inserts the row in two statements, with no lock held. */
  datatype Pc = Unnumbered | Holding(number: string) | Stored(number: string) | Refused(number: string) | Overflowed

  datatype Saver = Saver(prefix: string, start: int, pc: Pc)

  datatype Race = Race(rows: seq<string>, savers: seq<Saver>)

  datatype Move =
    | Arrive(prefix: string, start: int)
    | ReadNumber(i: nat)
    | Insert(i: nat)
    | Write(number: string)   // an order that came with its number

  predicate CanMove(s: Race, m: Move) {
    match m
    case Arrive(_, _) => true
    case ReadNumber(i) => i < |s.savers| && s.savers[i].pc.Unnumbered?
    case Insert(i) => i < |s.savers| && s.savers[i].pc.Holding?
    case Write(number) => number !in s.rows
  }

  function After(s: Race, m: Move): Race
    requires CanMove(s, m)
  {
    match m
    case Arrive(prefix, start) => s.(savers := s.savers + [Saver(prefix, start, Unnumbered)])
    case ReadNumber(i) =>
      var r := Generate(s.rows, s.savers[i].prefix, s.savers[i].start);
      s.(savers := s.savers[i := s.savers[i].(pc := if r.Ok? then Holding(r.value) else Overflowed)])
    case Insert(i) =>
      var x := s.savers[i].pc.number;
      if x in s.rows then s.(savers := s.savers[i := s.savers[i].(pc := Refused(x))])
      else Race(s.rows + [x], s.savers[i := s.savers[i].(pc := Stored(x))])
    case Write(number) => s.(rows := s.rows + [number])
  }

  predicate CanRace(s: Race, moves: seq<Move>)
    decreases |moves|, 0
  {
    moves == [] || (CanRace(s, moves[..|moves| - 1]) && CanMove(RaceRun(s, moves[..|moves| - 1]), moves[|moves| - 1]))
  }

  function RaceRun(s: Race, moves: seq<Move>): Race
    requires CanRace(s, moves)
    decreases |moves|, 1
  {
    if moves == [] then s else After(RaceRun(s, moves[..|moves| - 1]), moves[|moves| - 1])
  }

  /** A race is its moves one after the other ... */
  lemma {:induction false} RaceOn(s: Race, first: seq<Move>, second: seq<Move>)
    requires CanRace(s, first) && CanRace(RaceRun(s, first), second)
    ensures CanRace(s, first + second) && RaceRun(s, first + second) == RaceRun(RaceRun(s, first), second)
  {
    hide After, CanMove;
    var moves := first + second;
    if second == [] {
      assert moves == first;
    } else {
      var n := |second| - 1;
      RaceOn(s, first, second[..n]);
      assert moves[..|moves| - 1] == first + second[..n] && moves[|moves| - 1] == second[n];
    }
  }

  /** ... and a race of one is that move. */
  lemma RaceOfOne(s: Race, m: Move)
    requires CanMove(s, m)
    ensures CanRace(s, [m]) && RaceRun(s, [m]) == After(s, m)
  {
    hide After, CanMove;
    assert [m][..0] == [];
  }

  /** Reading takes the next number, or fails as the table cannot be read, and stores nothing; an order
      that came with a number is stored under it when it is free. */
  lemma MovesTakeEffect(s: Race, m: Move, n: nat)
    requires CanMove(s, m)
    ensures forall p, first :: CanMove(s, Arrive(p, first))
    ensures m.ReadNumber? ==>
              var x, t := s.savers[m.i], After(s, m);
              && t == Race(s.rows, s.savers[m.i := Saver(x.prefix, x.start, t.savers[m.i].pc)])
              && (t.savers[m.i].pc == Overflowed <==> !Castable(s.rows, x.prefix))
              && (t.savers[m.i].pc == Holding(Spell(x.prefix, n)) <==>
                    Castable(s.rows, x.prefix) && IsNext(s.rows, x.prefix, x.start, n))
    ensures m.Arrive? ==> After(s, m) == Race(s.rows, s.savers + [Saver(m.prefix, m.start, Unnumbered)])
    ensures m.Write? ==> m.number !in s.rows && After(s, m) == Race(s.rows + [m.number], s.savers)
  {
    if m.ReadNumber? {
      GenerateSpellsTheNext(s.rows, s.savers[m.i].prefix, s.savers[m.i].start, n);
    }
    hide Spell, IsNext, Castable, MaxExisting;
  }

  ghost predicate OneStored(s: Race, x: string) {
    && (exists i | 0 <= i < |s.savers| :: s.savers[i].pc == Stored(x))
    && forall i, j | 0 <= i < j < |s.savers| :: !(s.savers[i].pc == Stored(x) && s.savers[j].pc == Stored(x))
  }

  /** While x is nobody's but the savers': it is in the table exactly when one of them has stored it, only
      one ever has, and nobody is refused before. */
  ghost predicate Contested(s: Race, x: string) {
    && (forall i | 0 <= i < |s.savers| && s.savers[i].pc in {Stored(x), Refused(x)} :: x in s.rows)
    && (x in s.rows ==> OneStored(s, x))
  }

  lemma MoveKeepsContested(s: Race, m: Move, x: string)
    requires CanMove(s, m) && m != Write(x) && Contested(s, x)
    ensures Contested(After(s, m), x)
  {
    var t := After(s, m);
    if x in s.rows {
      var k :| 0 <= k < |s.savers| && s.savers[k].pc == Stored(x);
      assert t.savers[k].pc == Stored(x);
    } else if x in t.rows {
      assert t.savers[m.i].pc == Stored(x);
    }
  }

  lemma {:induction false} RaceKeepsContested(s: Race, moves: seq<Move>, x: string)
    requires CanRace(s, moves) && Write(x) !in moves && Contested(s, x)
    ensures Contested(RaceRun(s, moves), x)
  {
    if moves != [] {
      RaceKeepsContested(s, moves[..|moves| - 1], x);
      MoveKeepsContested(RaceRun(s, moves[..|moves| - 1]), moves[|moves| - 1], x);
    }
  }

  /** Of any number of savers after the same number, in any order of moves, exactly one stores it, as soon
      as one of them has got as far as inserting; all others are refused. */
  lemma OneSaverWins(s: Race, moves: seq<Move>, x: string, i: nat)
    requires CanRace(s, moves) && Write(x) !in moves
    requires x !in s.rows && forall k | 0 <= k < |s.savers| :: s.savers[k].pc !in {Stored(x), Refused(x)}
    requires var t := RaceRun(s, moves); i < |t.savers| && t.savers[i].pc in {Stored(x), Refused(x)}
    ensures OneStored(RaceRun(s, moves), x)
  {
    RaceKeepsContested(s, moves, x);
  }

  /** Savers that read the same table under one prefix and start are after the same number, and it is free. */
  lemma SameReadSameNumber(s: Race, i: nat, j: nat)
    requires CanMove(s, ReadNumber(i)) && CanMove(s, ReadNumber(j)) && i != j
    requires s.savers[i].prefix == s.savers[j].prefix && s.savers[i].start == s.savers[j].start
    ensures var t := After(After(s, ReadNumber(i)), ReadNumber(j));
            t.savers[i].pc == t.savers[j].pc && (t.savers[i].pc.Holding? ==> t.savers[i].pc.number !in t.rows)
  {
    if Generate(s.rows, s.savers[i].prefix, s.savers[i].start).Ok? {
      GeneratedIsFresh(s.rows, s.savers[i].prefix, s.savers[i].start);
    }
  }

  predicate MovesOf(m: Move, i: nat) {
    (m.ReadNumber? || m.Insert?) && m.i == i
  }

  lemma {:induction false} OthersLeaveSaver(s: Race, moves: seq<Move>, i: nat)
    requires CanRace(s, moves) && i < |s.savers| && forall m | m in moves :: !MovesOf(m, i)
    ensures var t := RaceRun(s, moves); i < |t.savers| && t.savers[i] == s.savers[i] && s.rows <= t.rows
  {
    if moves != [] {
      assert moves[|moves| - 1] in moves;
      OthersLeaveSaver(s, moves[..|moves| - 1], i);
    }
  }

  /** Exactly when a saver is refused: someone stored the very number it holds after it read the table. */
  lemma RefusedIffOvertaken(s: Race, i: nat, moves: seq<Move>)
    requires CanMove(s, ReadNumber(i)) && After(s, ReadNumber(i)).savers[i].pc.Holding?
    requires CanRace(After(s, ReadNumber(i)), moves) && forall m | m in moves :: !MovesOf(m, i)
    ensures var x := After(s, ReadNumber(i)).savers[i].pc.number;
            var t := RaceRun(After(s, ReadNumber(i)), moves);
            && CanMove(t, Insert(i))
            && (After(t, Insert(i)).savers[i].pc == Refused(x) <==> exists k | |s.rows| <= k < |t.rows| :: t.rows[k] == x)
            && After(t, Insert(i)).savers[i].pc in {Refused(x), Stored(x)}
            && After(t, Insert(i)).rows == if After(t, Insert(i)).savers[i].pc == Refused(x) then t.rows else t.rows + [x]
  {
    var u := After(s, ReadNumber(i));
    var x := u.savers[i].pc.number;
    GeneratedIsFresh(s.rows, s.savers[i].prefix, s.savers[i].start);
    OthersLeaveSaver(u, moves, i);
    var t := RaceRun(u, moves);
    hide RaceRun, CanRace;
    forall k | 0 <= k < |s.rows| ensures t.rows[k] != x {
      assert t.rows[k] == s.rows[k];
    }
  }

  /** When all savers share one prefix and start and no order brings its own number, whoever holds a
      number holds the next one, or one that is already taken. */
  ghost predicate HoldsNext(s: Race, prefix: string, start: int) {
    forall i | 0 <= i < |s.savers| ::
      && s.savers[i].prefix == prefix && s.savers[i].start == start
      && (s.savers[i].pc.Holding? ==>
            s.savers[i].pc.number in s.rows || s.savers[i].pc.number == Spell(prefix, Max(start, MaxExisting(s.rows, prefix) + 1)))
  }

  predicate Uniform(m: Move, prefix: string, start: int) {
    !m.Write? && (m.Arrive? ==> m.prefix == prefix && m.start == start)
  }

  lemma MoveKeepsHoldsNext(s: Race, m: Move, prefix: string, start: int)
    requires CanMove(s, m) && Uniform(m, prefix, start) && HoldsNext(s, prefix, start)
    ensures HoldsNext(After(s, m), prefix, start)
  {
    hide MaxExisting, Spell;
  }

  lemma {:induction false} RaceKeepsHoldsNext(s: Race, moves: seq<Move>, prefix: string, start: int)
    requires CanRace(s, moves) && HoldsNext(s, prefix, start)
    requires forall m | m in moves :: Uniform(m, prefix, start)
    ensures HoldsNext(RaceRun(s, moves), prefix, start)
  {
    if moves != [] {
      assert moves[|moves| - 1] in moves;
      RaceKeepsHoldsNext(s, moves[..|moves| - 1], prefix, start);
      MoveKeepsHoldsNext(RaceRun(s, moves[..|moves| - 1]), moves[|moves| - 1], prefix, start);
    }
  }

  /** Such savers issue increasing numbers however they race: whenever one stores its number, that number
      is above every other in use under the prefix. */
  lemma RacingStoresIncrease(rows: seq<string>, moves: seq<Move>, i: nat, prefix: string, start: int)
    requires CanRace(Race(rows, []), moves) && forall m | m in moves :: Uniform(m, prefix, start)
    requires var t := RaceRun(Race(rows, []), moves); CanMove(t, Insert(i)) && After(t, Insert(i)).savers[i].pc.Stored?
    ensures var t := RaceRun(Race(rows, []), moves);
            var x := t.savers[i].pc.number;
            && Matches(prefix, x) && NumberOf(prefix, x) >= start && NumberOf(prefix, x) >= 1
            && forall k | 0 <= k < |t.rows| && Matches(prefix, t.rows[k]) :: NumberOf(prefix, t.rows[k]) < NumberOf(prefix, x)
  {
    RaceKeepsHoldsNext(Race(rows, []), moves, prefix, start);
    var t := RaceRun(Race(rows, []), moves);
    hide RaceRun, CanRace;
    SpellReadsBack(prefix, Max(start, MaxExisting(t.rows, prefix) + 1));
    MaxExistingIsMax(t.rows, prefix);
  }

  // ----- runs

  datatype Issued = Issued(prefix: string, number: string)

  datatype State = State(rows: seq<string>, issued: seq<Issued>)

  datatype Step =
    | SaveOrder(at: Option<nat>, number: string, prefix: string, start: int)
    | DeleteOrder(row: nat)

  predicate Can(s: State, a: Step) {
    match a
    case SaveOrder(at, _, _, _) => at.Some? ==> at.value < |s.rows|
    case DeleteOrder(row) => row < |s.rows|
  }

  /** A save that raises changes nothing. */
  function Next(s: State, a: Step): State
    requires Can(s, a)
  {
    match a
    case DeleteOrder(row) => s.(rows := s.rows[..row] + s.rows[row + 1..])
    case SaveOrder(at, number, prefix, start) =>
      var saved := Save(s.rows, at, number, prefix, start);
      if saved.Err? then s
      else State(saved.value, if number == "" then s.issued + [Issued(prefix, Generate(s.rows, prefix, start).value)] else s.issued)
  }

  predicate CanRun(s: State, steps: seq<Step>)
    decreases |steps|, 0
  {
    steps == [] || (CanRun(s, steps[..|steps| - 1]) && Can(Run(s, steps[..|steps| - 1]), steps[|steps| - 1]))
  }

  function Run(s: State, steps: seq<Step>): State
    requires CanRun(s, steps)
    decreases |steps|, 1
  {
    if steps == [] then s else Next(Run(s, steps[..|steps| - 1]), steps[|steps| - 1])
  }

  /** A run is its steps one after the other ... */
  lemma {:induction false} RunOn(s: State, first: seq<Step>, second: seq<Step>)
    requires CanRun(s, first) && CanRun(Run(s, first), second)
    ensures CanRun(s, first + second) && Run(s, first + second) == Run(Run(s, first), second)
  {
    hide Next, Can;
    var steps := first + second;
    if second == [] {
      assert steps == first;
    } else {
      var n := |second| - 1;
      RunOn(s, first, second[..n]);
      assert steps[..|steps| - 1] == first + second[..n] && steps[|steps| - 1] == second[n];
    }
  }

  /** ... and a run of one is that step. */
  lemma RunOfOne(s: State, a: Step)
    requires Can(s, a)
    ensures CanRun(s, [a]) && Run(s, [a]) == Next(s, a)
  {
    hide Next, Can;
    assert [a][..0] == [];
  }

  /** No step of the run takes a number away: no order is deleted, none changes its number. */
  predicate KeepsNumbers(s: State, a: Step)
    requires Can(s, a)
  {
    a.SaveOrder? && (a.at.Some? ==> a.number == s.rows[a.at.value] && a.number != "")
  }

  predicate RunKeepsNumbers(s: State, steps: seq<Step>)
    requires CanRun(s, steps)
  {
    steps == [] ||
    (RunKeepsNumbers(s, steps[..|steps| - 1]) && KeepsNumbers(Run(s, steps[..|steps| - 1]), steps[|steps| - 1]))
  }

  /** What such runs keep: every number issued is still in the table, and of two numbers issued the
      later is another string and, under the same prefix, the larger number. */
  ghost predicate Inv(s: State) {
    && (forall i | 0 <= i < |s.issued| :: s.issued[i].number in s.rows && Matches(s.issued[i].prefix, s.issued[i].number))
    && (forall i, j | 0 <= i < j < |s.issued| :: s.issued[i].number != s.issued[j].number)
    && (forall i, j | 0 <= i < j < |s.issued| && s.issued[i].prefix == s.issued[j].prefix ::
          NumberOf(s.issued[i].prefix, s.issued[i].number) < NumberOf(s.issued[j].prefix, s.issued[j].number))
  }

  /** Every number a save generates is recorded as issued under its prefix, in order, and is the one at the
      row; a save that raises, or that came with its number, issues none, and nothing is ever taken back. */
  lemma IssuingIsRecorded(s: State, a: Step)
    requires Can(s, a)
    ensures a.SaveOrder? && a.number == "" && Castable(s.rows, a.prefix) ==>
              var t, row := Next(s, a), if a.at.Some? then a.at.value else |s.rows|;
              && row < |t.rows| && |t.rows| == (if a.at.Some? then |s.rows| else |s.rows| + 1)
              && t.issued == s.issued + [Issued(a.prefix, t.rows[row])]
              && t.rows[row] !in s.rows
    ensures a.SaveOrder? && (a.number != "" || !Castable(s.rows, a.prefix)) ==> Next(s, a).issued == s.issued
    ensures a.SaveOrder? && Save(s.rows, a.at, a.number, a.prefix, a.start).Err? ==> Next(s, a) == s
    ensures a.SaveOrder? && Save(s.rows, a.at, a.number, a.prefix, a.start).Ok? ==>
              Next(s, a).rows == Save(s.rows, a.at, a.number, a.prefix, a.start).value
    ensures a.DeleteOrder? ==> Next(s, a) == State(s.rows[..a.row] + s.rows[a.row + 1..], s.issued)
  {
    if a.SaveOrder? {
      SaveStores(s.rows, a.at, a.number, a.prefix, a.start);
      if a.number == "" && Castable(s.rows, a.prefix) { GeneratedIsFresh(s.rows, a.prefix, a.start); }
      hide Save, Generate, Castable;
    }
  }

  lemma RowsOnlyGrow(s: State, a: Step)
    requires Can(s, a) && KeepsNumbers(s, a)
    ensures s.rows <= Next(s, a).rows
    ensures Next(s, a).issued != s.issued ==>
              && Generate(s.rows, a.prefix, a.start).Ok?
              && Next(s, a).rows == s.rows + [Generate(s.rows, a.prefix, a.start).value]
              && Next(s, a).issued == s.issued + [Issued(a.prefix, Generate(s.rows, a.prefix, a.start).value)]
  {
    if a.at.Some? {
      assert s.rows[a.at.value := s.rows[a.at.value]] == s.rows;
    }
  }

  lemma MoreRowsKeepInv(s: State, rows: seq<string>)
    requires Inv(s) && s.rows <= rows
    ensures Inv(State(rows, s.issued))
  {
    forall i | 0 <= i < |s.issued| ensures s.issued[i].number in rows {
      var k :| 0 <= k < |s.rows| && s.rows[k] == s.issued[i].number;
      assert rows[k] == s.rows[k];
    }
  }

  /** Issuing a number that is in no row and above all others under its prefix. */
  lemma FreshNumberKeepsInv(s: State, prefix: string, number: string)
    requires Inv(s) && number !in s.rows && Matches(prefix, number)
    requires forall k | 0 <= k < |s.rows| && Matches(prefix, s.rows[k]) :: NumberOf(prefix, s.rows[k]) < NumberOf(prefix, number)
    ensures Inv(State(s.rows + [number], s.issued + [Issued(prefix, number)]))
  {
    hide Matches, NumberOf;
    forall i | 0 <= i < |s.issued| && s.issued[i].prefix == prefix
      ensures NumberOf(prefix, s.issued[i].number) < NumberOf(prefix, number)
    {
      var k :| 0 <= k < |s.rows| && s.rows[k] == s.issued[i].number;
    }
  }

  lemma StepKeepsInv(s: State, a: Step)
    requires Can(s, a) && KeepsNumbers(s, a) && Inv(s)
    ensures Inv(Next(s, a))
  {
    RowsOnlyGrow(s, a);
    hide Next, Inv, Generate, Matches, NumberOf;
    if Next(s, a).issued == s.issued {
      MoreRowsKeepInv(s, Next(s, a).rows);
    } else {
      GeneratedIsFresh(s.rows, a.prefix, a.start);
      FreshNumberKeepsInv(s, a.prefix, Generate(s.rows, a.prefix, a.start).value);
    }
  }

  lemma {:induction false} RunKeepsInv(s: State, steps: seq<Step>)
    requires CanRun(s, steps) && RunKeepsNumbers(s, steps)
    requires Inv(s)
    ensures Inv(Run(s, steps))
  {
    if steps != [] {
      RunKeepsInv(s, steps[..|steps| - 1]);
      StepKeepsInv(Run(s, steps[..|steps| - 1]), steps[|steps| - 1]);
    }
  }

  lemma {:induction false} RunKeepsRows(s: State, steps: seq<Step>)
    requires CanRun(s, steps) && RunKeepsNumbers(s, steps)
    ensures s.rows <= Run(s, steps).rows
  {
    if steps != [] {
      RunKeepsRows(s, steps[..|steps| - 1]);
      RowsOnlyGrow(Run(s, steps[..|steps| - 1]), steps[|steps| - 1]);
    }
  }

  /** Over any run that takes no number away, from any table, with the prefix and the start changing
      freely and hand-written numbers in between: issued numbers never repeat, and those under one
      prefix strictly increase. */
  lemma IssuedNumbersIncrease(rows: seq<string>, steps: seq<Step>, i: nat, j: nat)
    requires CanRun(State(rows, []), steps) && RunKeepsNumbers(State(rows, []), steps)
    requires i < j < |Run(State(rows, []), steps).issued|
    ensures var issued := Run(State(rows, []), steps).issued;
            && issued[i].number != issued[j].number
            && (issued[i].prefix == issued[j].prefix ==>
                  && Matches(issued[i].prefix, issued[i].number) && Matches(issued[j].prefix, issued[j].number)
                  && NumberOf(issued[i].prefix, issued[i].number) < NumberOf(issued[j].prefix, issued[j].number))
  {
    RunKeepsInv(State(rows, []), steps);
  }

  // ----- where the promise stops

  /** A deletion breaks the increase: deleting the order just numbered leaves the table as it was ... */
  lemma DeletingUndoesIssuing(rows: seq<string>, prefix: string, start: int)
    requires Generate(rows, prefix, start).Ok?
    ensures Next(State(rows, []), SaveOrder(None, "", prefix, start)).rows == rows + [Generate(rows, prefix, start).value]
    ensures var s := Next(State(rows, []), SaveOrder(None, "", prefix, start));
            Can(s, DeleteOrder(|rows|)) && Next(s, DeleteOrder(|rows|)).rows == rows
  {
    hide Spell, MaxExisting;
    GeneratedIsFresh(rows, prefix, start);
    var number := Generate(rows, prefix, start).value;
    assert (rows + [number])[..|rows|] + (rows + [number])[|rows| + 1..] == rows;
  }

  /** ... and the next order gets its number again, exactly when the start has not moved or neither
      start is past the number the table leads to. */
  lemma ReissuedIff(rows: seq<string>, prefix: string, start: int, laterStart: int)
    requires Generate(rows, prefix, start).Ok?
    ensures Generate(rows, prefix, laterStart) == Generate(rows, prefix, start)
            <==> laterStart == start || (start <= MaxExisting(rows, prefix) + 1 && laterStart <= MaxExisting(rows, prefix) + 1)
  {
    hide MaxExisting, Spell;
    SpellReadsBack(prefix, Max(start, MaxExisting(rows, prefix) + 1));
    SpellReadsBack(prefix, Max(laterStart, MaxExisting(rows, prefix) + 1));
  }

  /** Numbering can stop for good: the number issued after the largest castable one is past the cast,
      so the table can number another order under that prefix exactly when the number issued fits. */
  lemma NumberingContinuesIff(rows: seq<string>, prefix: string, start: int, laterStart: int)
    requires Generate(rows, prefix, start).Ok?
    ensures Generate(rows + [Generate(rows, prefix, start).value], prefix, laterStart).Ok?
            <==> start <= INTEGER_MAX && MaxExisting(rows, prefix) < INTEGER_MAX
  {
    var next := Max(start, MaxExisting(rows, prefix) + 1);
    SpellReadsBack(prefix, next);
    var after := rows + [Spell(prefix, next)];
    assert after[|rows|] == Spell(prefix, next);
    if next <= INTEGER_MAX {
      forall i | 0 <= i < |after| && Matches(prefix, after[i]) ensures NumberOf(prefix, after[i]) <= INTEGER_MAX {
        if i < |rows| { assert after[i] == rows[i]; }
      }
    }
  }

  /** Once it has stopped, nothing short of taking a number away starts it again. */
  lemma StoppedForGood(s: State, steps: seq<Step>, prefix: string, start: int)
    requires CanRun(s, steps) && RunKeepsNumbers(s, steps)
    requires !Castable(s.rows, prefix)
    ensures Generate(Run(s, steps).rows, prefix, start) == Err(IntegerOutOfRange)
  {
    RunKeepsRows(s, steps);
    var i :| 0 <= i < |s.rows| && Matches(prefix, s.rows[i]) && NumberOf(prefix, s.rows[i]) > INTEGER_MAX;
    assert Run(s, steps).rows[i] == s.rows[i];
  }

  // ----- get_last_purchase_order_number

  /** First by number, highest first: a row under the prefix that no other exceeds. */
  ghost predicate IsLastNumber(rows: seq<string>, prefix: string, number: string) {
    && number in rows && Matches(prefix, number)
    && forall i | 0 <= i < |rows| && Matches(prefix, rows[i]) :: NumberOf(prefix, rows[i]) <= NumberOf(prefix, number)
  }

  /** The number just issued is the one reported as the last, whichever way ties are broken. */
  lemma IssuedIsReportedLast(rows: seq<string>, prefix: string, start: int, number: string)
    requires Generate(rows, prefix, start).Ok?
    ensures IsLastNumber(rows + [Generate(rows, prefix, start).value], prefix, number)
            <==> number == Generate(rows, prefix, start).value
  {
    GeneratedIsFresh(rows, prefix, start);
    var issued := Generate(rows, prefix, start).value;
    var after := rows + [issued];
    assert after[|rows|] == issued;
    if IsLastNumber(after, prefix, number) {
      assert NumberOf(prefix, after[|rows|]) <= NumberOf(prefix, number);
      var k :| 0 <= k < |after| && after[k] == number;
      assert k == |rows|;
    }
    forall i | 0 <= i < |after| && Matches(prefix, after[i]) ensures NumberOf(prefix, after[i]) <= NumberOf(prefix, issued) {
      if i < |rows| { assert after[i] == rows[i]; }
    }
  }

  // ----- the code on the rows it updates

  class PurchaseOrders {
    var rows: seq<string>

    constructor ()
      ensures rows == []
    {
      rows := [];
    }

    /** generate_po_number: a read of the table. */
    method GeneratePoNumber(prefix: string, start: int) returns (r: Result<string, Error>)
      ensures r == Generate(rows, prefix, start)
      ensures r.Ok? ==> r.value !in rows
    {
      r := Generate(rows, prefix, start);
      if r.Ok? {
        GeneratedIsFresh(rows, prefix, start);
      }
    }

    /** The write, under the unique constraint. */
    method Store(at: Option<nat>, number: string) returns (r: Result<string, Error>)
      requires at.Some? ==> at.value < |rows|
      modifies this
      ensures r == if exists j | 0 <= j < |old(rows)| :: at != Some(j) && old(rows)[j] == number then Err(DuplicateNumber) else Ok(number)
      ensures rows == if r.Err? then old(rows) else if at.None? then old(rows) + [number] else old(rows)[at.value := number]
    {
      if exists j | 0 <= j < |rows| :: at != Some(j) && rows[j] == number {
        return Err(DuplicateNumber);
      }
      rows := if at.None? then rows + [number] else rows[at.value := number];
      r := Ok(number);
    }

    /** PurchaseOrder.save with no other saver in between: the number the instance ends with, or what it
        raised. */
    method SaveOrder(at: Option<nat>, poNumber: string, prefix: string, start: int) returns (r: Result<string, Error>)
      requires at.Some? ==> at.value < |rows|
      modifies this
      ensures match Save(old(rows), at, poNumber, prefix, start)
              case Ok(after) => r.Ok? && rows == after && rows[if at.Some? then at.value else |old(rows)|] == r.value
              case Err(e) => r == Err(e) && rows == old(rows)
      ensures poNumber == "" && r.Ok? ==> r.value !in old(rows)
      ensures poNumber != "" ==>
                r == if exists j | 0 <= j < |old(rows)| :: at != Some(j) && old(rows)[j] == poNumber
                     then Err(DuplicateNumber) else Ok(poNumber)
    {
      var number := poNumber;
      if number == "" {
        var generated := GeneratePoNumber(prefix, start);
        if generated.Err? {
          return generated;
        }
        number := generated.value;
      }
      r := Store(at, number);
    }
  }
}
