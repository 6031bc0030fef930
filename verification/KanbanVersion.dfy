/** apps/job/kanban_version.py: the opaque version of the Job dataset, its printer and its parser.
    The timestamp form is the date-time profile of section 5.6 of RFC 3339 with six fraction digits.

    A version holds the newest update, the newest creation and the row count. Building one from values
    checks the count and that both timestamps carry an offset, and moves them to UTC, which fails off
    the calendar. Encoding prints both timestamps and the count with a bar in between; decoding splits
    at the bars, reads the parts and builds again. The parser reads what the printer can print, with any
    offset in whole minutes or with none. */
module KanbanVersion {
  import opened Wrappers
  import opened Text
  import opened Calendar

  /** A Python datetime: without an offset, or with one in whole minutes. */
  datatype DateTime = Naive(local: Civil) | Aware(local: Civil, offset: int)

  /** `InvalidVersion` is the ValueError that decode raises; the next three are the ValueErrors of
      from_values; `OutOfRange` is the OverflowError of astimezone, which no handler catches. */
  datatype Error = InvalidVersion | NegativeCount | NaiveUpdated | NaiveCreated | OutOfRange

  /** The frozen dataclass; both timestamps are in UTC. */
  datatype Version = Version(updatedAt: Civil, createdAt: Civil, count: nat)

  predicate ValidDateTime(d: DateTime) {
    ValidCivil(d.local) && (d.Aware? ==> -1440 < d.offset < 1440)
  }

  predicate Valid(v: Version) {
    ValidCivil(v.updatedAt) && ValidCivil(v.createdAt)
  }

  /** The UTC instant of an aware datetime, in microseconds since year 1; it may fall outside the calendar. */
  function Instant(d: DateTime): int
    requires ValidDateTime(d) && d.Aware?
  {
    Micros(d.local) - d.offset * MICROS_PER_MINUTE
  }

  const EMPTY_TIMESTAMP := Aware(Civil(1970, 1, 1, 0, 0, 0, 0), 0)

  function OrEmpty(d: Option<DateTime>): DateTime {
    if d.Some? then d.value else EMPTY_TIMESTAMP
  }

  predicate ValidInput(d: Option<DateTime>) {
    d.Some? ==> ValidDateTime(d.value)
  }

  function ToUtc(d: DateTime): (r: Result<Civil, Error>)
    requires ValidDateTime(d) && d.Aware?
    ensures r.Ok? <==> InRange(Instant(d))
    ensures r.Ok? ==> ValidCivil(r.value) && Micros(r.value) == Instant(d)
    ensures r.Err? ==> r.error == OutOfRange
  {
    if InRange(Instant(d)) then
      Ok(CivilAt(Instant(d)))
    else Err(OutOfRange)
  }

  function FromValues(updated: Option<DateTime>, created: Option<DateTime>, count: int): (r: Result<Version, Error>)
    requires ValidInput(updated) && ValidInput(created)
    ensures r.Ok? ==> Valid(r.value)
  {
    if count < 0 then Err(NegativeCount)
    else if updated.Some? && updated.value.Naive? then Err(NaiveUpdated)
    else if created.Some? && created.value.Naive? then Err(NaiveCreated)
    else match ToUtc(OrEmpty(updated))
      case Err(e) => Err(e)
      case Ok(u) => match ToUtc(OrEmpty(created))
        case Err(e) => Err(e)
        case Ok(c) => Ok(Version(u, c, count))
  }

  /** from_values accepts exactly the aware, in-range, non-negative inputs, and keeps their instants. */
  lemma FromValuesKeepsInstants(updated: Option<DateTime>, created: Option<DateTime>, count: int)
    requires ValidInput(updated) && ValidInput(created)
    ensures FromValues(updated, created, count).Ok? <==>
            && count >= 0 && OrEmpty(updated).Aware? && OrEmpty(created).Aware?
            && InRange(Instant(OrEmpty(updated))) && InRange(Instant(OrEmpty(created)))
    ensures FromValues(updated, created, count).Ok? ==>
              var v := FromValues(updated, created, count).value;
              && Micros(v.updatedAt) == Instant(OrEmpty(updated))
              && Micros(v.createdAt) == Instant(OrEmpty(created))
              && v.count == count
  {
  }

  // ----- printing

  function PrintDate(c: Civil): string {
    Pad(c.year, 4) + "-" + Pad(c.month, 2) + "-" + Pad(c.day, 2)
  }

  function PrintTime(c: Civil): string {
    Pad(c.hour, 2) + ":" + Pad(c.minute, 2) + ":" + Pad(c.second, 2) + "." + Pad(c.micro, 6)
  }

  function PrintLocal(c: Civil): string {
    PrintDate(c) + "T" + PrintTime(c)
  }

  function PrintOffset(offset: int): string {
    var m := if offset < 0 then -offset else offset;
    (if offset < 0 then "-" else "+") + Pad(m / 60, 2) + ":" + Pad(m % 60, 2)
  }

  /** isoformat(timespec="microseconds"). */
  function PrintDateTime(d: DateTime): string {
    match d
    case Naive(c) => PrintLocal(c)
    case Aware(c, o) => PrintLocal(c) + PrintOffset(o)
  }

  function Spell(updated: DateTime, created: DateTime, count: nat): string {
    Join([PrintDateTime(updated), PrintDateTime(created), Print(count)], '|')
  }

  function Encode(v: Version): string {
    Spell(Aware(v.updatedAt, 0), Aware(v.createdAt, 0), v.count)
  }

  // ----- parsing

  /** The number spelled by s[i..j], when that is all digits. */
  function Field(s: string, i: nat, j: nat): Option<nat>
    requires i <= j <= |s|
  {
    if AllDigits(s[i..j]) then Some(Value(s[i..j])) else None
  }

  function ParseDate(s: string): Option<(nat, nat, nat)>
    requires |s| == 10
  {
    if s[4] != '-' || s[7] != '-' then None
    else match (Field(s, 0, 4), Field(s, 5, 7), Field(s, 8, 10))
      case (Some(y), Some(m), Some(d)) => Some((y, m, d))
      case _ => None
  }

  function ParseTime(s: string): Option<(nat, nat, nat, nat)>
    requires |s| == 15
  {
    if s[2] != ':' || s[5] != ':' || s[8] != '.' then None
    else match (Field(s, 0, 2), Field(s, 3, 5), Field(s, 6, 8), Field(s, 9, 15))
      case (Some(h), Some(m), Some(se), Some(us)) => Some((h, m, se, us))
      case _ => None
  }

  function ParseLocal(s: string): (r: Option<Civil>)
    requires |s| == 26
    ensures r.Some? ==> ValidCivil(r.value)
  {
    if s[10] != 'T' then None
    else match (ParseDate(s[..10]), ParseTime(s[11..]))
      case (Some(d), Some(t)) =>
        var c := Civil(d.0, d.1, d.2, t.0, t.1, t.2, t.3);
        if ValidCivil(c) then Some(c) else None
      case _ => None
  }

  function ParseOffset(s: string): (r: Option<int>)
    requires |s| == 6
    ensures r.Some? ==> -1440 < r.value < 1440
  {
    if (s[0] != '+' && s[0] != '-') || s[3] != ':' then None
    else match (Field(s, 1, 3), Field(s, 4, 6))
      case (Some(h), Some(m)) =>
        if h < 24 && m < 60 then
          var minutes: int := 60 * h + m;
          Some(if s[0] == '-' then -minutes else minutes)
        else None
      case _ => None
  }

  /** datetime.fromisoformat on the fixed layout above, with or without an offset. */
  function ParseDateTime(s: string): (r: Option<DateTime>)
    ensures r.Some? ==> ValidDateTime(r.value)
  {
    if |s| == 26 then
      match ParseLocal(s) case Some(c) => Some(Naive(c)) case None => None
    else if |s| == 32 then
      match (ParseLocal(s[..26]), ParseOffset(s[26..]))
      case (Some(c), Some(o)) => Some(Aware(c, o))
      case _ => None
    else None
  }

  /** int(s) on plain digits with an optional minus sign. */
  function ParseInt(s: string): Option<int> {
    if s == [] then None
    else if AllDigits(s) then Some(Value(s))
    else if s[0] == '-' && |s| > 1 && AllDigits(s[1..]) then (var n: int := Value(s[1..]); Some(-n))
    else None
  }

  /** What decode makes of the three parsed parts. */
  function Assemble(updated: Option<DateTime>, created: Option<DateTime>, count: Option<int>): (r: Result<Version, Error>)
    requires ValidInput(updated) && ValidInput(created)
    ensures r.Ok? ==> Valid(r.value)
    ensures r.Err? ==> r.error in {InvalidVersion, OutOfRange}
  {
    if updated.None? || created.None? || count.None? then Err(InvalidVersion)
    else
      var r := FromValues(updated, created, count.value);
      if r.Err? && r.error != OutOfRange then Err(InvalidVersion) else r
  }

  function Decode(s: string): (r: Result<Version, Error>)
    ensures r.Ok? ==> Valid(r.value)
    ensures r.Err? ==> r.error in {InvalidVersion, OutOfRange}
  {
    var parts := Split(s, '|');
    if |parts| != 3 then Err(InvalidVersion)
    else Assemble(ParseDateTime(parts[0]), ParseDateTime(parts[1]), ParseInt(parts[2]))
  }

  // ----- printing and parsing undo each other

  lemma FieldOfPad(s: string, i: nat, j: nat, n: nat)
    requires i < j <= |s| && n < Pow10(j - i) && s[i..j] == Pad(n, j - i)
    ensures Field(s, i, j) == Some(n)
  {
    ValueOfPad(n, j - i);
  }

  lemma Widths()
    ensures Pow10(2) == 100 && Pow10(4) == 10_000 && Pow10(6) == 1_000_000
  {
    assert Pow10(0) == 1 && Pow10(1) == 10 && Pow10(2) == 100;
    assert Pow10(3) == 1000 && Pow10(4) == 10_000 && Pow10(5) == 100_000;
  }

  lemma ParsePrintDate(c: Civil)
    requires ValidCivil(c)
    ensures |PrintDate(c)| == 10
    ensures ParseDate(PrintDate(c)) == Some((c.year, c.month, c.day))
  {
    hide Pad;
    Widths();
    PadLength(c.year, 4);
    PadLength(c.month, 2);
    PadLength(c.day, 2);
    var s := PrintDate(c);
    assert s[0..4] == Pad(c.year, 4) && s[5..7] == Pad(c.month, 2) && s[8..10] == Pad(c.day, 2);
    FieldOfPad(s, 0, 4, c.year);
    FieldOfPad(s, 5, 7, c.month);
    FieldOfPad(s, 8, 10, c.day);
  }

  lemma ParsePrintTime(c: Civil)
    requires ValidCivil(c)
    ensures |PrintTime(c)| == 15
    ensures ParseTime(PrintTime(c)) == Some((c.hour, c.minute, c.second, c.micro))
  {
    hide Pad;
    Widths();
    PadLength(c.hour, 2);
    PadLength(c.minute, 2);
    PadLength(c.second, 2);
    PadLength(c.micro, 6);
    var s := PrintTime(c);
    assert s[0..2] == Pad(c.hour, 2) && s[3..5] == Pad(c.minute, 2);
    assert s[6..8] == Pad(c.second, 2) && s[9..15] == Pad(c.micro, 6);
    FieldOfPad(s, 0, 2, c.hour);
    FieldOfPad(s, 3, 5, c.minute);
    FieldOfPad(s, 6, 8, c.second);
    FieldOfPad(s, 9, 15, c.micro);
  }

  lemma ParsePrintLocal(c: Civil)
    requires ValidCivil(c)
    ensures |PrintLocal(c)| == 26
    ensures ParseLocal(PrintLocal(c)) == Some(c)
  {
    ParsePrintDate(c);
    ParsePrintTime(c);
    var s := PrintLocal(c);
    assert s[..10] == PrintDate(c) && s[11..] == PrintTime(c);
  }

  lemma ParsePrintOffset(offset: int)
    requires -1440 < offset < 1440
    ensures |PrintOffset(offset)| == 6
    ensures ParseOffset(PrintOffset(offset)) == Some(offset)
  {
    hide Pad;
    Widths();
    var m := if offset < 0 then -offset else offset;
    PadLength(m / 60, 2);
    PadLength(m % 60, 2);
    var s := PrintOffset(offset);
    assert s[1..3] == Pad(m / 60, 2) && s[4..6] == Pad(m % 60, 2);
    FieldOfPad(s, 1, 3, m / 60);
    FieldOfPad(s, 4, 6, m % 60);
  }

  lemma ParsePrintDateTime(d: DateTime)
    requires ValidDateTime(d)
    ensures ParseDateTime(PrintDateTime(d)) == Some(d)
  {
    ParsePrintLocal(d.local);
    if d.Aware? {
      ParsePrintOffset(d.offset);
      var s := PrintDateTime(d);
      assert s[..26] == PrintLocal(d.local) && s[26..] == PrintOffset(d.offset);
    }
  }

  lemma NoBarInDigits(s: string)
    requires AllDigits(s)
    ensures '|' !in s
  {
  }

  lemma NoBarInLocal(c: Civil)
    ensures '|' !in PrintLocal(c)
  {
    NoBarInDigits(Pad(c.year, 4));
    NoBarInDigits(Pad(c.month, 2));
    NoBarInDigits(Pad(c.day, 2));
    assert '|' !in PrintDate(c);
    NoBarInDigits(Pad(c.hour, 2));
    NoBarInDigits(Pad(c.minute, 2));
    NoBarInDigits(Pad(c.second, 2));
    NoBarInDigits(Pad(c.micro, 6));
    assert '|' !in PrintTime(c);
  }

  lemma NoBarInOffset(offset: int)
    ensures '|' !in PrintOffset(offset)
  {
    var m := if offset < 0 then -offset else offset;
    NoBarInDigits(Pad(m / 60, 2));
    NoBarInDigits(Pad(m % 60, 2));
  }

  lemma SpellSplits(updated: DateTime, created: DateTime, count: nat)
    ensures Split(Spell(updated, created, count), '|') == [PrintDateTime(updated), PrintDateTime(created), Print(count)]
  {
    NoBarInLocal(updated.local);
    NoBarInLocal(created.local);
    if updated.Aware? { NoBarInOffset(updated.offset); }
    if created.Aware? { NoBarInOffset(created.offset); }
    NoBarInDigits(Print(count));
    SplitJoin([PrintDateTime(updated), PrintDateTime(created), Print(count)], '|');
  }

  lemma ParsePrintInt(n: nat)
    ensures ParseInt(Print(n)) == Some(n)
  {
  }

  /** Decoding any spelling of a version gives what from_values gives for the values spelled. */
  lemma DecodeSpell(updated: DateTime, created: DateTime, count: nat)
    requires ValidDateTime(updated) && ValidDateTime(created)
    ensures Decode(Spell(updated, created, count)) == Assemble(Some(updated), Some(created), Some(count))
  {
    ParsePrintDateTime(updated);
    ParsePrintDateTime(created);
    ParsePrintInt(count);
    SpellSplits(updated, created, count);
  }

  // ----- the form of the string

  lemma FieldIsPadded(s: string, i: nat, j: nat)
    requires i < j <= |s| && Field(s, i, j).Some?
    ensures s[i..j] == Pad(Field(s, i, j).value, j - i)
  {
    PadOfValue(s[i..j]);
  }

  lemma DatePieces(s: string)
    requires |s| == 10
    ensures s == s[0..4] + [s[4]] + s[5..7] + [s[7]] + s[8..10]
  {
  }

  lemma TimePieces(s: string)
    requires |s| == 15
    ensures s == s[0..2] + [s[2]] + s[3..5] + [s[5]] + s[6..8] + [s[8]] + s[9..15]
  {
  }

  lemma ParsedDateIsPrinted(s: string)
    requires |s| == 10 && ParseDate(s).Some?
    ensures var (y, m, d) := ParseDate(s).value; s == Pad(y, 4) + "-" + Pad(m, 2) + "-" + Pad(d, 2)
  {
    hide Field, Pad;
    FieldIsPadded(s, 0, 4);
    FieldIsPadded(s, 5, 7);
    FieldIsPadded(s, 8, 10);
    DatePieces(s);
  }

  lemma ParsedTimeIsPrinted(s: string)
    requires |s| == 15 && ParseTime(s).Some?
    ensures var (h, m, se, us) := ParseTime(s).value; s == Pad(h, 2) + ":" + Pad(m, 2) + ":" + Pad(se, 2) + "." + Pad(us, 6)
  {
    hide Field, Pad;
    FieldIsPadded(s, 0, 2);
    FieldIsPadded(s, 3, 5);
    FieldIsPadded(s, 6, 8);
    FieldIsPadded(s, 9, 15);
    TimePieces(s);
  }

  lemma LocalPieces(s: string)
    requires |s| == 26
    ensures s == s[..10] + [s[10]] + s[11..]
  {
  }

  lemma ParsedLocalIsPrinted(s: string)
    requires |s| == 26 && ParseLocal(s).Some?
    ensures s == PrintLocal(ParseLocal(s).value)
  {
    hide ParseDate, ParseTime, Pad, ValidCivil;
    ParsedDateIsPrinted(s[..10]);
    ParsedTimeIsPrinted(s[11..]);
    LocalPieces(s);
  }

  lemma ZeroOffset()
    ensures PrintOffset(0) == "+00:00" && Pad(0, 2) == "00"
  {
    assert Print(0) == "0" && Pad(0, 2) == "00";
  }

  lemma OffsetPieces(s: string)
    requires |s| == 6
    ensures s == [s[0]] + s[1..3] + [s[3]] + s[4..6]
  {
  }

  lemma ParsedOffsetIsPrinted(s: string)
    requires |s| == 6 && ParseOffset(s).Some?
    ensures s == PrintOffset(ParseOffset(s).value) || (s == "-00:00" && ParseOffset(s).value == 0)
  {
    hide Field, Pad;
    FieldIsPadded(s, 1, 3);
    FieldIsPadded(s, 4, 6);
    OffsetPieces(s);
    var h, m := Field(s, 1, 3).value, Field(s, 4, 6).value;
    assert (60 * h + m) / 60 == h && (60 * h + m) % 60 == m;
    ZeroOffset();
  }

  /** The parser takes nothing but what the printer prints, up to the sign of a zero offset. */
  lemma ParsedDateTimeIsPrinted(s: string)
    requires ParseDateTime(s).Some?
    ensures s == PrintDateTime(ParseDateTime(s).value)
            || (|s| == 32 && s[26..] == "-00:00" && s[..26] + "+00:00" == PrintDateTime(ParseDateTime(s).value))
  {
    if |s| == 26 {
      ParsedLocalIsPrinted(s);
    } else {
      ParsedLocalIsPrinted(s[..26]);
      ParsedOffsetIsPrinted(s[26..]);
      hide ParseLocal, ParseOffset, PrintLocal;
      assert s == s[..26] + s[26..];
      if s[26..] == "-00:00" { ZeroOffset(); }
    }
  }

  lemma DateForm(c: Civil)
    requires ValidCivil(c)
    ensures var s := PrintDate(c);
            && |s| == 10 && s[4] == '-' && s[7] == '-'
            && s[..4] == Pad(c.year, 4) && s[5..7] == Pad(c.month, 2) && s[8..] == Pad(c.day, 2)
  {
    hide Pad;
    Widths();
    PadLength(c.year, 4);
    PadLength(c.month, 2);
    PadLength(c.day, 2);
  }

  lemma TimeForm(c: Civil)
    requires ValidCivil(c)
    ensures var s := PrintTime(c);
            && |s| == 15 && s[2] == ':' && s[5] == ':' && s[8] == '.'
            && s[..2] == Pad(c.hour, 2) && s[3..5] == Pad(c.minute, 2) && s[6..8] == Pad(c.second, 2)
            && s[9..] == Pad(c.micro, 6)
  {
    hide Pad;
    Widths();
    PadLength(c.hour, 2);
    PadLength(c.minute, 2);
    PadLength(c.second, 2);
    PadLength(c.micro, 6);
  }

  lemma OffsetForm(offset: int)
    requires -1440 < offset < 1440
    ensures var s := PrintOffset(offset);
            && |s| == 6 && s[0] == (if offset < 0 then '-' else '+') && s[3] == ':'
            && s[1..3] == Pad((if offset < 0 then -offset else offset) / 60, 2)
            && s[4..] == Pad((if offset < 0 then -offset else offset) % 60, 2)
  {
    hide Pad;
    Widths();
    var m := if offset < 0 then -offset else offset;
    PadLength(m / 60, 2);
    PadLength(m % 60, 2);
  }

  /** A printed timestamp: a date, the letter T, a time and an offset, each in the layout above, which is
      the date-time form of section 5.6 of RFC 3339. */
  lemma PrintedForm(c: Civil, offset: int)
    requires ValidCivil(c) && -1440 < offset < 1440
    ensures var s := PrintDateTime(Aware(c, offset));
            && |s| == 32 && s[10] == 'T'
            && s[..10] == PrintDate(c) && s[11..26] == PrintTime(c) && s[26..] == PrintOffset(offset)
  {
    hide PrintDate, PrintTime, PrintOffset;
    DateForm(c);
    TimeForm(c);
    OffsetForm(offset);
  }

  /** A count is read from digits, after a minus sign as the negative number, and from nothing else. */
  lemma ParseIntReads(s: string)
    ensures ParseInt(s).Some? <==> (s != "" && AllDigits(s)) || (|s| > 1 && s[0] == '-' && AllDigits(s[1..]))
    ensures s != "" && AllDigits(s) ==>
              var n: int := Value(s);
              ParseInt(s) == Some(n) && ParseInt("-" + s) == Some(-n)
  {
    assert ("-" + s)[1..] == s;
  }

  /** The three parts of a version, in order. */
  lemma EncodedParts(v: Version)
    requires Valid(v)
    ensures Split(Encode(v), '|') == [PrintDateTime(Aware(v.updatedAt, 0)), PrintDateTime(Aware(v.createdAt, 0)), Print(v.count)]
    ensures Encode(v) == PrintDateTime(Aware(v.updatedAt, 0)) + "|" + PrintDateTime(Aware(v.createdAt, 0)) + "|" + Print(v.count)
  {
    SpellSplits(Aware(v.updatedAt, 0), Aware(v.createdAt, 0), v.count);
    hide PrintDateTime, Print;
    JoinThree(PrintDateTime(Aware(v.updatedAt, 0)), PrintDateTime(Aware(v.createdAt, 0)), Print(v.count), '|');
  }

  /** Which error from_values raises, and that decode raises the documented one for anything it cannot read. */
  lemma ErrorsMeanWhatTheySay(updated: Option<DateTime>, created: Option<DateTime>, count: int, s: string)
    requires ValidInput(updated) && ValidInput(created)
    ensures count < 0 <==> FromValues(updated, created, count) == Err(NegativeCount)
    ensures FromValues(updated, created, count) == Err(NaiveUpdated) <==> count >= 0 && updated.Some? && updated.value.Naive?
    ensures FromValues(updated, created, count) == Err(NaiveCreated) <==>
            count >= 0 && !(updated.Some? && updated.value.Naive?) && created.Some? && created.value.Naive?
    ensures |Split(s, '|')| != 3 ==> Decode(s) == Err(InvalidVersion)
    ensures |Split(s, '|')| == 3 && ParseDateTime(Split(s, '|')[0]).None? ==> Decode(s) == Err(InvalidVersion)
    ensures |Split(s, '|')| == 3 && ParseDateTime(Split(s, '|')[1]).None? ==> Decode(s) == Err(InvalidVersion)
    ensures |Split(s, '|')| == 3 && ParseInt(Split(s, '|')[2]).None? ==> Decode(s) == Err(InvalidVersion)
  {
    hide ToUtc, ParseDateTime, ParseInt;
  }

  /** An empty table reads as the first of January 1970, and zero. */
  lemma EmptyTableIsTheEpoch()
    ensures FromValues(None, None, 0).Ok?
    ensures var v := FromValues(None, None, 0).value; v.updatedAt == v.createdAt == Civil(1970, 1, 1, 0, 0, 0, 0) && v.count == 0
  {
    var epoch := Civil(1970, 1, 1, 0, 0, 0, 0);
    CivilAtMicros(epoch);
    FromValuesKeepsInstants(None, None, 0);
    MicrosInRange(epoch);
    hide Micros;
    var v := FromValues(None, None, 0).value;
    MicrosInjective(v.updatedAt, epoch);
    MicrosInjective(v.createdAt, epoch);
  }

  /** Round trip: a version read back is the version sent. */
  lemma DecodeEncode(v: Version)
    requires Valid(v)
    ensures Decode(Encode(v)) == Ok(v)
  {
    var u, c := Aware(v.updatedAt, 0), Aware(v.createdAt, 0);
    DecodeSpell(u, c, v.count);
    MicrosInRange(v.updatedAt);
    MicrosInRange(v.createdAt);
    FromValuesKeepsInstants(Some(u), Some(c), v.count);
    var w := FromValues(Some(u), Some(c), v.count).value;
    MicrosInjective(v.updatedAt, w.updatedAt);
    MicrosInjective(v.createdAt, w.createdAt);
  }

  lemma EncodeInjective(v: Version, w: Version)
    requires Valid(v) && Valid(w)
    requires Encode(v) == Encode(w)
    ensures v == w
  {
    DecodeEncode(v);
    DecodeEncode(w);
  }

  /** Two accepted inputs encode alike exactly when they name the same instants and the same count,
      whatever offsets they were written in. */
  lemma EncodeAlikeIffSameInstants(u1: DateTime, c1: DateTime, n1: int, u2: DateTime, c2: DateTime, n2: int)
    requires ValidDateTime(u1) && ValidDateTime(c1) && ValidDateTime(u2) && ValidDateTime(c2)
    requires FromValues(Some(u1), Some(c1), n1).Ok? && FromValues(Some(u2), Some(c2), n2).Ok?
    ensures Encode(FromValues(Some(u1), Some(c1), n1).value) == Encode(FromValues(Some(u2), Some(c2), n2).value)
            <==> Instant(u1) == Instant(u2) && Instant(c1) == Instant(c2) && n1 == n2
  {
    var v := FromValues(Some(u1), Some(c1), n1).value;
    var w := FromValues(Some(u2), Some(c2), n2).value;
    FromValuesKeepsInstants(Some(u1), Some(c1), n1);
    FromValuesKeepsInstants(Some(u2), Some(c2), n2);
    if Encode(v) == Encode(w) {
      EncodeInjective(v, w);
    }
    if Instant(u1) == Instant(u2) && Instant(c1) == Instant(c2) && n1 == n2 {
      MicrosInjective(v.updatedAt, w.updatedAt);
      MicrosInjective(v.createdAt, w.createdAt);
    }
  }

  /** decode turns bad input into the one documented error, except for a well-formed timestamp whose
      UTC instant falls off the calendar: for a spelled version, exactly that case raises OutOfRange. */
  lemma DecodeEscapesIffOutOfRange(updated: DateTime, created: DateTime, count: nat)
    requires ValidDateTime(updated) && ValidDateTime(created) && updated.Aware? && created.Aware?
    ensures Decode(Spell(updated, created, count)) == Err(OutOfRange)
            <==> !InRange(Instant(updated)) || !InRange(Instant(created))
  {
    DecodeSpell(updated, created, count);
    FromValuesKeepsInstants(Some(updated), Some(created), count);
  }

  /** Such inputs exist: the first instant of year 1 written one minute east of UTC. */
  lemma FirstInstantEastIsOutOfRange()
    ensures InRange(0) && ValidDateTime(Aware(CivilAt(0), 1)) && !InRange(Instant(Aware(CivilAt(0), 1)))
  {
  }

  /** The encoding of a dataset whose newest timestamps fall at these instants. */
  function EncodeInstants(updated: nat, created: nat, count: nat): string
    requires InRange(updated) && InRange(created)
  {
    Encode(Version(CivilAt(updated), CivilAt(created), count))
  }

  lemma EncodedInstantsDecode(updated: nat, created: nat, count: nat)
    requires InRange(updated) && InRange(created)
    ensures Decode(EncodeInstants(updated, created, count)) == Ok(Version(CivilAt(updated), CivilAt(created), count))
  {
    DecodeEncode(Version(CivilAt(updated), CivilAt(created), count));
  }

  lemma EncodeInstantsInjective(u1: nat, c1: nat, n1: nat, u2: nat, c2: nat, n2: nat)
    requires InRange(u1) && InRange(c1) && InRange(u2) && InRange(c2)
    requires EncodeInstants(u1, c1, n1) == EncodeInstants(u2, c2, n2)
    ensures u1 == u2 && c1 == c2 && n1 == n2
  {
    EncodeInjective(Version(CivilAt(u1), CivilAt(c1), n1), Version(CivilAt(u2), CivilAt(c2), n2));
  }
}
