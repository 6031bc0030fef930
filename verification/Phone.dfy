/** apps/company/models.py:621-875 and apps/crm/models.py:79-130: contact methods and internal phone
    endpoints, whose save() methods guard each other's numbers. */
module Phone {
  import opened Wrappers
  import Primary
  import Text

  /** Every contact method belongs to a company or to a person (contact_method_one_owner). */
  datatype Owner = CompanyOwner(company: nat) | PersonOwner(person: nat)

  datatype MethodType = Phone | Email

  datatype ContactMethod = ContactMethod(owner: Owner, methodType: MethodType, value: string, normalized: string, isPrimary: bool)

  datatype Endpoint = Endpoint(number: string, normalized: string, isActive: bool)

  /** Active person-company links are (person, company) pairs. */
  datatype State = State(methods: map<nat, ContactMethod>, endpoints: map<nat, Endpoint>, links: set<(nat, nat)>)

  /** The columns a partial save can name; `normalized_value` is always added to those of a contact method. */
  datatype Column = OwnerColumn | TypeColumn | ValueColumn | PrimaryColumn | NumberColumn | NormalizedColumn | ActiveColumn | OtherColumn

  datatype Error =
    | EmptyValue         // contact method requires a value / phone endpoint requires a number
    | OwnNumber          // an active internal endpoint has the number
    | OtherCompany       // a phone method of a different effective company has the number
    | MissingRow         // partial save of a row that is gone
    | DuplicateValue     // unique_company_/unique_person_contact_method_value
    | TwoPrimaries       // unique_company_/unique_person_primary_contact_method
    | DuplicateNumber    // normalized_number is unique
    | CompanyNumber      // endpoint number already belongs to a contact method
    | LinkNotFound       // no active link to remove
    | RemovalConflict    // removing the link would leave a phone in conflict

  // ----- normalization

  function Digits(s: string): (d: string)
    ensures Text.AllDigits(d)
  {
    if s == [] then [] else (if Text.IsDigit(s[0]) then [s[0]] else []) + Digits(s[1..])
  }

  function NormalizePhone(value: string): string {
    var d := Digits(value);
    if d == [] then ""
    else if |d| >= 2 && d[..2] == "64" then "+" + d
    else if d[0] == '0' && |d| > 1 then "+64" + d[1..]
    else "+" + d
  }

  lemma {:induction false} DigitsOfDigits(d: string)
    requires Text.AllDigits(d)
    ensures Digits(d) == d
  {
    if d != [] {
      DigitsOfDigits(d[1..]);
      assert d == [d[0]] + d[1..];
    }
  }

  /** A stored number is its own normal form, so a re-save never changes it. */
  lemma NormalizePhoneIdempotent(value: string)
    ensures NormalizePhone(NormalizePhone(value)) == NormalizePhone(value)
  {
    var n := NormalizePhone(value);
    if n != "" {
      assert n[0] == '+' && Text.AllDigits(n[1..]);
      DigitsOfDigits(n[1..]);
      assert Digits(n) == n[1..];
    }
  }

  function Lower(c: char): char {
    if 'A' <= c <= 'Z' then (c as int + 32) as char else c
  }

  /** The whitespace of ASCII. */
  predicate IsSpace(c: char) {
    9 <= c as int <= 13 || 28 <= c as int <= 32
  }

  function StripLeft(s: string): string {
    if s != [] && IsSpace(s[0]) then StripLeft(s[1..]) else s
  }

  function StripRight(s: string): string {
    if s != [] && IsSpace(s[|s| - 1]) then StripRight(s[..|s| - 1]) else s
  }

  /** strip().lower() on ASCII text. */
  function NormalizeEmail(value: string): string {
    var s := StripRight(StripLeft(value));
    seq(|s|, i requires 0 <= i < |s| => Lower(s[i]))
  }

  function Normalize(methodType: MethodType, value: string): string {
    if methodType == Phone then NormalizePhone(value) else NormalizeEmail(value)
  }

  lemma {:induction false} DigitsAppend(a: string, b: string)
    ensures Digits(a + b) == Digits(a) + Digits(b)
  {
    if a == [] {
      assert a + b == b;
    } else {
      assert (a + b)[1..] == a[1..] + b;
      DigitsAppend(a[1..], b);
    }
  }

  lemma {:induction false} NoDigits(s: string)
    requires forall i | 0 <= i < |s| :: !Text.IsDigit(s[i])
    ensures Digits(s) == ""
  {
    if s != [] {
      NoDigits(s[1..]);
    }
  }

  lemma SameDigitsSameNumber(a: string, b: string)
    requires Digits(a) == Digits(b)
    ensures NormalizePhone(a) == NormalizePhone(b)
  {
  }

  /** Spaces, dashes, brackets and a plus sign change nothing, wherever they stand. */
  lemma SeparatorsDoNotMatter(a: string, separators: string, b: string)
    requires forall i | 0 <= i < |separators| :: !Text.IsDigit(separators[i])
    ensures NormalizePhone(a + separators + b) == NormalizePhone(a + b)
  {
    hide NormalizePhone, Digits;
    DigitsAppend(a + separators, b);
    DigitsAppend(a, separators);
    DigitsAppend(a, b);
    NoDigits(separators);
    SameDigitsSameNumber(a + separators + b, a + b);
  }

  lemma NationalSpelling(d: string)
    requires Text.AllDigits(d) && d != ""
    ensures NormalizePhone("0" + d) == "+64" + d
  {
    DigitsOfDigits("0" + d);
    hide Digits;
    assert ("0" + d)[0] == '0' && ("0" + d)[..2] != "64";
  }

  lemma InternationalSpelling(d: string)
    requires Text.AllDigits(d)
    ensures NormalizePhone("64" + d) == "+64" + d
  {
    DigitsOfDigits("64" + d);
    hide Digits;
    assert ("64" + d)[..2] == "64";
    assert "+64" + d == "+" + ("64" + d);
  }

  lemma OtherSpelling(d: string)
    requires Text.AllDigits(d) && d != "" && (d[0] != '0' || |d| == 1) && !("64" <= d)
    ensures NormalizePhone(d) == "+" + d
  {
    DigitsOfDigits(d);
    hide Digits;
  }

  /** The national and the international spelling of a number are one number, "+64" and the rest; any
      other digits only gain the plus sign, and no digits at all are no number. */
  lemma SpellingsOfANumber(d: string)
    requires Text.AllDigits(d) && d != ""
    ensures NormalizePhone("0" + d) == "+64" + d && NormalizePhone("64" + d) == "+64" + d
    ensures (d[0] != '0' || |d| == 1) && !("64" <= d) ==> NormalizePhone(d) == "+" + d
    ensures NormalizePhone("") == ""
  {
    NationalSpelling(d);
    InternationalSpelling(d);
    if (d[0] != '0' || |d| == 1) && !("64" <= d) { OtherSpelling(d); }
  }

  predicate AllSpace(s: string) {
    forall i | 0 <= i < |s| :: IsSpace(s[i])
  }

  lemma {:induction false} StripLeftIs(left: string, rest: string)
    requires AllSpace(left) && (rest != "" ==> !IsSpace(rest[0]))
    ensures StripLeft(left + rest) == rest
  {
    if left == "" {
      assert left + rest == rest;
    } else {
      assert (left + rest)[1..] == left[1..] + rest;
      StripLeftIs(left[1..], rest);
    }
  }

  lemma {:induction false} StripRightIs(rest: string, right: string)
    requires AllSpace(right) && (rest != "" ==> !IsSpace(rest[|rest| - 1]))
    ensures StripRight(rest + right) == rest
  {
    if right == "" {
      assert rest + right == rest;
    } else {
      var s := rest + right;
      assert s[..|s| - 1] == rest + right[..|right| - 1];
      StripRightIs(rest, right[..|right| - 1]);
    }
  }

  /** An address is the value without the whitespace around it, in small letters. */
  lemma EmailSpelling(left: string, address: string, right: string)
    requires AllSpace(left) && AllSpace(right)
    requires address != "" ==> !IsSpace(address[0]) && !IsSpace(address[|address| - 1])
    ensures forall c :: IsSpace(c) <==> c as int in {9, 10, 11, 12, 13, 28, 29, 30, 31, 32}
    ensures var r := NormalizeEmail(left + address + right);
            && |r| == |address|
            && forall i | 0 <= i < |r| ::
                 r[i] as int == if 'A' <= address[i] <= 'Z' then address[i] as int + 32 else address[i] as int
  {
    if address != "" {
      assert left + address + right == left + (address + right);
      StripLeftIs(left, address + right);
      StripRightIs(address, right);
    } else {
      assert left + address + right == left + right + "";
      StripLeftIs(left + right, "");
    }
  }

  // ----- who owns a number

  /** owner_company_ids: the companies a method can be traced to through its owner. */
  function OwnerCompanies(s: State, owner: Owner): set<nat> {
    match owner
    case CompanyOwner(c) => {c}
    case PersonOwner(p) => set l | l in s.links && l.0 == p :: l.1
  }

  predicate Disjoint(a: set<nat>, b: set<nat>) {
    a * b == {}
  }

  /** conflicting_company: some phone method other than `exclude` has the number and shares no company. */
  predicate ConflictingCompany(s: State, number: string, companies: set<nat>, exclude: Option<nat>) {
    exists k | k in s.methods ::
      && exclude != Some(k)
      && s.methods[k].methodType == Phone && s.methods[k].normalized == number
      && Disjoint(OwnerCompanies(s, s.methods[k].owner), companies)
  }

  predicate OwnNumberInUse(s: State, number: string) {
    exists e | e in s.endpoints :: s.endpoints[e].isActive && s.endpoints[e].normalized == number
  }

  /** The check proper, without the exemption for unchanged rows. */
  function Guard(s: State, id: nat, number: string, owner: Owner): Option<Error> {
    if OwnNumberInUse(s, number) then Some(OwnNumber)
    else if ConflictingCompany(s, number, OwnerCompanies(s, owner), Some(id)) then Some(OtherCompany)
    else None
  }

  /** An existing row whose stored number and owner match the proposal; the stored type is not compared. */
  predicate Grandfathered(s: State, id: nat, number: string, owner: Owner) {
    id in s.methods && s.methods[id].normalized == number && s.methods[id].owner == owner
  }

  function CheckPhoneAssignment(s: State, id: nat, number: string, owner: Owner): Option<Error> {
    if Grandfathered(s, id, number, owner) then None else Guard(s, id, number, owner)
  }

  // ----- ContactMethod.save

  /** The primary slot of a method: its owner and type. */
  function Slot(m: ContactMethod): Option<(Owner, MethodType)> {
    if m.isPrimary then Some((m.owner, m.methodType)) else None
  }

  function Demoted(m: ContactMethod): ContactMethod {
    m.(isPrimary := false)
  }

  /** The row that a partial save stores. */
  function Written(stored: ContactMethod, inst: ContactMethod, columns: set<Column>): ContactMethod {
    ContactMethod(
      if OwnerColumn in columns then inst.owner else stored.owner,
      if TypeColumn in columns then inst.methodType else stored.methodType,
      if ValueColumn in columns then inst.value else stored.value,
      inst.normalized,
      if PrimaryColumn in columns then inst.isPrimary else stored.isPrimary)
  }

  function RowFor(s: State, id: nat, inst: ContactMethod, columns: Option<set<Column>>): ContactMethod {
    if columns.None? || id !in s.methods then inst else Written(s.methods[id], inst, columns.value)
  }

  predicate SameValueTaken(methods: map<nat, ContactMethod>, id: nat, row: ContactMethod) {
    exists k | k in methods :: k != id && methods[k].owner == row.owner
      && methods[k].methodType == row.methodType && methods[k].normalized == row.normalized
  }

  predicate PrimaryTaken(methods: map<nat, ContactMethod>, id: nat, row: ContactMethod) {
    row.isPrimary && exists k | k in methods :: k != id && Slot(methods[k]) == Slot(row)
  }

  /** The write, with the table's unique constraints. */
  function Store(s: State, methods: map<nat, ContactMethod>, id: nat, row: ContactMethod): Result<State, Error> {
    if SameValueTaken(methods, id, row) then Err(DuplicateValue)
    else if PrimaryTaken(methods, id, row) then Err(TwoPrimaries)
    else Ok(s.(methods := methods[id := row]))
  }

  function SaveMethod(s: State, id: nat, given: ContactMethod, columns: Option<set<Column>>): Result<State, Error> {
    var inst := given.(normalized := Normalize(given.methodType, given.value));
    if inst.normalized == "" then Err(EmptyValue)
    else
      var refused := if inst.methodType == Phone then CheckPhoneAssignment(s, id, inst.normalized, inst.owner) else None;
      if refused.Some? then Err(refused.value)
      else
        var methods := Primary.Demotion(s.methods, id, inst, Slot, Demoted);
        if columns == Some({}) then Ok(s.(methods := methods))
        else if id !in s.methods && columns.Some? then Err(MissingRow)
        else Store(s, methods, id, RowFor(s, id, inst, columns))
  }

  /** What a refused save leaves behind: the demotion, when it was the write that failed and no caller's
      transaction rolls it back. */
  function Leftover(s: State, id: nat, given: ContactMethod, error: Error, atomic: bool): State {
    if atomic || error in {EmptyValue, OwnNumber, OtherCompany} then s
    else s.(methods := Primary.Demotion(s.methods, id, given, Slot, Demoted))
  }

  // ----- PhoneEndpoint.save

  function EndpointRow(s: State, id: nat, inst: Endpoint, columns: Option<set<Column>>): Endpoint {
    if columns.None? || id !in s.endpoints then inst
    else
      var row, c := s.endpoints[id], columns.value;
      Endpoint(if NumberColumn in c then inst.number else row.number,
               if NormalizedColumn in c then inst.normalized else row.normalized,
               if ActiveColumn in c then inst.isActive else row.isActive)
  }

  predicate ActiveNumberChanged(s: State, id: nat, inst: Endpoint) {
    id !in s.endpoints || s.endpoints[id].normalized != inst.normalized || s.endpoints[id].isActive != inst.isActive
  }

  function SaveEndpoint(s: State, id: nat, given: Endpoint, columns: Option<set<Column>>): Result<State, Error> {
    var inst := given.(normalized := NormalizePhone(given.number));
    if inst.normalized == "" then Err(EmptyValue)
    else if inst.isActive && ActiveNumberChanged(s, id, inst) && ConflictingCompany(s, inst.normalized, {}, None) then Err(CompanyNumber)
    else if columns == Some({}) then Ok(s)
    else if id !in s.endpoints && columns.Some? then Err(MissingRow)
    else
      var row := EndpointRow(s, id, inst, columns);
      if exists k | k in s.endpoints :: k != id && s.endpoints[k].normalized == row.normalized then Err(DuplicateNumber)
      else Ok(s.(endpoints := s.endpoints[id := row]))
  }

  // ----- which saves are accepted, and what they store

  predicate Named(columns: Option<set<Column>>, c: Column) {
    columns.None? || c in columns.value
  }

  lemma CompaniesOfOwners(s: State, company: nat)
    ensures forall c: nat :: company in OwnerCompanies(s, CompanyOwner(c)) <==> company == c
    ensures forall p: nat :: company in OwnerCompanies(s, PersonOwner(p)) <==> (p, company) in s.links
  {
    forall p: nat ensures company in OwnerCompanies(s, PersonOwner(p)) <==> (p, company) in s.links {
      if (p, company) in s.links { assert (p, company).0 == p && (p, company).1 == company; }
    }
  }

  /** The number is free for this owner: no active line of our own has it, and every other phone that has
      it shares a company. */
  lemma GuardPassesIff(s: State, id: nat, number: string, owner: Owner)
    ensures Guard(s, id, number, owner) == None <==>
            && (forall e | e in s.endpoints && s.endpoints[e].isActive :: s.endpoints[e].normalized != number)
            && (forall k | k in s.methods && k != id && s.methods[k].methodType == Phone && s.methods[k].normalized == number ::
                  exists c :: c in OwnerCompanies(s, s.methods[k].owner) && c in OwnerCompanies(s, owner))
  {
    forall a: set<nat>, b: set<nat> ensures Disjoint(a, b) <==> !exists c :: c in a && c in b {
      if c :| c in a && c in b { assert c in a * b; }
    }
  }

  lemma DemotionKeepsValues(s: State, id: nat, inst: ContactMethod, row: ContactMethod)
    ensures SameValueTaken(Primary.Demotion(s.methods, id, inst, Slot, Demoted), id, row) <==> SameValueTaken(s.methods, id, row)
  {
    var methods := Primary.Demotion(s.methods, id, inst, Slot, Demoted);
    forall k | k in s.methods
      ensures k in methods && methods[k].owner == s.methods[k].owner && methods[k].methodType == s.methods[k].methodType
              && methods[k].normalized == s.methods[k].normalized {
    }
  }

  /** Exactly which full saves of a contact method are accepted. A phone passes when its number and owner
      are as stored, or its number is free for its owner; and no other row of the owner has the value. */
  lemma FullSaveAcceptedIff(s: State, id: nat, given: ContactMethod)
    requires Primary.AtMostOne(s.methods, Slot)
    ensures var value := Normalize(given.methodType, given.value);
            SaveMethod(s, id, given, None).Ok? <==>
            && value != ""
            && (|| given.methodType == Email
                || (id in s.methods && s.methods[id].normalized == value && s.methods[id].owner == given.owner)
                || Guard(s, id, value, given.owner) == None)
            && (forall k | k in s.methods && k != id && s.methods[k].owner == given.owner
                        && s.methods[k].methodType == given.methodType :: s.methods[k].normalized != value)
  {
    hide Normalize, Guard;
    var inst := given.(normalized := Normalize(given.methodType, given.value));
    var methods := Primary.Demotion(s.methods, id, inst, Slot, Demoted);
    assert !PrimaryTaken(methods, id, inst);
    DemotionKeepsValues(s, id, inst, inst);
  }

  /** A partial save is checked by the instance, needs its row, and meets the constraints as it is stored. */
  lemma PartialSaveAcceptedIff(s: State, id: nat, given: ContactMethod, columns: set<Column>)
    requires columns != {}
    ensures var value := Normalize(given.methodType, given.value);
            SaveMethod(s, id, given, Some(columns)).Ok? <==>
            && value != "" && id in s.methods
            && (|| given.methodType == Email
                || (s.methods[id].normalized == value && s.methods[id].owner == given.owner)
                || Guard(s, id, value, given.owner) == None)
            && var owner := if OwnerColumn in columns then given.owner else s.methods[id].owner;
               var kind := if TypeColumn in columns then given.methodType else s.methods[id].methodType;
               var flag := if PrimaryColumn in columns then given.isPrimary else s.methods[id].isPrimary;
            && (forall k | k in s.methods && k != id && s.methods[k].owner == owner && s.methods[k].methodType == kind ::
                  s.methods[k].normalized != value)
            && (flag && !(given.isPrimary && given.owner == owner && given.methodType == kind) ==>
                  forall k | k in s.methods && k != id && s.methods[k].owner == owner && s.methods[k].methodType == kind ::
                    !s.methods[k].isPrimary)
  {
    hide Normalize, Guard;
    var inst := given.(normalized := Normalize(given.methodType, given.value));
    var methods := Primary.Demotion(s.methods, id, inst, Slot, Demoted);
    if id in s.methods {
      var row := Written(s.methods[id], inst, columns);
      DemotionKeepsValues(s, id, inst, row);
      assert PrimaryTaken(methods, id, row) <==>
        Slot(row).Some? && Slot(row) != Slot(inst) && exists k | k in s.methods :: k != id && Slot(s.methods[k]) == Slot(row) by {
        if k :| k in s.methods && k != id && Slot(s.methods[k]) == Slot(row) && Slot(row) != Slot(inst) {
          assert methods[k] == s.methods[k];
        }
      }
    }
  }

  /** What an accepted save leaves: the named columns of the instance in its row and the normalized value
      always, the flag of the primary it displaces cleared, and everything else as it was. */
  lemma SaveStores(s: State, id: nat, given: ContactMethod, columns: Option<set<Column>>)
    requires SaveMethod(s, id, given, columns).Ok? && columns != Some({})
    ensures var t := SaveMethod(s, id, given, columns).value;
            && t.methods.Keys == s.methods.Keys + {id} && t.endpoints == s.endpoints && t.links == s.links
            && (Named(columns, OwnerColumn) || id !in s.methods ==> t.methods[id].owner == given.owner)
            && (Named(columns, TypeColumn) || id !in s.methods ==> t.methods[id].methodType == given.methodType)
            && (Named(columns, ValueColumn) || id !in s.methods ==> t.methods[id].value == given.value)
            && (Named(columns, PrimaryColumn) || id !in s.methods ==> t.methods[id].isPrimary == given.isPrimary)
            && (id in s.methods ==>
                  && (!Named(columns, OwnerColumn) ==> t.methods[id].owner == s.methods[id].owner)
                  && (!Named(columns, TypeColumn) ==> t.methods[id].methodType == s.methods[id].methodType)
                  && (!Named(columns, ValueColumn) ==> t.methods[id].value == s.methods[id].value)
                  && (!Named(columns, PrimaryColumn) ==> t.methods[id].isPrimary == s.methods[id].isPrimary))
            && t.methods[id].normalized == (if given.methodType == Phone then NormalizePhone(given.value) else NormalizeEmail(given.value))
            && forall k | k in s.methods && k != id ::
                 if given.isPrimary && s.methods[k].isPrimary
                    && s.methods[k].owner == given.owner && s.methods[k].methodType == given.methodType
                 then t.methods[k] == s.methods[k].(isPrimary := false) else t.methods[k] == s.methods[k]
  {
    hide NormalizePhone, NormalizeEmail, CheckPhoneAssignment, SameValueTaken, PrimaryTaken;
  }

  lemma NumberHeldByAContact(s: State, number: string)
    ensures ConflictingCompany(s, number, {}, None) <==>
            exists k | k in s.methods :: s.methods[k].methodType == Phone && s.methods[k].normalized == number
  {
    forall k | k in s.methods ensures Disjoint(OwnerCompanies(s, s.methods[k].owner), {}) {
    }
  }

  /** Exactly which endpoint saves are accepted: an active number must be as stored or no contact's, the
      row must exist for a partial save, and the stored number must be no other endpoint's. */
  lemma EndpointSaveAcceptedIff(s: State, id: nat, given: Endpoint, columns: Option<set<Column>>)
    ensures var number := NormalizePhone(given.number);
            SaveEndpoint(s, id, given, columns).Ok? <==>
            && number != ""
            && (|| !given.isActive
                || (id in s.endpoints && s.endpoints[id].normalized == number && s.endpoints[id].isActive)
                || forall k | k in s.methods && s.methods[k].methodType == Phone :: s.methods[k].normalized != number)
            && (columns == Some({}) ||
                (&& (columns.Some? ==> id in s.endpoints)
                 && forall k | k in s.endpoints && k != id ::
                      s.endpoints[k].normalized != if Named(columns, NormalizedColumn) then number else s.endpoints[id].normalized))
  {
    hide NormalizePhone;
    NumberHeldByAContact(s, NormalizePhone(given.number));
    hide ConflictingCompany;
  }

  lemma CheckErrors(s: State, id: nat, number: string, owner: Owner)
    ensures CheckPhoneAssignment(s, id, number, owner) in {None, Some(OwnNumber), Some(OtherCompany)}
  {
  }

  /** What each refusal of a contact save says about the tables. */
  lemma RefusalsMeanWhatTheySay(s: State, id: nat, given: ContactMethod, columns: Option<set<Column>>)
    requires SaveMethod(s, id, given, columns).Err?
    ensures var value := Normalize(given.methodType, given.value);
            match SaveMethod(s, id, given, columns).error
            case EmptyValue => value == ""
            case OwnNumber =>
              && given.methodType == Phone
              && exists e | e in s.endpoints :: s.endpoints[e].isActive && s.endpoints[e].normalized == value
            case OtherCompany =>
              && given.methodType == Phone
              && exists k | k in s.methods :: k != id && s.methods[k].methodType == Phone && s.methods[k].normalized == value
            case MissingRow => columns.Some? && id !in s.methods
            case DuplicateValue => exists k | k in s.methods :: k != id && s.methods[k].normalized == value
            case TwoPrimaries => exists k | k in s.methods :: k != id && s.methods[k].isPrimary
            case _ => false
  {
    hide Normalize;
    var inst := given.(normalized := Normalize(given.methodType, given.value));
    var methods := Primary.Demotion(s.methods, id, inst, Slot, Demoted);
    CheckErrors(s, id, inst.normalized, inst.owner);
    if k :| k in methods && k != id && methods[k].normalized == inst.normalized {
      assert k in s.methods && s.methods[k].normalized == inst.normalized;
    }
    if k :| k in methods && k != id && methods[k].isPrimary {
      assert k in s.methods && s.methods[k].isPrimary;
    }
  }

  lemma EndpointSaveStores(s: State, id: nat, given: Endpoint, columns: Option<set<Column>>)
    requires SaveEndpoint(s, id, given, columns).Ok? && columns != Some({})
    ensures var t := SaveEndpoint(s, id, given, columns).value;
            && t.endpoints.Keys == s.endpoints.Keys + {id} && t.methods == s.methods && t.links == s.links
            && (forall k | k in s.endpoints && k != id :: t.endpoints[k] == s.endpoints[k])
            && t.endpoints[id].number == (if Named(columns, NumberColumn) then given.number else s.endpoints[id].number)
            && t.endpoints[id].normalized ==
               (if Named(columns, NormalizedColumn) then NormalizePhone(given.number) else s.endpoints[id].normalized)
            && t.endpoints[id].isActive == (if Named(columns, ActiveColumn) then given.isActive else s.endpoints[id].isActive)
  {
    hide NormalizePhone, ConflictingCompany;
  }

  lemma BothSpellings(d: string)
    requires Text.AllDigits(d) && d != ""
    ensures NormalizePhone("0" + d) == NormalizePhone("+64 " + d) && NormalizePhone("0" + d) != ""
  {
    SpellingsOfANumber(d);
    SeparatorsDoNotMatter("", "+", "64 " + d);
    SeparatorsDoNotMatter("64", " ", d);
    assert "" + "+" + ("64 " + d) == "+64 " + d && "" + ("64 " + d) == "64" + " " + d;
    hide NormalizePhone;
  }

  /** A new contact is refused a number under one spelling while an active line of our own has it under
      another, whatever separators stand in it, and so is a new line a contact's number. */
  lemma OtherSpellingIsRefused(s: State, id: nat, e: nat, given: ContactMethod, line: Endpoint, d: string)
    requires Text.AllDigits(d) && d != ""
    requires given.methodType == Phone && given.value == "0" + d && id !in s.methods
    ensures e in s.endpoints && s.endpoints[e].isActive && s.endpoints[e].normalized == NormalizePhone("+64 " + d) ==>
            SaveMethod(s, id, given, None) == Err(OwnNumber)
    ensures e in s.methods && s.methods[e].methodType == Phone && s.methods[e].normalized == NormalizePhone("+64 " + d)
            && line.isActive && line.number == "0" + d && id !in s.endpoints ==>
            SaveEndpoint(s, id, line, None) == Err(CompanyNumber)
  {
    BothSpellings(d);
    var number := NormalizePhone("0" + d);
    hide NormalizePhone;
    if e in s.endpoints && s.endpoints[e].isActive && s.endpoints[e].normalized == number {
      assert OwnNumberInUse(s, number);
      hide ConflictingCompany, OwnNumberInUse, Primary.Demotion, SameValueTaken;
    }
    NumberHeldByAContact(s, number);
  }

  // ----- one number, one owner

  ghost predicate NoOwnNumberShared(s: State) {
    forall e, k | e in s.endpoints && k in s.methods ::
      s.endpoints[e].isActive && s.methods[k].methodType == Phone ==> s.endpoints[e].normalized != s.methods[k].normalized
  }

  ghost predicate OneNumberOneCompany(s: State) {
    forall j, k | j in s.methods && k in s.methods && j != k ::
      s.methods[j].methodType == Phone && s.methods[k].methodType == Phone && s.methods[j].normalized == s.methods[k].normalized ==>
      !Disjoint(OwnerCompanies(s, s.methods[j].owner), OwnerCompanies(s, s.methods[k].owner))
  }

  /** No active endpoint's number is a phone method's, and phone methods with one number share a company. */
  ghost predicate Ownership(s: State) {
    NoOwnNumberShared(s) && OneNumberOneCompany(s)
  }

  /** The row stored carries the owner, type and flag the check and the demotion looked at. */
  predicate Faithful(s: State, id: nat, given: ContactMethod, columns: Option<set<Column>>) {
    var row := RowFor(s, id, given, columns);
    columns != Some({}) && row.owner == given.owner && row.methodType == given.methodType && row.isPrimary == given.isPrimary
  }

  /** The one kind of save the exemption lets through unchecked although it adds a phone number: an
      e-mail row turned into a phone row with the same normalized value and owner. */
  predicate UncheckedRetype(s: State, id: nat, given: ContactMethod) {
    && given.methodType == Phone
    && Grandfathered(s, id, NormalizePhone(given.value), given.owner)
    && s.methods[id].methodType == Email
  }

  /** Rows other than the saved one keep owner, type and number, whoever is demoted. */
  predicate SameButPrimary(before: map<nat, ContactMethod>, after: map<nat, ContactMethod>, id: nat) {
    && after.Keys == before.Keys + {id}
    && forall k | k in before && k != id :: after[k].(isPrimary := before[k].isPrimary) == before[k]
  }

  lemma StoredMethodState(s: State, id: nat, given: ContactMethod, columns: Option<set<Column>>)
    requires SaveMethod(s, id, given, columns).Ok? && columns != Some({})
    ensures var t := SaveMethod(s, id, given, columns).value;
            && t.endpoints == s.endpoints && t.links == s.links
            && SameButPrimary(s.methods, t.methods, id)
            && t.methods[id] == RowFor(s, id, given.(normalized := Normalize(given.methodType, given.value)), columns)
  {
    hide Normalize;
  }

  lemma SavedMethodState(s: State, id: nat, given: ContactMethod, columns: Option<set<Column>>)
    requires SaveMethod(s, id, given, columns).Ok? && Faithful(s, id, given, columns)
    ensures var t := SaveMethod(s, id, given, columns).value;
            && t.endpoints == s.endpoints && t.links == s.links
            && SameButPrimary(s.methods, t.methods, id)
            && t.methods[id].owner == given.owner && t.methods[id].methodType == given.methodType
            && t.methods[id].isPrimary == given.isPrimary
            && t.methods[id].normalized == Normalize(given.methodType, given.value)
  {
    StoredMethodState(s, id, given, columns);
    hide Normalize;
    hide SaveMethod;
  }

  /** Putting this row in keeps ownership when it is not a phone, or passes the guard, or is a phone
      row that keeps number and owner. */
  lemma RowKeepsOwnership(s: State, t: State, id: nat)
    requires Ownership(s) && t.endpoints == s.endpoints && t.links == s.links
    requires SameButPrimary(s.methods, t.methods, id)
    requires var row := t.methods[id];
             || row.methodType == Email
             || Guard(s, id, row.normalized, row.owner) == None
             || (Grandfathered(s, id, row.normalized, row.owner) && s.methods[id].methodType == Phone)
    ensures Ownership(t)
  {
    forall owner: Owner ensures OwnerCompanies(t, owner) == OwnerCompanies(s, owner) {
    }
    forall j, k | j in t.methods && k in t.methods && j != k
               && t.methods[j].methodType == Phone && t.methods[k].methodType == Phone && t.methods[j].normalized == t.methods[k].normalized
      ensures !Disjoint(OwnerCompanies(t, t.methods[j].owner), OwnerCompanies(t, t.methods[k].owner)) {
    }
  }

  /** A phone row that fails the guard breaks ownership. */
  lemma UnguardedRowBreaksOwnership(s: State, t: State, id: nat)
    requires t.endpoints == s.endpoints && t.links == s.links
    requires SameButPrimary(s.methods, t.methods, id)
    requires t.methods[id].methodType == Phone && Guard(s, id, t.methods[id].normalized, t.methods[id].owner) != None
    ensures !Ownership(t)
  {
    forall owner: Owner ensures OwnerCompanies(t, owner) == OwnerCompanies(s, owner) {
    }
    if OwnNumberInUse(s, t.methods[id].normalized) {
      var e :| e in s.endpoints && s.endpoints[e].isActive && s.endpoints[e].normalized == t.methods[id].normalized;
      assert !NoOwnNumberShared(t);
    } else {
      var k :| k in s.methods && k != id && s.methods[k].methodType == Phone && s.methods[k].normalized == t.methods[id].normalized
               && Disjoint(OwnerCompanies(s, s.methods[k].owner), OwnerCompanies(s, t.methods[id].owner));
      assert t.methods[k].owner == s.methods[k].owner;
      assert !OneNumberOneCompany(t);
    }
  }

  lemma AcceptedPhoneWasChecked(s: State, id: nat, given: ContactMethod, columns: Option<set<Column>>)
    requires SaveMethod(s, id, given, columns).Ok? && given.methodType == Phone
    ensures CheckPhoneAssignment(s, id, NormalizePhone(given.value), given.owner) == None
  {
    hide NormalizePhone;
    hide CheckPhoneAssignment;
  }

  /** An accepted save keeps ownership if and only if it is not an unchecked retyping of a number that
      the skipped check would have refused. */
  lemma SaveMethodKeepsOwnershipIff(s: State, id: nat, given: ContactMethod, columns: Option<set<Column>>)
    requires Ownership(s) && SaveMethod(s, id, given, columns).Ok? && Faithful(s, id, given, columns)
    ensures Ownership(SaveMethod(s, id, given, columns).value) <==>
            (UncheckedRetype(s, id, given) ==> Guard(s, id, NormalizePhone(given.value), given.owner) == None)
  {
    var t := SaveMethod(s, id, given, columns).value;
    SavedMethodState(s, id, given, columns);
    if given.methodType == Phone { AcceptedPhoneWasChecked(s, id, given, columns); }
    hide SaveMethod;
    hide NormalizePhone;
    hide NormalizeEmail;
    hide Ownership;
    hide Guard;
    if UncheckedRetype(s, id, given) && Guard(s, id, NormalizePhone(given.value), given.owner) != None {
      UnguardedRowBreaksOwnership(s, t, id);
    } else {
      RowKeepsOwnership(s, t, id);
    }
  }

  /** Demoting rows touches neither owner nor number. */
  lemma DemotionKeepsOwnership(s: State, t: State)
    requires Ownership(s) && t.endpoints == s.endpoints && t.links == s.links && t.methods.Keys == s.methods.Keys
    requires forall k | k in s.methods :: t.methods[k].(isPrimary := s.methods[k].isPrimary) == s.methods[k]
    ensures Ownership(t)
  {
    forall owner: Owner ensures OwnerCompanies(t, owner) == OwnerCompanies(s, owner) {
    }
  }

  lemma EmptySaveKeepsOwnership(s: State, id: nat, given: ContactMethod)
    requires Ownership(s) && SaveMethod(s, id, given, Some({})).Ok?
    ensures Ownership(SaveMethod(s, id, given, Some({})).value)
  {
    hide Normalize, Ownership, CheckPhoneAssignment;
    DemotionKeepsOwnership(s, SaveMethod(s, id, given, Some({})).value);
  }

  /** The same for every accepted save, partial ones from stale instances included: what decides is
      whether the row as stored would pass the guard. */
  lemma SaveMethodKeepsOwnershipIffStoredRowPasses(s: State, id: nat, given: ContactMethod, columns: Option<set<Column>>)
    requires Ownership(s) && SaveMethod(s, id, given, columns).Ok?
    ensures var row := RowFor(s, id, given.(normalized := Normalize(given.methodType, given.value)), columns);
            Ownership(SaveMethod(s, id, given, columns).value) <==>
            columns == Some({}) || row.methodType == Email || Guard(s, id, row.normalized, row.owner) == None
  {
    var t := SaveMethod(s, id, given, columns).value;
    if columns == Some({}) {
      EmptySaveKeepsOwnership(s, id, given);
      return;
    }
    StoredMethodState(s, id, given, columns);
    hide SaveMethod;
    hide Normalize;
    hide Ownership;
    hide Guard;
    var row := t.methods[id];
    if row.methodType == Phone && Guard(s, id, row.normalized, row.owner) != None {
      UnguardedRowBreaksOwnership(s, t, id);
    } else {
      RowKeepsOwnership(s, t, id);
    }
  }

  /** The row stored carries the number and the active flag the endpoint check looked at. */
  predicate EndpointFaithful(s: State, id: nat, given: Endpoint, columns: Option<set<Column>>) {
    var inst := given.(normalized := NormalizePhone(given.number));
    var row := EndpointRow(s, id, inst, columns);
    row.normalized == inst.normalized && row.isActive == inst.isActive
  }

  /** The other half of the guard: an accepted endpoint save keeps ownership exactly when the row it
      stores is the one it checked, or is inactive, or is as it stood, or has a number no contact has. */
  lemma SaveEndpointKeepsOwnershipIff(s: State, id: nat, given: Endpoint, columns: Option<set<Column>>)
    requires Ownership(s) && SaveEndpoint(s, id, given, columns).Ok?
    ensures var row := EndpointRow(s, id, given.(normalized := NormalizePhone(given.number)), columns);
            Ownership(SaveEndpoint(s, id, given, columns).value) <==>
            || columns == Some({})
            || EndpointFaithful(s, id, given, columns)
            || !row.isActive
            || !ActiveNumberChanged(s, id, row)
            || !ConflictingCompany(s, row.normalized, {}, None)
  {
    hide NormalizePhone;
    var inst := given.(normalized := NormalizePhone(given.number));
    var row := EndpointRow(s, id, inst, columns);
    var t := SaveEndpoint(s, id, given, columns).value;
    forall owner: Owner ensures OwnerCompanies(t, owner) == OwnerCompanies(s, owner) {
    }
    assert OneNumberOneCompany(t);
    if columns == Some({}) { return; }
    NumberHeldByAContact(s, row.normalized);
    NumberHeldByAContact(s, inst.normalized);
    hide ConflictingCompany;
    if row.isActive && ActiveNumberChanged(s, id, row) && ConflictingCompany(s, row.normalized, {}, None) {
      var k :| k in s.methods && s.methods[k].methodType == Phone && s.methods[k].normalized == row.normalized;
      assert t.endpoints[id].normalized == t.methods[k].normalized;
    }
  }

  ghost predicate Inv(s: State) {
    Ownership(s) && Primary.AtMostOne(s.methods, Slot)
  }

  /** Unlike a contact method's, a partial endpoint save need not store the number it normalized:
      activating a row whose instance has a new number in memory checks that one and activates the old. */
  lemma StaleNumberEscapesTheCheck(s: State, given: Endpoint, number: string, other: string)
    requires NormalizePhone(number) == number && NormalizePhone(other) == other && number != "" && other != "" && number != other
    requires s == State(map[0 := ContactMethod(CompanyOwner(1), Phone, number, number, false)],
                        map[0 := Endpoint(number, number, false)], {})
    requires given == Endpoint(other, other, true)
    ensures Inv(s) && SaveEndpoint(s, 0, given, Some({ActiveColumn})).Ok?
    ensures !Ownership(SaveEndpoint(s, 0, given, Some({ActiveColumn})).value)
  {
    hide NormalizePhone;
    var t := SaveEndpoint(s, 0, given, Some({ActiveColumn})).value;
    assert t.endpoints[0] == Endpoint(number, number, true);
    assert t.methods[0].normalized == number;
  }

  /** A person who gains a company only makes owners overlap more. */
  lemma LinkKeepsOwnership(s: State, person: nat, company: nat)
    requires Ownership(s)
    ensures Ownership(s.(links := s.links + {(person, company)}))
  {
    var t := s.(links := s.links + {(person, company)});
    forall owner: Owner ensures OwnerCompanies(s, owner) <= OwnerCompanies(t, owner) {
    }
    forall j, k | j in t.methods && k in t.methods && j != k
               && t.methods[j].methodType == Phone && t.methods[k].methodType == Phone && t.methods[j].normalized == t.methods[k].normalized
      ensures !Disjoint(OwnerCompanies(t, t.methods[j].owner), OwnerCompanies(t, t.methods[k].owner)) {
      var a, b := OwnerCompanies(s, s.methods[j].owner), OwnerCompanies(s, s.methods[k].owner);
      var c :| c in a * b;
      assert c in OwnerCompanies(t, t.methods[j].owner) * OwnerCompanies(t, t.methods[k].owner);
    }
  }

  // ----- links that go

  predicate PhoneOf(s: State, k: nat, person: nat) {
    k in s.methods && s.methods[k].methodType == Phone && s.methods[k].owner == PersonOwner(person)
  }

  /** remove_company_link's test of one phone, against the companies the person would be left with. */
  predicate WouldConflict(s: State, k: nat, person: nat, company: nat)
    requires k in s.methods
  {
    ConflictingCompany(s, s.methods[k].normalized, OwnerCompanies(s, PersonOwner(person)) - {company}, Some(k))
  }

  function WithoutLink(s: State, person: nat, company: nat): State {
    s.(links := s.links - {(person, company)})
  }

  function RemoveLink(s: State, person: nat, company: nat): Result<State, Error> {
    if (person, company) !in s.links then Err(LinkNotFound)
    else if exists k | k in s.methods :: PhoneOf(s, k, person) && WouldConflict(s, k, person, company) then Err(RemovalConflict)
    else Ok(WithoutLink(s, person, company))
  }

  /** archive_person: every link of the person goes, and nothing is tested. */
  function Archive(s: State, person: nat): State {
    s.(links := set l | l in s.links && l.0 != person)
  }

  lemma CompaniesWithout(s: State, person: nat, company: nat, owner: Owner)
    ensures OwnerCompanies(WithoutLink(s, person, company), owner) ==
            if owner == PersonOwner(person) then OwnerCompanies(s, owner) - {company} else OwnerCompanies(s, owner)
  {
  }

  lemma CompaniesAfterArchive(s: State, person: nat, owner: Owner)
    ensures OwnerCompanies(Archive(s, person), owner) == if owner == PersonOwner(person) then {} else OwnerCompanies(s, owner)
  {
  }

  predicate SameNumber(s: State, j: nat, k: nat) {
    && j in s.methods && k in s.methods && j != k
    && s.methods[j].methodType == Phone && s.methods[k].methodType == Phone && s.methods[j].normalized == s.methods[k].normalized
  }

  /** Taking the company from the person parts phone j from a holder of the same number. */
  lemma WouldConflictMeans(s: State, j: nat, person: nat, company: nat)
    requires PhoneOf(s, j, person)
    ensures WouldConflict(s, j, person, company) <==>
            exists k | k in s.methods :: SameNumber(s, j, k) &&
              Disjoint(OwnerCompanies(WithoutLink(s, person, company), s.methods[j].owner),
                       OwnerCompanies(WithoutLink(s, person, company), s.methods[k].owner))
  {
    forall owner: Owner ensures OwnerCompanies(WithoutLink(s, person, company), owner) ==
      if owner == PersonOwner(person) then OwnerCompanies(s, owner) - {company} else OwnerCompanies(s, owner) {
      CompaniesWithout(s, person, company, owner);
    }
    var left := OwnerCompanies(s, PersonOwner(person)) - {company};
    forall k | k in s.methods && SameNumber(s, j, k)
      ensures Disjoint(OwnerCompanies(s, s.methods[k].owner), left) <==>
              Disjoint(left, OwnerCompanies(WithoutLink(s, person, company), s.methods[k].owner)) {
      if s.methods[k].owner == PersonOwner(person) {
        assert OwnerCompanies(s, s.methods[k].owner) * left == left;
      }
    }
  }

  lemma OverlapsMakeOwnership(s: State, t: State)
    requires NoOwnNumberShared(s) && t.methods == s.methods && t.endpoints == s.endpoints
    requires forall j, k | SameNumber(s, j, k) :: !Disjoint(OwnerCompanies(t, t.methods[j].owner), OwnerCompanies(t, t.methods[k].owner))
    ensures Ownership(t)
  {
    forall j, k | j in t.methods && k in t.methods && j != k
               && t.methods[j].methodType == Phone && t.methods[k].methodType == Phone && t.methods[j].normalized == t.methods[k].normalized
      ensures !Disjoint(OwnerCompanies(t, t.methods[j].owner), OwnerCompanies(t, t.methods[k].owner)) {
      assert SameNumber(s, j, k);
    }
  }

  /** The guard is exact: removing an active link keeps ownership if and only if remove_company_link
      would not refuse it. */
  lemma RemovingLinkKeepsOwnershipIff(s: State, person: nat, company: nat)
    requires Ownership(s) && (person, company) in s.links
    ensures Ownership(WithoutLink(s, person, company)) <==> RemoveLink(s, person, company).Ok?
  {
    var t := WithoutLink(s, person, company);
    if j :| j in s.methods && PhoneOf(s, j, person) && WouldConflict(s, j, person, company) {
      WouldConflictMeans(s, j, person, company);
      assert !OneNumberOneCompany(t);
    } else {
      forall j, k | SameNumber(s, j, k)
        ensures !Disjoint(OwnerCompanies(t, t.methods[j].owner), OwnerCompanies(t, t.methods[k].owner)) {
        CompaniesWithout(s, person, company, s.methods[j].owner);
        CompaniesWithout(s, person, company, s.methods[k].owner);
        if PhoneOf(s, j, person) {
          WouldConflictMeans(s, j, person, company);
        } else if PhoneOf(s, k, person) {
          WouldConflictMeans(s, k, person, company);
          assert SameNumber(s, k, j);
        }
      }
      OverlapsMakeOwnership(s, t);
    }
  }

  lemma OnlyShared(a: set<nat>, b: set<nat>, c: nat, left: set<nat>)
    requires !Disjoint(a, b) && (left == b || left == b - {c})
    ensures Disjoint(a - {c}, left) <==> a * b == {c}
  {
    assert (a - {c}) * left == a * b - {c};
    var x :| x in a * b;
  }

  /** What a refusal means: the company is the only one that some phone of the person shares with another
      holder of its number. */
  lemma RemovalRefusedIffLastSharedCompany(s: State, person: nat, company: nat)
    requires Ownership(s) && (person, company) in s.links
    ensures RemoveLink(s, person, company).Err? <==>
            exists j, k :: PhoneOf(s, j, person) && SameNumber(s, j, k) &&
              OwnerCompanies(s, s.methods[j].owner) * OwnerCompanies(s, s.methods[k].owner) == {company}
  {
    forall j, k | PhoneOf(s, j, person) && SameNumber(s, j, k)
      ensures Disjoint(OwnerCompanies(WithoutLink(s, person, company), s.methods[j].owner),
                       OwnerCompanies(WithoutLink(s, person, company), s.methods[k].owner))
              <==> OwnerCompanies(s, s.methods[j].owner) * OwnerCompanies(s, s.methods[k].owner) == {company} {
      CompaniesWithout(s, person, company, s.methods[j].owner);
      CompaniesWithout(s, person, company, s.methods[k].owner);
      OnlyShared(OwnerCompanies(s, s.methods[j].owner), OwnerCompanies(s, s.methods[k].owner), company,
                 OwnerCompanies(WithoutLink(s, person, company), s.methods[k].owner));
    }
    forall j | PhoneOf(s, j, person) ensures j in s.methods {
      WouldConflictMeans(s, j, person, company);
    }
  }

  /** Archiving is not guarded: it keeps ownership exactly when no phone of the person has a number that
      another phone method has. */
  lemma ArchiveKeepsOwnershipIff(s: State, person: nat)
    requires Ownership(s)
    ensures Ownership(Archive(s, person)) <==> !exists j, k :: PhoneOf(s, j, person) && SameNumber(s, j, k)
  {
    var t := Archive(s, person);
    forall j, k | SameNumber(s, j, k)
      ensures Disjoint(OwnerCompanies(t, t.methods[j].owner), OwnerCompanies(t, t.methods[k].owner))
              <==> PhoneOf(s, j, person) || PhoneOf(s, k, person) {
      CompaniesAfterArchive(s, person, s.methods[j].owner);
      CompaniesAfterArchive(s, person, s.methods[k].owner);
    }
    if j, k :| PhoneOf(s, j, person) && SameNumber(s, j, k) {
      assert !OneNumberOneCompany(t);
    } else {
      forall j, k | SameNumber(s, j, k)
        ensures !Disjoint(OwnerCompanies(t, t.methods[j].owner), OwnerCompanies(t, t.methods[k].owner)) {
        assert SameNumber(s, k, j);
      }
      OverlapsMakeOwnership(s, t);
    }
  }

  // ----- one primary per owner and type

  /** The primary-uniqueness constraints are never what stops a faithful save: the demotion has made room. */
  lemma SaveNeverMeetsPrimaryConstraint(s: State, id: nat, given: ContactMethod, columns: Option<set<Column>>)
    requires Primary.AtMostOne(s.methods, Slot) && Faithful(s, id, given, columns)
    ensures SaveMethod(s, id, given, columns) != Err(TwoPrimaries)
  {
    hide Normalize;
    hide CheckPhoneAssignment;
    var inst := given.(normalized := Normalize(given.methodType, given.value));
    if CheckPhoneAssignment(s, id, inst.normalized, inst.owner) == Some(TwoPrimaries) {
      CheckErrors(s, id, inst.normalized, inst.owner);
    }
    var row := RowFor(s, id, inst, columns);
    assert Slot(row) == Slot(inst);
  }

  /** A refused save keeps both invariants, whatever it leaves behind. */
  lemma LeftoverKeepsInv(s: State, id: nat, given: ContactMethod, error: Error, atomic: bool)
    requires Inv(s)
    ensures Inv(Leftover(s, id, given, error, atomic))
  {
    hide Ownership;
    var t := s.(methods := Primary.Demotion(s.methods, id, given, Slot, Demoted));
    DemotionKeepsOwnership(s, t);
    if given.isPrimary {
      Primary.DemotingIsSafe(s.methods, id, Slot(given).value, Slot, Demoted);
    }
  }

  /** ... but it can leave an owner without a primary method: when the write fails outside a transaction
      and another row held the place, exactly then is anything changed, and the place is empty. */
  lemma RefusedSaveStrandsIff(s: State, id: nat, given: ContactMethod, error: Error, atomic: bool)
    requires Primary.AtMostOne(s.methods, Slot)
    ensures var t := Leftover(s, id, given, error, atomic);
            && (t != s <==> && !atomic && error !in {EmptyValue, OwnNumber, OtherCompany} && given.isPrimary
                            && exists k | k in s.methods && k != id :: Slot(s.methods[k]) == Slot(given))
            && (t != s ==> forall k | k in t.methods :: Slot(t.methods[k]) != Slot(given))
  {
    var t := Leftover(s, id, given, error, atomic);
    if !atomic && error !in {EmptyValue, OwnNumber, OtherCompany} && given.isPrimary {
      if k :| k in s.methods && k != id && Slot(s.methods[k]) == Slot(given) {
        assert Slot(t.methods[k]) == None;
      } else {
        assert t.methods == s.methods;
      }
    }
  }

  lemma SaveKeepsOnePrimary(s: State, id: nat, given: ContactMethod, columns: Option<set<Column>>)
    requires Primary.AtMostOne(s.methods, Slot) && SaveMethod(s, id, given, columns).Ok?
    ensures Primary.AtMostOne(SaveMethod(s, id, given, columns).value.methods, Slot)
  {
    hide Normalize;
    hide CheckPhoneAssignment;
    hide SameValueTaken;
    var inst := given.(normalized := Normalize(given.methodType, given.value));
    if inst.isPrimary {
      Primary.DemotingIsSafe(s.methods, id, Slot(inst).value, Slot, Demoted);
    }
  }

  // ----- any run of both save methods

  datatype Step =
    | PutMethod(id: nat, contact: ContactMethod, columns: Option<set<Column>>, atomic: bool)
    | PutEndpoint(id: nat, endpoint: Endpoint, columns: Option<set<Column>>)
    | ActivateLink(person: nat, company: nat)
    | RemoveCompanyLink(person: nat, company: nat)
    | ArchivePerson(person: nat)
    | DropMethod(id: nat)
    | DropEndpoint(id: nat)

  function Next(s: State, a: Step): State {
    match a
    case PutMethod(id, m, c, atomic) => (match SaveMethod(s, id, m, c) case Ok(t) => t case Err(e) => Leftover(s, id, m, e, atomic))
    case PutEndpoint(id, e, c) => (match SaveEndpoint(s, id, e, c) case Ok(t) => t case Err(_) => s)
    case ActivateLink(p, c) => s.(links := s.links + {(p, c)})
    case RemoveCompanyLink(p, c) => (match RemoveLink(s, p, c) case Ok(t) => t case Err(_) => s)
    case ArchivePerson(p) => Archive(s, p)
    case DropMethod(id) => s.(methods := s.methods - {id})
    case DropEndpoint(id) => s.(endpoints := s.endpoints - {id})
  }

  /** What the callers must keep to: partial saves do not leave out a changed column that the checks
      read, no e-mail row is retyped into a phone row with the same value, and nobody is archived who has
      a phone number in common with another contact. */
  predicate Disciplined(s: State, a: Step) {
    match a
    case PutMethod(id, m, c, _) => c == Some({}) || (Faithful(s, id, m, c) && !UncheckedRetype(s, id, m))
    case PutEndpoint(id, e, c) => c == Some({}) || EndpointFaithful(s, id, e, c)
    case ArchivePerson(p) => !exists j, k | j in s.methods && k in s.methods :: PhoneOf(s, j, p) && SameNumber(s, j, k)
    case _ => true
  }

  function Run(s: State, steps: seq<Step>): State {
    if steps == [] then s else Next(Run(s, steps[..|steps| - 1]), steps[|steps| - 1])
  }

  /** Every full save is disciplined but the retyping of an e-mail row under its own value, and so is
      every deletion and every new or removed link. */
  lemma FullSavesAreDisciplined(s: State, a: Step)
    ensures a.PutMethod? && a.columns == None ==>
              (Disciplined(s, a) <==>
               !(&& a.contact.methodType == Phone && a.id in s.methods && s.methods[a.id].methodType == Email
                 && s.methods[a.id].normalized == NormalizePhone(a.contact.value) && s.methods[a.id].owner == a.contact.owner))
    ensures a.PutEndpoint? && a.columns == None ==> Disciplined(s, a)
    ensures (a.PutMethod? || a.PutEndpoint?) && a.columns == Some({}) ==> Disciplined(s, a)
    ensures a.ActivateLink? || a.RemoveCompanyLink? || a.DropMethod? || a.DropEndpoint? ==> Disciplined(s, a)
  {
    hide NormalizePhone, NormalizeEmail;
  }

  /** A run is its steps one after the other ... */
  lemma {:induction false} RunOn(s: State, first: seq<Step>, second: seq<Step>)
    ensures Run(s, first + second) == Run(Run(s, first), second)
  {
    hide Next;
    if second == [] {
      assert first + second == first;
    } else {
      var n := |second| - 1;
      RunOn(s, first, second[..n]);
      assert (first + second)[..|first| + n] == first + second[..n];
    }
  }

  /** ... and a run of one is that save, accepted or refused, that change of a link, or that deletion. */
  lemma RunOfOne(s: State, a: Step)
    ensures a.PutMethod? ==>
              var r := SaveMethod(s, a.id, a.contact, a.columns);
              Run(s, [a]) == if r.Ok? then r.value else Leftover(s, a.id, a.contact, r.error, a.atomic)
    ensures a.PutEndpoint? ==>
              var r := SaveEndpoint(s, a.id, a.endpoint, a.columns);
              Run(s, [a]) == if r.Ok? then r.value else s
    ensures a.RemoveCompanyLink? ==>
              var r := RemoveLink(s, a.person, a.company);
              Run(s, [a]) == if r.Ok? then r.value else s
    ensures a.ActivateLink? ==> Run(s, [a]) == State(s.methods, s.endpoints, s.links + {(a.person, a.company)})
    ensures a.ArchivePerson? ==> Run(s, [a]) == State(s.methods, s.endpoints, set l | l in s.links && l.0 != a.person)
    ensures a.DropMethod? ==> Run(s, [a]) == State(s.methods - {a.id}, s.endpoints, s.links)
    ensures a.DropEndpoint? ==> Run(s, [a]) == State(s.methods, s.endpoints - {a.id}, s.links)
  {
    hide SaveMethod, SaveEndpoint, RemoveLink, Leftover;
    assert [a][..0] == [];
  }

  predicate AllDisciplined(s: State, steps: seq<Step>) {
    steps == [] ||
    (AllDisciplined(s, steps[..|steps| - 1]) && Disciplined(Run(s, steps[..|steps| - 1]), steps[|steps| - 1]))
  }

  lemma EndpointSaveLeavesMethods(s: State, id: nat, given: Endpoint, columns: Option<set<Column>>)
    requires SaveEndpoint(s, id, given, columns).Ok?
    ensures SaveEndpoint(s, id, given, columns).value.methods == s.methods
  {
    hide NormalizePhone;
  }

  lemma DropKeepsOwnership(s: State, t: State)
    requires Ownership(s) && t.links == s.links
    requires forall k | k in t.methods :: k in s.methods && t.methods[k] == s.methods[k]
    requires forall k | k in t.endpoints :: k in s.endpoints && t.endpoints[k] == s.endpoints[k]
    ensures Ownership(t)
  {
    forall owner: Owner ensures OwnerCompanies(t, owner) == OwnerCompanies(s, owner) {
    }
  }

  lemma StepKeepsInv(s: State, a: Step)
    requires Inv(s) && Disciplined(s, a)
    ensures Inv(Next(s, a))
  {
    hide SaveMethod;
    hide SaveEndpoint;
    match a
    case PutMethod(id, m, c, atomic) =>
      if SaveMethod(s, id, m, c).Ok? {
        if c == Some({}) { EmptySaveKeepsOwnership(s, id, m); } else { SaveMethodKeepsOwnershipIff(s, id, m, c); }
        SaveKeepsOnePrimary(s, id, m, c);
      } else {
        LeftoverKeepsInv(s, id, m, SaveMethod(s, id, m, c).error, atomic);
      }
    case PutEndpoint(id, e, c) =>
      if SaveEndpoint(s, id, e, c).Ok? {
        SaveEndpointKeepsOwnershipIff(s, id, e, c);
        EndpointSaveLeavesMethods(s, id, e, c);
      }
    case ActivateLink(p, c) => LinkKeepsOwnership(s, p, c);
    case RemoveCompanyLink(p, c) => if RemoveLink(s, p, c).Ok? { RemovingLinkKeepsOwnershipIff(s, p, c); }
    case ArchivePerson(p) => ArchiveKeepsOwnershipIff(s, p);
    case DropMethod(id) => DropKeepsOwnership(s, Next(s, a));
    case DropEndpoint(id) => DropKeepsOwnership(s, Next(s, a));
  }

  /** Over any disciplined run of saves, deletions, and links made, removed and archived: no active endpoint has a contact's
      number, phone methods with one number share a company, and each owner has at most one primary
      of each type. */
  lemma {:induction false} RunKeepsInv(s: State, steps: seq<Step>)
    requires Inv(s) && AllDisciplined(s, steps)
    ensures Inv(Run(s, steps))
  {
    if steps != [] {
      RunKeepsInv(s, steps[..|steps| - 1]);
      StepKeepsInv(Run(s, steps[..|steps| - 1]), steps[|steps| - 1]);
    }
  }

  // ----- savers that race

  /** A full save of either kind, by the row it will store. */
  datatype Saver = Contact(id: nat, contact: ContactMethod) | Line(id: nat, line: Endpoint)

  /** The check of one save and its write are separate statements, with no lock held between them. */
  datatype Phase = Coming | Checked | Stored

  datatype Racer = Racer(saver: Saver, phase: Phase)

  datatype Race = Race(tables: State, racers: seq<Racer>)

  datatype Move = CheckRow(i: nat) | StoreRow(i: nat)

  /** The row would pass its guard as the tables are now. */
  predicate Passes(s: State, w: Saver) {
    match w
    case Contact(id, row) => row.methodType == Email || Guard(s, id, row.normalized, row.owner) == None
    case Line(_, row) => !row.isActive || !ConflictingCompany(s, row.normalized, {}, None)
  }

  function Put(s: State, w: Saver): State {
    match w
    case Contact(id, row) => s.(methods := Primary.Demotion(s.methods, id, row, Slot, Demoted)[id := row])
    case Line(id, row) => s.(endpoints := s.endpoints[id := row])
  }

  /** Each row would fail its guard against the other. */
  predicate Rivals(s: State, a: Saver, b: Saver) {
    match (a, b)
    case (Contact(i, x), Contact(j, y)) =>
      && i != j && x.methodType == Phone && y.methodType == Phone && x.normalized == y.normalized
      && Disjoint(OwnerCompanies(s, x.owner), OwnerCompanies(s, y.owner))
    case (Contact(_, x), Line(_, y)) => x.methodType == Phone && y.isActive && x.normalized == y.normalized
    case (Line(_, x), Contact(_, y)) => y.methodType == Phone && x.isActive && x.normalized == y.normalized
    case _ => false
  }

  predicate CanMove(s: Race, m: Move) {
    && m.i < |s.racers|
    && (if m.CheckRow? then s.racers[m.i].phase == Coming && Passes(s.tables, s.racers[m.i].saver)
        else s.racers[m.i].phase == Checked)
  }

  function After(s: Race, m: Move): Race
    requires CanMove(s, m)
  {
    var r := s.racers[m.i];
    if m.CheckRow? then s.(racers := s.racers[m.i := r.(phase := Checked)])
    else Race(Put(s.tables, r.saver), s.racers[m.i := r.(phase := Stored)])
  }

  /** An accepted full save has such a row: exempted rows would have passed too. */
  lemma AcceptedSavesPass(s: State, id: nat, given: ContactMethod)
    requires Ownership(s) && SaveMethod(s, id, given, None).Ok? && !UncheckedRetype(s, id, given)
    ensures var row := given.(normalized := Normalize(given.methodType, given.value));
            Passes(s, Contact(id, row)) && SaveMethod(s, id, given, None).value == Put(s, Contact(id, row))
  {
    if given.methodType == Phone {
      AcceptedPhoneWasChecked(s, id, given, None);
    }
    hide NormalizePhone, NormalizeEmail;
  }

  lemma AcceptedLinesPass(s: State, id: nat, given: Endpoint)
    requires Ownership(s) && SaveEndpoint(s, id, given, None).Ok?
    ensures var row := given.(normalized := NormalizePhone(given.number));
            Passes(s, Line(id, row)) && SaveEndpoint(s, id, given, None).value == Put(s, Line(id, row))
  {
    hide NormalizePhone;
    NumberHeldByAContact(s, NormalizePhone(given.number));
  }

  lemma LinksDecideCompanies(s: State, t: State, owner: Owner)
    requires t.links == s.links
    ensures OwnerCompanies(t, owner) == OwnerCompanies(s, owner)
  {
  }

  lemma PutContactState(s: State, id: nat, row: ContactMethod)
    ensures var t := Put(s, Contact(id, row));
            SameButPrimary(s.methods, t.methods, id) && t.methods[id] == row && t.endpoints == s.endpoints && t.links == s.links
  {
  }

  lemma PutLineKeepsOwnership(s: State, id: nat, row: Endpoint)
    requires Ownership(s) && Passes(s, Line(id, row))
    ensures Ownership(Put(s, Line(id, row)))
  {
    var t := Put(s, Line(id, row));
    forall owner: Owner ensures OwnerCompanies(t, owner) == OwnerCompanies(s, owner) {
    }
    NumberHeldByAContact(s, row.normalized);
    assert OneNumberOneCompany(t);
  }

  lemma PutKeepsOwnership(s: State, w: Saver)
    requires Ownership(s) && Passes(s, w)
    ensures Ownership(Put(s, w))
  {
    match w
    case Contact(id, row) =>
      PutContactState(s, id, row);
      hide Put;
      RowKeepsOwnership(s, Put(s, w), id);
    case Line(id, row) =>
      PutLineKeepsOwnership(s, id, row);
  }

  lemma ContactBlocksContactIff(s: State, i: nat, x: ContactMethod, j: nat, y: ContactMethod)
    requires Passes(s, Contact(j, y))
    ensures Passes(Put(s, Contact(i, x)), Contact(j, y)) <==> !Rivals(s, Contact(i, x), Contact(j, y))
  {
    var t := Put(s, Contact(i, x));
    PutContactState(s, i, x);
    hide Put;
    forall owner: Owner ensures OwnerCompanies(t, owner) == OwnerCompanies(s, owner) {
      LinksDecideCompanies(s, t, owner);
    }
    hide OwnerCompanies;
    assert OwnNumberInUse(t, y.normalized) == OwnNumberInUse(s, y.normalized);
    if y.methodType == Phone {
      var companies := OwnerCompanies(s, y.owner);
      forall k | k in s.methods && k != i ensures t.methods[k].methodType == s.methods[k].methodType
        && t.methods[k].normalized == s.methods[k].normalized && t.methods[k].owner == s.methods[k].owner {
      }
      assert ConflictingCompany(t, y.normalized, companies, Some(j)) <==>
        i != j && x.methodType == Phone && x.normalized == y.normalized && Disjoint(OwnerCompanies(s, x.owner), companies);
    }
  }

  lemma ContactBlocksLineIff(s: State, i: nat, x: ContactMethod, j: nat, y: Endpoint)
    requires Passes(s, Line(j, y))
    ensures Passes(Put(s, Contact(i, x)), Line(j, y)) <==> !Rivals(s, Contact(i, x), Line(j, y))
  {
    var t := Put(s, Contact(i, x));
    PutContactState(s, i, x);
    NumberHeldByAContact(s, y.normalized);
    NumberHeldByAContact(t, y.normalized);
    hide Put, ConflictingCompany;
    forall k | k in s.methods && k != i ensures t.methods[k].methodType == s.methods[k].methodType
      && t.methods[k].normalized == s.methods[k].normalized {
    }
    assert i in t.methods && t.methods[i] == x;
  }

  lemma LineBlocksContactIff(s: State, i: nat, x: Endpoint, j: nat, y: ContactMethod)
    requires Passes(s, Contact(j, y))
    ensures Passes(Put(s, Line(i, x)), Contact(j, y)) <==> !Rivals(s, Line(i, x), Contact(j, y))
  {
    var t := Put(s, Line(i, x));
    forall owner: Owner ensures OwnerCompanies(t, owner) == OwnerCompanies(s, owner) {
    }
    if y.methodType == Phone {
      assert ConflictingCompany(t, y.normalized, OwnerCompanies(s, y.owner), Some(j)) ==
             ConflictingCompany(s, y.normalized, OwnerCompanies(s, y.owner), Some(j));
      assert i in t.endpoints && t.endpoints[i] == x;
    }
  }

  /** Storing one row makes another that has been checked fail its guard exactly when they are rivals. */
  lemma StillPassesIff(s: State, a: Saver, b: Saver)
    requires Passes(s, b)
    ensures Passes(Put(s, a), b) <==> !Rivals(s, a, b)
  {
    match (a, b)
    case (Contact(i, x), Contact(j, y)) => ContactBlocksContactIff(s, i, x, j, y);
    case (Contact(i, x), Line(j, y)) => ContactBlocksLineIff(s, i, x, j, y);
    case (Line(i, x), Contact(j, y)) => LineBlocksContactIff(s, i, x, j, y);
    case (Line(i, x), Line(j, y)) =>
      NumberHeldByAContact(s, y.normalized);
      NumberHeldByAContact(Put(s, a), y.normalized);
  }

  lemma RivalsBreakOwnership(s: State, a: Saver, b: Saver)
    requires Rivals(s, a, b)
    ensures !Ownership(Put(Put(s, a), b))
  {
    var t, u := Put(s, a), Put(Put(s, a), b);
    match (a, b)
    case (Contact(i, x), Contact(j, y)) =>
      PutContactState(s, i, x);
      PutContactState(t, j, y);
      LinksDecideCompanies(s, u, x.owner);
      LinksDecideCompanies(s, u, y.owner);
      hide Put, OwnerCompanies;
      assert u.methods[i].(isPrimary := x.isPrimary) == x && u.methods[j] == y;
      assert !OneNumberOneCompany(u);
    case (Contact(i, x), Line(j, y)) =>
      assert u.methods[i] == x && u.endpoints[j] == y;
    case (Line(i, x), Contact(j, y)) =>
      assert u.methods[j] == y && u.endpoints[i] == x;
  }

  /** Two saves that both check before either writes, of contacts or endpoints in either order: ownership
      breaks exactly when each stored row fails its guard against the other. */
  lemma TwoRacersKeepOwnershipIff(s: State, a: Saver, b: Saver)
    requires Ownership(s) && Passes(s, a) && Passes(s, b)
    ensures Ownership(Put(Put(s, a), b)) <==> !Rivals(s, a, b)
  {
    StillPassesIff(s, a, b);
    PutKeepsOwnership(s, a);
    if Rivals(s, a, b) {
      RivalsBreakOwnership(s, a, b);
    } else {
      hide Put, Passes, Rivals, Ownership;
      PutKeepsOwnership(Put(s, a), b);
    }
  }

  /** Ownership, and every save that has been checked would still pass. */
  ghost predicate RaceInv(s: Race) {
    && Ownership(s.tables)
    && forall i | 0 <= i < |s.racers| && s.racers[i].phase == Checked :: Passes(s.tables, s.racers[i].saver)
  }

  /** A write while no rival has been checked and not yet stored. */
  predicate Quiet(s: Race, m: Move)
    requires CanMove(s, m)
  {
    m.StoreRow? ==> forall j | 0 <= j < |s.racers| && j != m.i && s.racers[j].phase == Checked ::
                      !Rivals(s.tables, s.racers[m.i].saver, s.racers[j].saver)
  }

  /** Of any number of saves in progress, exactly these writes keep every checked one good. */
  lemma StoreKeepsRaceInvIff(s: Race, i: nat)
    requires RaceInv(s) && CanMove(s, StoreRow(i))
    ensures RaceInv(After(s, StoreRow(i))) <==> Quiet(s, StoreRow(i))
  {
    var t := After(s, StoreRow(i));
    var a := s.racers[i].saver;
    PutKeepsOwnership(s.tables, a);
    forall j | 0 <= j < |s.racers| && j != i && s.racers[j].phase == Checked
      ensures t.racers[j] == s.racers[j] && (Passes(t.tables, s.racers[j].saver) <==> !Rivals(s.tables, a, s.racers[j].saver)) {
      StillPassesIff(s.tables, a, s.racers[j].saver);
    }
    hide Put, Passes, Rivals, Ownership;
    if j :| 0 <= j < |s.racers| && j != i && s.racers[j].phase == Checked && Rivals(s.tables, a, s.racers[j].saver) {
      assert !Passes(t.tables, t.racers[j].saver);
    }
  }

  predicate QuietRun(s: Race, moves: seq<Move>)
    decreases |moves|
  {
    moves == [] || (CanMove(s, moves[0]) && Quiet(s, moves[0]) && QuietRun(After(s, moves[0]), moves[1..]))
  }

  function RaceRun(s: Race, moves: seq<Move>): Race
    requires QuietRun(s, moves)
    decreases |moves|
  {
    if moves == [] then s else RaceRun(After(s, moves[0]), moves[1..])
  }

  /** Any interleaving without a write between a rival's check and its write keeps ownership. */
  lemma {:induction false} QuietRunKeepsOwnership(s: Race, moves: seq<Move>)
    requires RaceInv(s) && QuietRun(s, moves)
    ensures RaceInv(RaceRun(s, moves))
    decreases |moves|
  {
    if moves != [] {
      if moves[0].StoreRow? { StoreKeepsRaceInvIff(s, moves[0].i); }
      hide Ownership, Passes, Quiet;
      QuietRunKeepsOwnership(After(s, moves[0]), moves[1..]);
    }
  }

  /** A racer that nobody comes between checks first, exactly when its row passes, and then stores it. */
  lemma UnracedRacerStores(s: Race, i: nat)
    requires i < |s.racers| && s.racers[i].phase == Coming
    ensures !CanMove(s, StoreRow(i)) && (CanMove(s, CheckRow(i)) <==> Passes(s.tables, s.racers[i].saver))
    ensures CanMove(s, CheckRow(i)) ==>
              var w, checked := s.racers[i].saver, After(s, CheckRow(i));
              && checked.tables == s.tables && CanMove(checked, StoreRow(i)) && !CanMove(checked, CheckRow(i))
              && var t := After(checked, StoreRow(i));
              && t == Race(Put(s.tables, w), s.racers[i := Racer(w, Stored)])
              && !CanMove(t, StoreRow(i)) && !CanMove(t, CheckRow(i))
              && (QuietRun(s, [CheckRow(i), StoreRow(i)]) ==> RaceRun(s, [CheckRow(i), StoreRow(i)]) == t)
  {
    hide Passes, Put, Rivals;
    var moves := [CheckRow(i), StoreRow(i)];
    assert moves[1..] == [StoreRow(i)] && [StoreRow(i)][1..] == [];
    if CanMove(s, CheckRow(i)) && QuietRun(s, moves) {
      var checked := After(s, CheckRow(i));
      assert RaceRun(s, moves) == RaceRun(checked, [StoreRow(i)]);
      assert RaceRun(checked, [StoreRow(i)]) == RaceRun(After(checked, StoreRow(i)), []);
    }
  }

  // ----- why the discipline is needed

  /** Re-saving an e-mail row as a phone row with its own value skips the check, even when the value
      is the number of an active endpoint. */
  lemma RetypingEscapesTheCheck(s: State, given: ContactMethod, number: string)
    requires NormalizePhone(number) == number && number != ""
    requires s == State(map[0 := ContactMethod(CompanyOwner(1), Email, number, number, false)],
                        map[0 := Endpoint(number, number, true)], {})
    requires given == ContactMethod(CompanyOwner(1), Phone, number, number, false)
    ensures Inv(s) && SaveMethod(s, 0, given, None).Ok? && !Ownership(SaveMethod(s, 0, given, None).value)
  {
    hide NormalizePhone;
    var t := SaveMethod(s, 0, given, None);
    assert t == Ok(s.(methods := s.methods[0 := given]));
    assert t.value.endpoints[0].normalized == t.value.methods[0].normalized;
  }

  /** A partial save whose instance has moved to another owner in memory is checked against that owner
      and stored under the old one. */
  lemma StaleOwnerEscapesTheCheck(s: State, given: ContactMethod, number: string, former: string)
    requires NormalizePhone(number) == number && number != "" && former != number
    requires s == State(map[0 := ContactMethod(CompanyOwner(1), Phone, former, former, false),
                            1 := ContactMethod(CompanyOwner(2), Phone, number, number, false)], map[], {})
    requires given == ContactMethod(CompanyOwner(2), Phone, number, number, false)
    ensures Inv(s) && SaveMethod(s, 0, given, Some({ValueColumn})).Ok?
    ensures !Ownership(SaveMethod(s, 0, given, Some({ValueColumn})).value)
  {
    hide NormalizePhone;
    assert OwnerCompanies(s, CompanyOwner(2)) == {2};
    assert !Disjoint({2}, {2}) by { assert 2 in {2} * {2}; }
    var row := ContactMethod(CompanyOwner(1), Phone, number, number, false);
    assert SaveMethod(s, 0, given, Some({ValueColumn})) == Ok(s.(methods := s.methods[0 := row]));
    var t := s.(methods := s.methods[0 := row]);
    assert t.methods[0].normalized == t.methods[1].normalized && Disjoint({1}, {2});
  }

  // ----- the two tables the save methods update

  class ContactBook {
    var methods: map<nat, ContactMethod>
    var endpoints: map<nat, Endpoint>
    var links: set<(nat, nat)>

    ghost function View(): State
      reads this
    {
      State(methods, endpoints, links)
    }

    constructor ()
      ensures Inv(View())
    {
      methods, endpoints, links := map[], map[], {};
    }

    /** ContactMethod.save: normalize, check, demote, store. */
    method SaveContactMethod(id: nat, given: ContactMethod, columns: Option<set<Column>>, atomic: bool) returns (raised: Option<Error>)
      modifies this`methods
      ensures match SaveMethod(old(View()), id, given, columns)
              case Ok(t) => raised == None && View() == t
              case Err(e) => raised == Some(e) && View() == Leftover(old(View()), id, given, e, atomic)
    {
      hide Normalize;
      hide CheckPhoneAssignment;
      raised := None;
      var s := State(methods, endpoints, links);
      var inst := given.(normalized := Normalize(given.methodType, given.value));
      if inst.normalized == "" {
        return Some(EmptyValue);
      }
      if inst.methodType == Phone {
        raised := CheckPhoneAssignment(s, id, inst.normalized, inst.owner);
        CheckErrors(s, id, inst.normalized, inst.owner);
        if raised.Some? {
          return;
        }
      }
      if inst.isPrimary {
        methods := Primary.DemoteOthers(methods, id, (inst.owner, inst.methodType), Slot, Demoted);
      }
      if columns == Some({}) {
        return;
      }
      var row := RowFor(s, id, inst, columns);
      if id !in methods && columns.Some? {
        raised := Some(MissingRow);
      } else if SameValueTaken(methods, id, row) {
        raised := Some(DuplicateValue);
      } else if PrimaryTaken(methods, id, row) {
        raised := Some(TwoPrimaries);
      } else {
        methods := methods[id := row];
      }
      if raised.Some? && atomic {
        methods := s.methods; // the caller's transaction rolls back
      }
    }

    /** PhoneEndpoint.save: normalize, check an activation or a new number, store. */
    method SavePhoneEndpoint(id: nat, given: Endpoint, columns: Option<set<Column>>) returns (raised: Option<Error>)
      modifies this`endpoints
      ensures match SaveEndpoint(old(View()), id, given, columns)
              case Ok(t) => raised == None && View() == t
              case Err(e) => raised == Some(e) && View() == old(View())
    {
      hide NormalizePhone;
      var s := State(methods, endpoints, links);
      var inst := given.(normalized := NormalizePhone(given.number));
      if inst.normalized == "" {
        return Some(EmptyValue);
      }
      if inst.isActive && ActiveNumberChanged(s, id, inst) {
        if ConflictingCompany(s, inst.normalized, {}, None) {
          return Some(CompanyNumber);
        }
      }
      if columns == Some({}) {
        return None;
      }
      if id !in endpoints && columns.Some? {
        return Some(MissingRow);
      }
      var row := EndpointRow(s, id, inst, columns);
      if exists k | k in endpoints :: k != id && endpoints[k].normalized == row.normalized {
        return Some(DuplicateNumber);
      }
      endpoints := endpoints[id := row];
      raised := None;
    }

    /** remove_company_link: each phone of the person is tested, in whatever order they come. */
    method RemoveCompanyLink(person: nat, company: nat) returns (raised: Option<Error>)
      modifies this`links
      ensures match RemoveLink(old(View()), person, company)
              case Ok(t) => raised == None && View() == t
              case Err(e) => raised == Some(e) && View() == old(View())
    {
      var s := State(methods, endpoints, links);
      if (person, company) !in links {
        return Some(LinkNotFound);
      }
      hide WouldConflict;
      var phones := set k | k in methods && PhoneOf(s, k, person);
      while phones != {}
        invariant forall k | k in phones :: PhoneOf(s, k, person)
        invariant forall k | k in s.methods && PhoneOf(s, k, person) && k !in phones :: !WouldConflict(s, k, person, company)
        decreases phones
      {
        var k :| k in phones;
        if WouldConflict(s, k, person, company) {
          return Some(RemovalConflict);
        }
        phones := phones - {k};
      }
      links := links - {(person, company)};
      raised := None;
    }
  }
}
