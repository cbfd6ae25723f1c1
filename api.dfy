/**
 * The record store `ApiService` (src/services/api.ts). Every collection is
 * kept in browser storage under the key "donor_intelligence_data_" followed
 * by the collection name. Here the storage is a map from such keys to the
 * sequence of records stored there; JSON encoding is left out, so a
 * collection reads back exactly as it was written.
 *
 * Ids that the source draws at random (`generateId`) are inputs of the
 * operations that create records.
 */
module Api {
  import opened Wrappers
  import opened Types
  import opened Seqs
  import opened JsText
  import MockData

  const StoragePrefix := "donor_intelligence_data"

  /** `${storageKey}_${key}`. */
  function StorageKey(key: string): string {
    StoragePrefix + "_" + key
  }

  /** Different collection names never share a storage key. */
  lemma StorageKeyInjective(a: string, b: string)
    ensures StorageKey(a) == StorageKey(b) <==> a == b
  {
    if StorageKey(a) == StorageKey(b) {
      assert a == StorageKey(a)[|StoragePrefix| + 1..];
      assert b == StorageKey(b)[|StoragePrefix| + 1..];
    }
  }

  const DonorsKey := "donors"
  const CampaignsKey := "campaigns"
  const PlaybooksKey := "playbooks"
  const VolunteersKey := "volunteers"
  const VolunteerTasksKey := "volunteerTasks"
  const TasksKey := "tasks"
  const DonationsKey := "donations"

  /** A stored record of any of the seven collections. */
  datatype Record =
    | DonorRecord(donor: Donor)
    | CampaignRecord(campaign: Campaign)
    | PlaybookRecord(playbook: Playbook)
    | VolunteerRecord(volunteer: Volunteer)
    | VolunteerTaskRecord(volunteerTask: VolunteerTask)
    | TaskRecord(task: Task)
    | DonationRecord(donation: Donation)

  function RecordId(r: Record): string {
    match r
    case DonorRecord(x) => x.id
    case CampaignRecord(x) => x.id
    case PlaybookRecord(x) => x.id
    case VolunteerRecord(x) => x.id
    case VolunteerTaskRecord(x) => x.id
    case TaskRecord(x) => x.id
    case DonationRecord(x) => x.id
  }

  /** The name of the collection a record belongs in. */
  function CollectionOf(r: Record): (key: string)
    ensures key == DonorsKey <==> r.DonorRecord?
    ensures key == CampaignsKey <==> r.CampaignRecord?
    ensures key == PlaybooksKey <==> r.PlaybookRecord?
    ensures key == VolunteersKey <==> r.VolunteerRecord?
    ensures key == VolunteerTasksKey <==> r.VolunteerTaskRecord?
    ensures key == TasksKey <==> r.TaskRecord?
    ensures key == DonationsKey <==> r.DonationRecord?
  {
    match r
    case DonorRecord(_) => DonorsKey
    case CampaignRecord(_) => CampaignsKey
    case PlaybookRecord(_) => PlaybooksKey
    case VolunteerRecord(_) => VolunteersKey
    case VolunteerTaskRecord(_) => VolunteerTasksKey
    case TaskRecord(_) => TasksKey
    case DonationRecord(_) => DonationsKey
  }

  /** The `Partial<...>` argument of an update, for the collections that have one. */
  datatype Changes =
    | DonorChanges(donorPatch: DonorPatch)
    | CampaignChanges(campaignPatch: CampaignPatch)
    | PlaybookChanges(playbookPatch: PlaybookPatch)
    | VolunteerChanges(volunteerPatch: VolunteerPatch)
    | VolunteerTaskChanges(volunteerTaskPatch: VolunteerTaskPatch)
    | TaskChanges(taskPatch: TaskPatch)

  /** `{ ...record, ...updates }`; changes meant for another collection leave the record as it is. */
  function Apply(r: Record, changes: Changes): (r': Record)
    ensures CollectionOf(r') == CollectionOf(r)
  {
    match (r, changes)
    case (DonorRecord(x), DonorChanges(p)) => DonorRecord(x.Overlay(p))
    case (CampaignRecord(x), CampaignChanges(p)) => CampaignRecord(x.Overlay(p))
    case (PlaybookRecord(x), PlaybookChanges(p)) => PlaybookRecord(x.Overlay(p))
    case (VolunteerRecord(x), VolunteerChanges(p)) => VolunteerRecord(x.Overlay(p))
    case (VolunteerTaskRecord(x), VolunteerTaskChanges(p)) => VolunteerTaskRecord(x.Overlay(p))
    case (TaskRecord(x), TaskChanges(p)) => TaskRecord(x.Overlay(p))
    case _ => r
  }

  /** The collection stored under `key`, or the empty collection when nothing is. */
  function StoredIn(store: map<string, seq<Record>>, key: string): (rs: seq<Record>)
    ensures StorageKey(key) !in store ==> rs == []
  {
    if StorageKey(key) in store then store[StorageKey(key)] else []
  }

  /** Every stored record sits in the collection of its own kind. */
  predicate WellKeyed(store: map<string, seq<Record>>) {
    forall key, r | key in store && r in store[key] :: key == StorageKey(CollectionOf(r))
  }

  lemma {:induction false} WellKeyedCollection(store: map<string, seq<Record>>, key: string)
    requires WellKeyed(store)
    ensures forall r | r in StoredIn(store, key) :: CollectionOf(r) == key
  {
    forall r | r in StoredIn(store, key)
      ensures CollectionOf(r) == key
    {
      StorageKeyInjective(key, CollectionOf(r));
    }
  }

  /** Storing a collection of records of the right kind keeps the store well keyed. */
  lemma {:induction false} WellKeyedUpdate(store: map<string, seq<Record>>, key: string, rs: seq<Record>)
    requires WellKeyed(store)
    requires forall r | r in rs :: CollectionOf(r) == key
    ensures WellKeyed(store[StorageKey(key) := rs])
  {
  }

  function Wrap<T>(xs: seq<T>, wrap: T -> Record): (rs: seq<Record>)
    ensures |rs| == |xs| && forall i :: 0 <= i < |xs| ==> rs[i] == wrap(xs[i])
  {
    seq(|xs|, i requires 0 <= i < |xs| => wrap(xs[i]))
  }

  function Unwrap<T>(rs: seq<Record>, view: Record --> T): (xs: seq<T>)
    requires forall r | r in rs :: view.requires(r)
    ensures |xs| == |rs| && forall i :: 0 <= i < |rs| ==> xs[i] == view(rs[i])
  {
    seq(|rs|, i requires 0 <= i < |rs| => view(rs[i]))
  }

  function WrapOption<T>(x: Option<T>, wrap: T -> Record): Option<Record> {
    match x
    case None => None
    case Some(v) => Some(wrap(v))
  }

  function DonorRecordOf(x: Donor): Record { DonorRecord(x) }
  function CampaignRecordOf(x: Campaign): Record { CampaignRecord(x) }
  function PlaybookRecordOf(x: Playbook): Record { PlaybookRecord(x) }
  function VolunteerRecordOf(x: Volunteer): Record { VolunteerRecord(x) }
  function VolunteerTaskRecordOf(x: VolunteerTask): Record { VolunteerTaskRecord(x) }
  function TaskRecordOf(x: Task): Record { TaskRecord(x) }
  function DonationRecordOf(x: Donation): Record { DonationRecord(x) }

  function AsDonor(r: Record): Donor requires r.DonorRecord? { r.donor }
  function AsCampaign(r: Record): Campaign requires r.CampaignRecord? { r.campaign }
  function AsPlaybook(r: Record): Playbook requires r.PlaybookRecord? { r.playbook }
  function AsVolunteer(r: Record): Volunteer requires r.VolunteerRecord? { r.volunteer }
  function AsVolunteerTask(r: Record): VolunteerTask requires r.VolunteerTaskRecord? { r.volunteerTask }
  function AsTask(r: Record): Task requires r.TaskRecord? { r.task }
  function AsDonation(r: Record): Donation requires r.DonationRecord? { r.donation }

  /** `store` after `initializeData` has written the seven seed collections into it. */
  function Seeded(store: map<string, seq<Record>>): map<string, seq<Record>> {
    store[StorageKey(DonorsKey) := Wrap(MockData.Donors, DonorRecordOf)]
         [StorageKey(CampaignsKey) := Wrap(MockData.Campaigns, CampaignRecordOf)]
         [StorageKey(PlaybooksKey) := Wrap(MockData.Playbooks, PlaybookRecordOf)]
         [StorageKey(VolunteersKey) := Wrap(MockData.Volunteers, VolunteerRecordOf)]
         [StorageKey(VolunteerTasksKey) := Wrap(MockData.VolunteerTasks, VolunteerTaskRecordOf)]
         [StorageKey(TasksKey) := Wrap(MockData.TodayTasks, TaskRecordOf)]
         [StorageKey(DonationsKey) := Wrap(MockData.RecentDonations, DonationRecordOf)]
  }

  /**
   * Seeding keeps a well-keyed store well keyed, and afterwards every one of
   * the seven collections holds exactly its seed records.
   */
  lemma {:induction false} SeededSpec(store: map<string, seq<Record>>)
    requires WellKeyed(store)
    ensures WellKeyed(Seeded(store))
    ensures StoredIn(Seeded(store), DonorsKey) == Wrap(MockData.Donors, DonorRecordOf)
    ensures StoredIn(Seeded(store), CampaignsKey) == Wrap(MockData.Campaigns, CampaignRecordOf)
    ensures StoredIn(Seeded(store), PlaybooksKey) == Wrap(MockData.Playbooks, PlaybookRecordOf)
    ensures StoredIn(Seeded(store), VolunteersKey) == Wrap(MockData.Volunteers, VolunteerRecordOf)
    ensures StoredIn(Seeded(store), VolunteerTasksKey) == Wrap(MockData.VolunteerTasks, VolunteerTaskRecordOf)
    ensures StoredIn(Seeded(store), TasksKey) == Wrap(MockData.TodayTasks, TaskRecordOf)
    ensures StoredIn(Seeded(store), DonationsKey) == Wrap(MockData.RecentDonations, DonationRecordOf)
  {
    var s1 := store[StorageKey(DonorsKey) := Wrap(MockData.Donors, DonorRecordOf)];
    WellKeyedUpdate(store, DonorsKey, Wrap(MockData.Donors, DonorRecordOf));
    var s2 := s1[StorageKey(CampaignsKey) := Wrap(MockData.Campaigns, CampaignRecordOf)];
    WellKeyedUpdate(s1, CampaignsKey, Wrap(MockData.Campaigns, CampaignRecordOf));
    var s3 := s2[StorageKey(PlaybooksKey) := Wrap(MockData.Playbooks, PlaybookRecordOf)];
    WellKeyedUpdate(s2, PlaybooksKey, Wrap(MockData.Playbooks, PlaybookRecordOf));
    var s4 := s3[StorageKey(VolunteersKey) := Wrap(MockData.Volunteers, VolunteerRecordOf)];
    WellKeyedUpdate(s3, VolunteersKey, Wrap(MockData.Volunteers, VolunteerRecordOf));
    var s5 := s4[StorageKey(VolunteerTasksKey) := Wrap(MockData.VolunteerTasks, VolunteerTaskRecordOf)];
    WellKeyedUpdate(s4, VolunteerTasksKey, Wrap(MockData.VolunteerTasks, VolunteerTaskRecordOf));
    var s6 := s5[StorageKey(TasksKey) := Wrap(MockData.TodayTasks, TaskRecordOf)];
    WellKeyedUpdate(s5, TasksKey, Wrap(MockData.TodayTasks, TaskRecordOf));
    WellKeyedUpdate(s6, DonationsKey, Wrap(MockData.RecentDonations, DonationRecordOf));
    // The three collection names of nine letters differ in their first letter.
    assert CampaignsKey[0] != PlaybooksKey[0] && CampaignsKey[0] != DonationsKey[0] && PlaybooksKey[0] != DonationsKey[0];
    StorageKeyInjective(CampaignsKey, PlaybooksKey);
    StorageKeyInjective(CampaignsKey, DonationsKey);
    StorageKeyInjective(PlaybooksKey, DonationsKey);
    assert Seeded(store) == s6[StorageKey(DonationsKey) := Wrap(MockData.RecentDonations, DonationRecordOf)];
  }

  // ---------------------------------------------------------------------------
  // The donor matcher of `searchDonors`

  /** A donor field read by name (`donor[field]`), as the JavaScript value it is. */
  datatype FieldValue = StringValue(text: string) | NumberField(number: int) | ArrayValue(items: seq<string>) | Undefined

  /** `ICPCriteria.operator`. */
  datatype Operator = Equals | Contains | Greater | Less | Between

  /** `ICPCriteria.value`: a string, a number or a `[min, max]` pair. */
  datatype CriterionValue = TextValue(text: string) | NumberValue(number: int) | RangeValue(min: int, max: int)

  datatype Criterion = Criterion(field: string, operator: Operator, value: CriterionValue)

  function DonorStatusName(status: DonorStatus): string {
    match status
    case Active => "active"
    case Inactive => "inactive"
    case Prospect => "prospect"
  }

  /** `donor[field]`; a name that is not a donor field reads as undefined. */
  function DonorField(d: Donor, field: string): FieldValue {
    if field == "id" then StringValue(d.id)
    else if field == "firstName" then StringValue(d.firstName)
    else if field == "lastName" then StringValue(d.lastName)
    else if field == "email" then StringValue(d.email)
    else if field == "phone" then StringValue(d.phone)
    else if field == "state" then StringValue(d.state)
    else if field == "city" then StringValue(d.city)
    else if field == "totalDonations" then NumberField(d.totalDonations)
    else if field == "lastDonationDate" then StringValue(d.lastDonationDate)
    else if field == "status" then StringValue(DonorStatusName(d.status))
    else if field == "tags" then ArrayValue(d.tags)
    else if field == "linkedInUrl" then (if d.linkedInUrl.Some? then StringValue(d.linkedInUrl.value) else Undefined)
    else if field == "createdAt" then StringValue(d.createdAt)
    else Undefined
  }

  /** `String(value)`: an array joins its items with commas. */
  function FieldString(v: FieldValue): string {
    match v
    case StringValue(t) => t
    case NumberField(n) => IntToString(n)
    case ArrayValue(items) => Join(items, ",")
    case Undefined => "undefined"
  }

  /** `String(criterion.value)`. */
  function CriterionString(v: CriterionValue): string {
    match v
    case TextValue(t) => t
    case NumberValue(n) => IntToString(n)
    case RangeValue(lo, hi) => IntToString(lo) + "," + IntToString(hi)
  }

  /**
   * `value === criterion.value`: a string equals the same string and a number
   * the same number; an array, a pair or undefined is never identical to
   * anything a criterion holds.
   */
  predicate StrictlyEqual(value: FieldValue, cv: CriterionValue) {
    (value.StringValue? && cv.TextValue? && value.text == cv.text)
    || (value.NumberField? && cv.NumberValue? && value.number == cv.number)
  }

  /** `Number(value)` of a donor field; None is NaN. An array is read through its comma-joined text. */
  function FieldNumber(v: FieldValue): Option<int> {
    match v
    case NumberField(n) => Some(n)
    case Undefined => None
    case StringValue(t) => TextNumber(t)
    case ArrayValue(items) => TextNumber(Join(items, ","))
  }

  /** `Number(criterion.value)`; a `[min, max]` pair reads as the text "min,max", which is NaN. */
  function CriterionNumber(cv: CriterionValue): Option<int> {
    match cv
    case NumberValue(n) => Some(n)
    case TextValue(t) => TextNumber(t)
    case RangeValue(_, _) => None
  }

  /**
   * `const [min, max] = criterion.value`, each bound as the comparison reads
   * it: a pair gives its two numbers; a text is destructured into its first
   * two characters, each then read as a number (a missing one is undefined,
   * so NaN). A lone number cannot be destructured: see `Holds`.
   */
  function BetweenBounds(cv: CriterionValue): (bounds: (Option<int>, Option<int>))
    ensures cv.RangeValue? ==> bounds == (Some(cv.min), Some(cv.max))
    ensures cv.TextValue? && |cv.text| < 2 ==> bounds.1.None?
  {
    match cv
    case RangeValue(lo, hi) => (Some(lo), Some(hi))
    case TextValue(t) =>
      (if |t| >= 1 then TextNumber(t[..1]) else None, if |t| >= 2 then TextNumber(t[1..2]) else None)
    case NumberValue(_) => (None, None)
  }

  /**
   * One criterion of `searchDonors`. The order operators compare
   * `Number(value)` with the criterion's bound; any comparison with NaN is
   * false. A between criterion whose value is a lone number is taken to fail.
   */
  predicate Holds(c: Criterion, d: Donor) {
    var value := DonorField(d, c.field);
    Matches(value, FieldNumber(value), c.operator, c.value)
  }

  /** The `switch` on the operator, for the field's value and its `Number(value)`. */
  predicate Matches(value: FieldValue, number: Option<int>, op: Operator, cv: CriterionValue) {
    match op
    case Equals => StrictlyEqual(value, cv)
    case Contains => Includes(ToLower(FieldString(value)), ToLower(CriterionString(cv)))
    case _ => Compares(number, op, cv)
  }

  /** The numeric operators, on `Number(value)`. */
  predicate Compares(number: Option<int>, op: Operator, cv: CriterionValue)
    requires op in {Greater, Less, Between}
  {
    match op
    case Greater => var y := CriterionNumber(cv); number.Some? && y.Some? && number.value > y.value
    case Less => var y := CriterionNumber(cv); number.Some? && y.Some? && number.value < y.value
    case Between => InBounds(number, BetweenBounds(cv))
  }

  /** `lo <= x && x <= hi`, false as soon as one of the three is NaN. */
  predicate InBounds(x: Option<int>, bounds: (Option<int>, Option<int>)) {
    x.Some? && bounds.0.Some? && bounds.1.Some? && bounds.0.value <= x.value <= bounds.1.value
  }

  /** `criteria.every(criterion => ...)`, tried in order. */
  predicate HoldsAll(criteria: seq<Criterion>, d: Donor) {
    criteria == [] || (Holds(criteria[0], d) && HoldsAll(criteria[1..], d))
  }

  lemma {:induction false} HoldsAllEvery(criteria: seq<Criterion>, d: Donor)
    ensures HoldsAll(criteria, d) <==> forall c :: c in criteria ==> Holds(c, d)
  {
    if criteria != [] {
      HoldsAllEvery(criteria[1..], d);
      assert forall c :: c in criteria <==> c == criteria[0] || c in criteria[1..];
    }
  }

  function MeetsCriteria(criteria: seq<Criterion>): Donor -> bool {
    d => HoldsAll(criteria, d)
  }

  /**
   * `donors.filter(donor => criteria.every(...))`: the donors meeting every
   * criterion, in their stored order; no criteria keep every donor.
   */
  function Search(donors: seq<Donor>, criteria: seq<Criterion>): (found: seq<Donor>)
    ensures IsSubsequence(found, donors)
    ensures forall d :: d in found <==> d in donors && forall c :: c in criteria ==> Holds(c, d)
    ensures criteria == [] ==> found == donors
  {
    FilterKeepsAll(donors, MeetsCriteria(criteria));
    forall d ensures MeetsCriteria(criteria)(d) <==> forall c :: c in criteria ==> Holds(c, d) {
      HoldsAllEvery(criteria, d);
    }
    FilterIsSubsequence(donors, MeetsCriteria(criteria));
    Filter(donors, MeetsCriteria(criteria))
  }

  /** Contains ignores the case of the search text. */
  lemma ContainsIgnoresCase(d: Donor, field: string, text: string)
    ensures Holds(Criterion(field, Contains, TextValue(text)), d)
        <==> Holds(Criterion(field, Contains, TextValue(ToLower(text))), d)
  {
    ToLowerIdempotent(text);
  }

  /** A string field equal to a text also contains it. */
  lemma EqualsImpliesContains(d: Donor, field: string, text: string)
    requires Holds(Criterion(field, Equals, TextValue(text)), d)
    ensures Holds(Criterion(field, Contains, TextValue(text)), d)
  {
    var s := ToLower(FieldString(DonorField(d, field)));
    assert s[0..|s|] == s;
    IncludesAt(s, ToLower(text), 0);
  }

  /**
   * Between is inclusive at both ends: on a numeric field it holds exactly
   * when the value is neither less than the minimum nor greater than the
   * maximum. Greater and less are strict, so never hold together for one
   * bound, and between a bound and itself is equality.
   */
  lemma OrderOperators(d: Donor, field: string, lo: int, hi: int)
    requires DonorField(d, field).NumberField?
    ensures Holds(Criterion(field, Between, RangeValue(lo, hi)), d)
        <==> !Holds(Criterion(field, Less, NumberValue(lo)), d) && !Holds(Criterion(field, Greater, NumberValue(hi)), d)
    ensures !(Holds(Criterion(field, Greater, NumberValue(lo)), d) && Holds(Criterion(field, Less, NumberValue(lo)), d))
    ensures Holds(Criterion(field, Between, RangeValue(lo, lo)), d) <==> Holds(Criterion(field, Equals, NumberValue(lo)), d)
  {
  }

  /**
   * A numeric text criterion compares like the number it spells:
   * `Number("1000")` is 1000.
   */
  lemma NumericTextCriterion(d: Donor, field: string, n: int)
    ensures Holds(Criterion(field, Greater, TextValue(IntToString(n))), d)
        <==> Holds(Criterion(field, Greater, NumberValue(n)), d)
    ensures Holds(Criterion(field, Less, TextValue(IntToString(n))), d)
        <==> Holds(Criterion(field, Less, NumberValue(n)), d)
  {
    NumericTextCompares(FieldNumber(DonorField(d, field)), n);
  }

  lemma NumericTextCompares(number: Option<int>, n: int)
    ensures Compares(number, Greater, TextValue(IntToString(n))) <==> Compares(number, Greater, NumberValue(n))
    ensures Compares(number, Less, TextValue(IntToString(n))) <==> Compares(number, Less, NumberValue(n))
  {
    TextNumberRoundTrip(n);
    assert CriterionNumber(TextValue(IntToString(n))) == CriterionNumber(NumberValue(n));
  }

  /**
   * A between criterion given as a text of two digits is destructured into
   * its two characters: "19" holds exactly where the range [1, 9] does.
   */
  lemma TextBetweenCriterion(d: Donor, field: string, t: string)
    requires |t| == 2 && IsDigit(t[0]) && IsDigit(t[1])
    ensures Holds(Criterion(field, Between, TextValue(t)), d)
        <==> Holds(Criterion(field, Between, RangeValue(DigitValue(t[0]) as int, DigitValue(t[1]) as int)), d)
  {
    TextBetweenCompares(FieldNumber(DonorField(d, field)), t);
  }

  lemma TextBetweenCompares(number: Option<int>, t: string)
    requires |t| == 2 && IsDigit(t[0]) && IsDigit(t[1])
    ensures Compares(number, Between, TextValue(t))
        <==> Compares(number, Between, RangeValue(DigitValue(t[0]) as int, DigitValue(t[1]) as int))
  {
    DigitBounds(t);
  }

  /** A two-character text destructures into its two characters as the bounds. */
  lemma DigitBounds(t: string)
    requires |t| == 2 && IsDigit(t[0]) && IsDigit(t[1])
    ensures BetweenBounds(TextValue(t)) == (Some(DigitValue(t[0]) as int), Some(DigitValue(t[1]) as int))
  {
    assert t[..1] == [t[0]] && t[1..2] == [t[1]];
    DigitNumber(t[0]);
    DigitNumber(t[1]);
  }

  lemma DigitNumber(c: char)
    requires IsDigit(c)
    ensures TextNumber([c]) == Some(DigitValue(c) as int)
  {
    TrimUnpadded([c]);
    assert AllDigits([c]);
    assert DigitsValue([c]) == DigitsValue([]) * 10 + DigitValue(c);
  }

  class ApiService {
    var store: map<string, seq<Record>>

    predicate Valid()
      reads this
    {
      WellKeyed(store)
    }

    function Stored(key: string): seq<Record>
      reads this
    {
      StoredIn(store, key)
    }

    /** `new ApiService()`: the storage found at start-up, then `initializeData`. */
    constructor (storage: map<string, seq<Record>>)
      requires WellKeyed(storage)
      ensures Valid()
      ensures StorageKey(DonorsKey) in storage ==> store == storage
      ensures StorageKey(DonorsKey) !in storage ==> store == Seeded(storage)
    {
      store := storage;
      new;
      InitializeData();
    }

    /** `getData(key)`: the stored collection, or the empty one for a key never written. */
    method GetData(key: string) returns (data: seq<Record>)
      ensures data == Stored(key)
      ensures StorageKey(key) !in store ==> data == []
    {
      if StorageKey(key) in store {
        data := store[StorageKey(key)];
      } else {
        data := [];
      }
    }

    /** `setData(key, data)`: the collection under `key` becomes `data`, nothing else changes. */
    method SetData(key: string, data: seq<Record>)
      modifies this
      ensures store == old(store)[StorageKey(key) := data]
      ensures Stored(key) == data
    {
      store := store[StorageKey(key) := data];
    }

    /** Seeds all seven collections when, and only when, there is no donors collection. */
    method InitializeData()
      requires Valid()
      modifies this
      ensures Valid()
      ensures old(StorageKey(DonorsKey) in store) ==> store == old(store)
      ensures old(StorageKey(DonorsKey) !in store) ==> store == Seeded(old(store))
    {
      if StorageKey(DonorsKey) !in store {
        SetData(DonorsKey, Wrap(MockData.Donors, DonorRecordOf));
        SetData(CampaignsKey, Wrap(MockData.Campaigns, CampaignRecordOf));
        SetData(PlaybooksKey, Wrap(MockData.Playbooks, PlaybookRecordOf));
        SetData(VolunteersKey, Wrap(MockData.Volunteers, VolunteerRecordOf));
        SetData(VolunteerTasksKey, Wrap(MockData.VolunteerTasks, VolunteerTaskRecordOf));
        SetData(TasksKey, Wrap(MockData.TodayTasks, TaskRecordOf));
        SetData(DonationsKey, Wrap(MockData.RecentDonations, DonationRecordOf));
        SeededSpec(old(store));
      }
    }

    /** The donors collection as donors. */
    function StoredDonors(): (donors: seq<Donor>)
      requires Valid()
      reads this
      ensures Wrap(donors, DonorRecordOf) == Stored(DonorsKey)
    {
      WellKeyedCollection(store, DonorsKey);
      Unwrap(Stored(DonorsKey), AsDonor)
    }

    // -------------------------------------------------------------------------
    // The operations every collection shares

    twostate predicate Appended(key: string, r: Record)
      reads this
    {
      store == old(store)[StorageKey(key) := old(Stored(key)) + [r]]
    }

    twostate predicate Prepended(key: string, r: Record)
      reads this
    {
      store == old(store)[StorageKey(key) := [r] + old(Stored(key))]
    }

    /**
     * An update by id: with no record of that id, nothing is returned and
     * nothing changes; otherwise the first record of that id, and only it,
     * is replaced by the record with the changes spread over it, which is
     * also what is returned.
     */
    twostate predicate Updated(key: string, id: string, changes: Changes, new updated: Option<Record>)
      reads this
    {
      var rs := old(Stored(key));
      var i := IndexOfId(rs, RecordId, id);
      if i == -1 then updated == None && store == old(store)
      else updated == Some(Apply(rs[i], changes)) && store == old(store)[StorageKey(key) := rs[i := updated.value]]
    }

    /**
     * A delete by id: it reports success exactly when some record has the id,
     * and then the collection loses every record of that id, the rest staying
     * in order; otherwise nothing changes.
     */
    twostate predicate Deleted(key: string, id: string, deleted: bool)
      reads this
    {
      (deleted <==> exists r :: r in old(Stored(key)) && RecordId(r) == id)
      && (deleted ==> store == old(store)[StorageKey(key) := RemoveById(old(Stored(key)), RecordId, id)])
      && (!deleted ==> store == old(store))
    }

    /** `collection.find(x => x.id === id)`. */
    method Find(key: string, id: string) returns (found: Option<Record>)
      ensures found == FindById(Stored(key), RecordId, id)
      ensures found.None? <==> forall r :: r in Stored(key) ==> RecordId(r) != id
      ensures found.Some? ==> IsFirstWithId(Stored(key), RecordId, id, found.value)
    {
      var data := GetData(key);
      found := FindById(data, RecordId, id);
    }

    /** `push` of a new record, then `setData`. */
    method Append(key: string, r: Record)
      requires Valid() && CollectionOf(r) == key
      modifies this
      ensures Valid() && Appended(key, r)
    {
      var data := GetData(key);
      WellKeyedCollection(store, key);
      WellKeyedUpdate(store, key, data + [r]);
      SetData(key, data + [r]);
    }

    /** `unshift` of a new record, then `setData`. */
    method Prepend(key: string, r: Record)
      requires Valid() && CollectionOf(r) == key
      modifies this
      ensures Valid() && Prepended(key, r)
    {
      var data := GetData(key);
      WellKeyedCollection(store, key);
      WellKeyedUpdate(store, key, [r] + data);
      SetData(key, [r] + data);
    }

    /** `findIndex` by id; -1 gives null, otherwise the record is spread over with the changes. */
    method Update(key: string, id: string, changes: Changes) returns (updated: Option<Record>)
      requires Valid()
      modifies this
      ensures Valid() && Updated(key, id, changes, updated)
    {
      var data := GetData(key);
      var index := IndexOfId(data, RecordId, id);
      if index == -1 {
        return None;
      }
      WellKeyedCollection(store, key);
      data := data[index := Apply(data[index], changes)];
      WellKeyedUpdate(store, key, data);
      SetData(key, data);
      updated := Some(data[index]);
    }

    /** `filter` by id; an unchanged length means there was nothing to delete. */
    method Delete(key: string, id: string) returns (deleted: bool)
      requires Valid()
      modifies this
      ensures Valid() && Deleted(key, id, deleted)
    {
      var data := GetData(key);
      var filtered := RemoveById(data, RecordId, id);
      RemoveByIdUnchanged(data, RecordId, id);
      if |filtered| == |data| {
        return false;
      }
      WellKeyedCollection(store, key);
      WellKeyedUpdate(store, key, filtered);
      SetData(key, filtered);
      deleted := true;
    }

    // -------------------------------------------------------------------------
    // Donors

    method GetDonors() returns (all: seq<Donor>)
      requires Valid()
      ensures Wrap(all, DonorRecordOf) == Stored(DonorsKey)
    {
      var data := GetData(DonorsKey);
      WellKeyedCollection(store, DonorsKey);
      all := Unwrap(data, AsDonor);
    }

    method GetDonor(id: string) returns (found: Option<Donor>)
      requires Valid()
      ensures WrapOption(found, DonorRecordOf) == FindById(Stored(DonorsKey), RecordId, id)
      ensures found.None? <==> forall r :: r in Stored(DonorsKey) ==> RecordId(r) != id
      ensures found.Some? ==> IsFirstWithId(Stored(DonorsKey), RecordId, id, DonorRecord(found.value))
    {
      var r := Find(DonorsKey, id);
      WellKeyedCollection(store, DonorsKey);
      found := if r.Some? then Some(r.value.donor) else None;
    }

    /** The new record is the given one carrying the id `generateId` drew. */
    method CreateDonor(fields: Donor, id: string) returns (created: Donor)
      requires Valid()
      modifies this
      ensures Valid()
      ensures created == fields.(id := id)
      ensures Appended(DonorsKey, DonorRecordOf(created))
    {
      created := fields.(id := id);
      Append(DonorsKey, DonorRecordOf(created));
    }

    method UpdateDonor(id: string, updates: DonorPatch) returns (updated: Option<Donor>)
      requires Valid()
      modifies this
      ensures Valid()
      ensures Updated(DonorsKey, id, DonorChanges(updates), WrapOption(updated, DonorRecordOf))
    {
      WellKeyedCollection(store, DonorsKey);
      var r := Update(DonorsKey, id, DonorChanges(updates));
      updated := if r.Some? then Some(r.value.donor) else None;
    }

    method DeleteDonor(id: string) returns (deleted: bool)
      requires Valid()
      modifies this
      ensures Valid()
      ensures Deleted(DonorsKey, id, deleted)
    {
      deleted := Delete(DonorsKey, id);
    }

    // -------------------------------------------------------------------------
    // Campaigns

    method GetCampaigns() returns (all: seq<Campaign>)
      requires Valid()
      ensures Wrap(all, CampaignRecordOf) == Stored(CampaignsKey)
    {
      var data := GetData(CampaignsKey);
      WellKeyedCollection(store, CampaignsKey);
      all := Unwrap(data, AsCampaign);
    }

    method GetCampaign(id: string) returns (found: Option<Campaign>)
      requires Valid()
      ensures WrapOption(found, CampaignRecordOf) == FindById(Stored(CampaignsKey), RecordId, id)
      ensures found.None? <==> forall r :: r in Stored(CampaignsKey) ==> RecordId(r) != id
      ensures found.Some? ==> IsFirstWithId(Stored(CampaignsKey), RecordId, id, CampaignRecord(found.value))
    {
      var r := Find(CampaignsKey, id);
      WellKeyedCollection(store, CampaignsKey);
      found := if r.Some? then Some(r.value.campaign) else None;
    }

    /** The new record is the given one carrying the id `generateId` drew. */
    method CreateCampaign(fields: Campaign, id: string) returns (created: Campaign)
      requires Valid()
      modifies this
      ensures Valid()
      ensures created == fields.(id := id)
      ensures Appended(CampaignsKey, CampaignRecordOf(created))
    {
      created := fields.(id := id);
      Append(CampaignsKey, CampaignRecordOf(created));
    }

    method UpdateCampaign(id: string, updates: CampaignPatch) returns (updated: Option<Campaign>)
      requires Valid()
      modifies this
      ensures Valid()
      ensures Updated(CampaignsKey, id, CampaignChanges(updates), WrapOption(updated, CampaignRecordOf))
    {
      WellKeyedCollection(store, CampaignsKey);
      var r := Update(CampaignsKey, id, CampaignChanges(updates));
      updated := if r.Some? then Some(r.value.campaign) else None;
    }

    method DeleteCampaign(id: string) returns (deleted: bool)
      requires Valid()
      modifies this
      ensures Valid()
      ensures Deleted(CampaignsKey, id, deleted)
    {
      deleted := Delete(CampaignsKey, id);
    }

    // -------------------------------------------------------------------------
    // Playbooks

    method GetPlaybooks() returns (all: seq<Playbook>)
      requires Valid()
      ensures Wrap(all, PlaybookRecordOf) == Stored(PlaybooksKey)
    {
      var data := GetData(PlaybooksKey);
      WellKeyedCollection(store, PlaybooksKey);
      all := Unwrap(data, AsPlaybook);
    }

    method GetPlaybook(id: string) returns (found: Option<Playbook>)
      requires Valid()
      ensures WrapOption(found, PlaybookRecordOf) == FindById(Stored(PlaybooksKey), RecordId, id)
      ensures found.None? <==> forall r :: r in Stored(PlaybooksKey) ==> RecordId(r) != id
      ensures found.Some? ==> IsFirstWithId(Stored(PlaybooksKey), RecordId, id, PlaybookRecord(found.value))
    {
      var r := Find(PlaybooksKey, id);
      WellKeyedCollection(store, PlaybooksKey);
      found := if r.Some? then Some(r.value.playbook) else None;
    }

    /** The new record is the given one carrying the id `generateId` drew. */
    method CreatePlaybook(fields: Playbook, id: string) returns (created: Playbook)
      requires Valid()
      modifies this
      ensures Valid()
      ensures created == fields.(id := id)
      ensures Appended(PlaybooksKey, PlaybookRecordOf(created))
    {
      created := fields.(id := id);
      Append(PlaybooksKey, PlaybookRecordOf(created));
    }

    method UpdatePlaybook(id: string, updates: PlaybookPatch) returns (updated: Option<Playbook>)
      requires Valid()
      modifies this
      ensures Valid()
      ensures Updated(PlaybooksKey, id, PlaybookChanges(updates), WrapOption(updated, PlaybookRecordOf))
    {
      WellKeyedCollection(store, PlaybooksKey);
      var r := Update(PlaybooksKey, id, PlaybookChanges(updates));
      updated := if r.Some? then Some(r.value.playbook) else None;
    }

    method DeletePlaybook(id: string) returns (deleted: bool)
      requires Valid()
      modifies this
      ensures Valid()
      ensures Deleted(PlaybooksKey, id, deleted)
    {
      deleted := Delete(PlaybooksKey, id);
    }

    // -------------------------------------------------------------------------
    // Volunteers

    method GetVolunteers() returns (all: seq<Volunteer>)
      requires Valid()
      ensures Wrap(all, VolunteerRecordOf) == Stored(VolunteersKey)
    {
      var data := GetData(VolunteersKey);
      WellKeyedCollection(store, VolunteersKey);
      all := Unwrap(data, AsVolunteer);
    }

    method GetVolunteer(id: string) returns (found: Option<Volunteer>)
      requires Valid()
      ensures WrapOption(found, VolunteerRecordOf) == FindById(Stored(VolunteersKey), RecordId, id)
      ensures found.None? <==> forall r :: r in Stored(VolunteersKey) ==> RecordId(r) != id
      ensures found.Some? ==> IsFirstWithId(Stored(VolunteersKey), RecordId, id, VolunteerRecord(found.value))
    {
      var r := Find(VolunteersKey, id);
      WellKeyedCollection(store, VolunteersKey);
      found := if r.Some? then Some(r.value.volunteer) else None;
    }

    /** The new record is the given one carrying the id `generateId` drew. */
    method CreateVolunteer(fields: Volunteer, id: string) returns (created: Volunteer)
      requires Valid()
      modifies this
      ensures Valid()
      ensures created == fields.(id := id)
      ensures Appended(VolunteersKey, VolunteerRecordOf(created))
    {
      created := fields.(id := id);
      Append(VolunteersKey, VolunteerRecordOf(created));
    }

    method UpdateVolunteer(id: string, updates: VolunteerPatch) returns (updated: Option<Volunteer>)
      requires Valid()
      modifies this
      ensures Valid()
      ensures Updated(VolunteersKey, id, VolunteerChanges(updates), WrapOption(updated, VolunteerRecordOf))
    {
      WellKeyedCollection(store, VolunteersKey);
      var r := Update(VolunteersKey, id, VolunteerChanges(updates));
      updated := if r.Some? then Some(r.value.volunteer) else None;
    }

    method DeleteVolunteer(id: string) returns (deleted: bool)
      requires Valid()
      modifies this
      ensures Valid()
      ensures Deleted(VolunteersKey, id, deleted)
    {
      deleted := Delete(VolunteersKey, id);
    }

    // -------------------------------------------------------------------------
    // Tasks

    method GetTasks() returns (all: seq<Task>)
      requires Valid()
      ensures Wrap(all, TaskRecordOf) == Stored(TasksKey)
    {
      var data := GetData(TasksKey);
      WellKeyedCollection(store, TasksKey);
      all := Unwrap(data, AsTask);
    }

    method UpdateTask(id: string, updates: TaskPatch) returns (updated: Option<Task>)
      requires Valid()
      modifies this
      ensures Valid()
      ensures Updated(TasksKey, id, TaskChanges(updates), WrapOption(updated, TaskRecordOf))
    {
      WellKeyedCollection(store, TasksKey);
      var r := Update(TasksKey, id, TaskChanges(updates));
      updated := if r.Some? then Some(r.value.task) else None;
    }

    // -------------------------------------------------------------------------
    // VolunteerTasks

    method GetVolunteerTasks() returns (all: seq<VolunteerTask>)
      requires Valid()
      ensures Wrap(all, VolunteerTaskRecordOf) == Stored(VolunteerTasksKey)
    {
      var data := GetData(VolunteerTasksKey);
      WellKeyedCollection(store, VolunteerTasksKey);
      all := Unwrap(data, AsVolunteerTask);
    }

    /** The new record is the given one carrying the id `generateId` drew. */
    method CreateVolunteerTask(fields: VolunteerTask, id: string) returns (created: VolunteerTask)
      requires Valid()
      modifies this
      ensures Valid()
      ensures created == fields.(id := id)
      ensures Appended(VolunteerTasksKey, VolunteerTaskRecordOf(created))
    {
      created := fields.(id := id);
      Append(VolunteerTasksKey, VolunteerTaskRecordOf(created));
    }

    method UpdateVolunteerTask(id: string, updates: VolunteerTaskPatch) returns (updated: Option<VolunteerTask>)
      requires Valid()
      modifies this
      ensures Valid()
      ensures Updated(VolunteerTasksKey, id, VolunteerTaskChanges(updates), WrapOption(updated, VolunteerTaskRecordOf))
    {
      WellKeyedCollection(store, VolunteerTasksKey);
      var r := Update(VolunteerTasksKey, id, VolunteerTaskChanges(updates));
      updated := if r.Some? then Some(r.value.volunteerTask) else None;
    }

    // -------------------------------------------------------------------------
    // Donations

    method GetDonations() returns (all: seq<Donation>)
      requires Valid()
      ensures Wrap(all, DonationRecordOf) == Stored(DonationsKey)
    {
      var data := GetData(DonationsKey);
      WellKeyedCollection(store, DonationsKey);
      all := Unwrap(data, AsDonation);
    }

    /** `searchDonors`: the stored donors that meet every criterion, in stored order. */
    method SearchDonors(criteria: seq<Criterion>) returns (found: seq<Donor>)
      requires Valid()
      ensures found == Search(StoredDonors(), criteria)
    {
      var donors := GetDonors();
      assert donors == StoredDonors() by {
        assert forall i | 0 <= i < |donors| :: DonorRecordOf(donors[i]) == DonorRecordOf(StoredDonors()[i]);
      }
      found := Filter(donors, MeetsCriteria(criteria));
    }

    /** The new donation goes to the front of the collection. */
    method AddDonation(fields: Donation, id: string) returns (added: Donation)
      requires Valid()
      modifies this
      ensures Valid()
      ensures added == fields.(id := id)
      ensures Prepended(DonationsKey, DonationRecord(added))
      ensures Stored(DonationsKey)[0] == DonationRecord(added)
      ensures Stored(DonationsKey)[1..] == old(Stored(DonationsKey))
    {
      added := fields.(id := id);
      Prepend(DonationsKey, DonationRecord(added));
    }
  }
}
