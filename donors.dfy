/**
 * The donor list page (src/pages/Donors/Donors.tsx): search and status
 * filter, the totals above the list, delete after confirmation, and the
 * add/edit form.
 *
 * `window.confirm` is the `confirmed` input of `Delete`; `Date.now()` ids and
 * today's date are inputs of `Save`.
 */
module Donors {
  import opened Wrappers
  import opened Types
  import opened Seqs
  import opened JsText
  import MockData

  // ---------------------------------------------------------------------------
  // Filter and totals

  /** A donor is listed when "first last" or the email contains the search, ignoring case, and the status passes. */
  predicate DonorShown(statusFilter: Choice<DonorStatus>, searchTerm: string, d: Donor) {
    (IncludesIgnoringCase(d.firstName + " " + d.lastName, searchTerm) || IncludesIgnoringCase(d.email, searchTerm))
    && statusFilter.Admits(d.status)
  }

  function ShownBy(statusFilter: Choice<DonorStatus>, searchTerm: string): Donor -> bool {
    d => DonorShown(statusFilter, searchTerm, d)
  }

  /** `filteredDonors`: the listed donors in their order; 'all' with an empty search lists every donor. */
  function FilteredDonors(donors: seq<Donor>, statusFilter: Choice<DonorStatus>, searchTerm: string): (shown: seq<Donor>)
    ensures IsSubsequence(shown, donors)
    ensures forall d :: d in shown <==> d in donors && DonorShown(statusFilter, searchTerm, d)
    ensures statusFilter == All && searchTerm == "" ==> shown == donors
  {
    EveryDonorShown();
    FilterKeepsAll(donors, ShownBy(All, ""));
    FilterIsSubsequence(donors, ShownBy(statusFilter, searchTerm));
    Filter(donors, ShownBy(statusFilter, searchTerm))
  }

  lemma EveryDonorShown()
    ensures forall d :: DonorShown(All, "", d)
  {
    forall d ensures DonorShown(All, "", d) {
      IncludesEmpty(ToLower(d.firstName + " " + d.lastName));
    }
  }

  function DonationsOf(d: Donor): int { d.totalDonations }

  predicate IsActive(d: Donor) { d.status == DonorStatus.Active }

  function DonorId(d: Donor): string { d.id }

  /** `totalDonations`: the sum of every donor's lifetime giving. */
  function TotalDonations(donors: seq<Donor>): int {
    Sum(donors, DonationsOf)
  }

  /** `activeDonors`: how many donors have status 'active'. */
  function ActiveDonors(donors: seq<Donor>): (n: nat)
    ensures n <= |donors|
    ensures n == |donors| <==> forall d :: d in donors ==> d.status == DonorStatus.Active
  {
    FilterKeepsAll(donors, IsActive);
    Count(donors, IsActive)
  }

  /**
   * "Avg Donation": `Math.round(totalDonations / donors.length)`. With no donors the
   * division is 0/0, which is NaN (None); otherwise it is the whole number nearest to
   * the mean, a half rounding up.
   */
  function AverageDonation(donors: seq<Donor>): (average: Option<int>)
    ensures average.None? <==> donors == []
    ensures average.Some? ==>
      var n := |donors|;
      2 * average.value * n - n <= 2 * TotalDonations(donors) < 2 * average.value * n + n
  {
    if donors == [] then None
    else
      var n, t := |donors|, TotalDonations(donors);
      var q := (2 * t + n) / (2 * n);
      assert 2 * n * q <= 2 * t + n < 2 * n * q + 2 * n;
      Some(q)
  }

  /** Adding a donor raises the total by that donor's giving. */
  lemma TotalAfterAdd(donors: seq<Donor>, d: Donor)
    ensures TotalDonations(donors + [d]) == TotalDonations(donors) + d.totalDonations
  {
    SumAppend(donors, [d], DonationsOf);
  }

  /** Deleting by id lowers the total by exactly the giving of the donors removed. */
  lemma TotalAfterDelete(donors: seq<Donor>, id: string)
    ensures TotalDonations(RemoveById(donors, DonorId, id))
            + TotalDonations(Filter(donors, Not(IdIsNot(DonorId, id)))) == TotalDonations(donors)
  {
    SumSplit(donors, IdIsNot(DonorId, id), DonationsOf);
  }

  // ---------------------------------------------------------------------------
  // Tags

  /** `text.split(',').map(t => t.trim())`. */
  function ParseTags(text: string): (tags: seq<string>)
    ensures |tags| == CountChar(text, ',') + 1
    ensures forall i :: 0 <= i < |tags| ==> Includes(Split(text, ',')[i], tags[i])
    ensures forall i :: 0 <= i < |tags| ==> tags[i] == [] || (!IsWhiteSpace(tags[i][0]) && !IsWhiteSpace(tags[i][|tags[i]| - 1]))
  {
    var parts := Split(text, ',');
    seq(|parts|, i requires 0 <= i < |parts| => Trim(parts[i]))
  }

  /** A tag list as the form shows it: a string that `Trim` leaves alone and without a comma. */
  predicate PlainTag(t: string) {
    ',' !in t && Trim(t) == t
  }

  /** Each tag after the first preceded by the space of the ", " that joined it. */
  function Spaced(tags: seq<string>): (r: seq<string>)
    ensures |r| == |tags|
  {
    seq(|tags|, i requires 0 <= i < |tags| => " " + tags[i])
  }

  lemma {:induction false} SplitJoined(prefix: string, tags: seq<string>)
    requires ',' !in prefix && |tags| > 0
    requires forall t :: t in tags ==> ',' !in t
    ensures Split(prefix + Join(tags, ", "), ',') == [prefix + tags[0]] + Spaced(tags[1..])
    decreases |tags|
  {
    if |tags| == 1 {
      SplitNoSeparator(prefix + tags[0], ',');
    } else {
      var rest := Join(tags[1..], ", ");
      assert prefix + Join(tags, ", ") == (prefix + tags[0]) + [','] + (" " + rest);
      SplitAfterPiece(prefix + tags[0], ',', " " + rest);
      SplitJoined(" ", tags[1..]);
      assert Spaced(tags[1..]) == [" " + tags[1]] + Spaced(tags[2..]);
    }
  }

  /**
   * The tag field shows `tags.join(', ')` and parses what it shows with
   * `ParseTags`: plain tags survive the round trip. (No tags at all are shown
   * as "" and come back as one empty tag.)
   */
  lemma TagsRoundTrip(tags: seq<string>)
    requires |tags| > 0 && forall t :: t in tags ==> PlainTag(t)
    ensures ParseTags(Join(tags, ", ")) == tags
  {
    var text := Join(tags, ", ");
    var parts := Split(text, ',');
    SplitJoinedTags(tags);
    assert |parts| == |tags|;
    TrimmedPieces(parts, tags);
    ParseTagsPieces(text);
    var parsed := ParseTags(text);
    assert |parsed| == |tags|;
    forall i | 0 <= i < |tags|
      ensures parsed[i] == tags[i]
    {
      assert parsed[i] == Trim(parts[i]);
    }
  }

  lemma SplitJoinedTags(tags: seq<string>)
    requires |tags| > 0 && forall t :: t in tags ==> ',' !in t
    ensures Split(Join(tags, ", "), ',') == [tags[0]] + Spaced(tags[1..])
  {
    SplitJoined("", tags);
    assert "" + Join(tags, ", ") == Join(tags, ", ");
    assert "" + tags[0] == tags[0];
  }

  /** The pieces of a joined tag list trim back to the tags. */
  lemma TrimmedPieces(parts: seq<string>, tags: seq<string>)
    requires |tags| > 0 && forall t :: t in tags ==> PlainTag(t)
    requires parts == [tags[0]] + Spaced(tags[1..])
    ensures forall i :: 0 <= i < |parts| ==> Trim(parts[i]) == tags[i]
  {
    forall i | 0 <= i < |parts|
      ensures Trim(parts[i]) == tags[i]
    {
      assert tags[i] in tags;
      if i > 0 {
        assert parts[i] == " " + tags[i];
        TrimLeadingSpace(tags[i]);
      }
    }
  }

  lemma ParseTagsPieces(text: string)
    ensures |ParseTags(text)| == |Split(text, ',')|
    ensures forall i :: 0 <= i < |Split(text, ',')| ==> ParseTags(text)[i] == Trim(Split(text, ',')[i])
  {
  }

  lemma EmptyTagField()
    ensures ParseTags("") == [""]
  {
    assert Trim("") == "";
  }

  // ---------------------------------------------------------------------------
  // The donor the add form creates

  /**
   * The new donor as `handleSave` writes it: the `!` on the form's name,
   * email, phone, state and city fields is a type assertion only, so a field
   * the user never typed into stays undefined in the stored record.
   */
  function AddedAsWritten(form: DonorPatch, id: string, today: string): (added: DonorPatch)
    requires Filled(form.firstName)
    ensures added.firstName == form.firstName && added.lastName == form.lastName && added.email == form.email
    ensures added.totalDonations == Some(NumberOr(form.totalDonations, 0))
    ensures added.status == Some(form.status.GetOr(Prospect)) && added.tags == Some(form.tags.GetOr([]))
  {
    DonorPatch(Some(id), form.firstName, form.lastName, form.email, form.phone, form.state, form.city,
               Some(NumberOr(form.totalDonations, 0)), Some(today), Some(form.status.GetOr(Prospect)),
               Some(form.tags.GetOr([])), None, Some(today))
  }

  /** Every field the list reads is defined: a complete donor record. */
  predicate Complete(d: DonorPatch) {
    d.id.Some? && d.firstName.Some? && d.lastName.Some? && d.email.Some? && d.phone.Some?
    && d.state.Some? && d.city.Some? && d.totalDonations.Some? && d.lastDonationDate.Some?
    && d.status.Some? && d.tags.Some? && d.createdAt.Some?
  }

  /**
   * The list row shows the initials `firstName[0]` and `lastName[0]`; on an
   * undefined field that read throws and the page stops rendering.
   */
  predicate RowRenders(d: DonorPatch) {
    d.firstName.Some? && d.lastName.Some?
  }

  /** The record written is complete exactly when the form filled in the five fields marked with `!`. */
  lemma AddedAsWrittenComplete(form: DonorPatch, id: string, today: string)
    requires Filled(form.firstName)
    ensures Complete(AddedAsWritten(form, id, today)) <==>
      form.lastName.Some? && form.email.Some? && form.phone.Some? && form.state.Some? && form.city.Some?
  {
  }

  /** A form with only the first name filled in passes the save guard, yet the donor it adds cannot be listed. */
  lemma FirstNameOnlyBreaksList()
    ensures var form: DonorPatch := NoDonorChanges.(firstName := Some("Ann"));
      Filled(form.firstName) && !RowRenders(AddedAsWritten(form, "d1", "2024-01-01"))
  {
  }

  /**
   * The new donor with every blank text field stored as "", the value the
   * form's inputs display for it.
   */
  function NewDonor(form: DonorPatch, id: string, today: string): (d: Donor)
    requires Filled(form.firstName)
    ensures d.id == id && d.firstName == form.firstName.value
    ensures d.lastName == form.lastName.GetOr("") && d.email == form.email.GetOr("")
    ensures d.phone == form.phone.GetOr("") && d.state == form.state.GetOr("") && d.city == form.city.GetOr("")
    ensures d.totalDonations == NumberOr(form.totalDonations, 0)
    ensures d.status == form.status.GetOr(Prospect) && d.tags == form.tags.GetOr([])
    ensures d.lastDonationDate == today && d.createdAt == today && d.linkedInUrl == None
    ensures RowRenders(d.AsPatch()) && Complete(d.AsPatch())
  {
    Donor(id, form.firstName.value, form.lastName.GetOr(""), form.email.GetOr(""), form.phone.GetOr(""),
          form.state.GetOr(""), form.city.GetOr(""), NumberOr(form.totalDonations, 0), today,
          form.status.GetOr(Prospect), form.tags.GetOr([]), None, today)
  }

  /** Wherever the code as written stores a complete record, the corrected donor is that record. */
  lemma NewDonorAgrees(form: DonorPatch, id: string, today: string)
    requires Filled(form.firstName) && Complete(AddedAsWritten(form, id, today))
    ensures NewDonor(form, id, today).AsPatch() == AddedAsWritten(form, id, today)
  {
  }

  function OverlayWith(changes: DonorPatch): Donor -> Donor {
    (d: Donor) => d.Overlay(changes)
  }

  /** The edit save: `prev.map(d => d.id === id ? { ...d, ...form } : d)`. */
  function EditedIn(donors: seq<Donor>, id: string, form: DonorPatch): (r: seq<Donor>)
    ensures |r| == |donors|
    ensures forall i :: 0 <= i < |donors| ==> r[i] == if donors[i].id == id then donors[i].Overlay(form) else donors[i]
  {
    ReplaceByIdSpec(donors, DonorId, id, OverlayWith(form));
    ReplaceById(donors, DonorId, id, OverlayWith(form))
  }

  // ---------------------------------------------------------------------------
  // The page

  class DonorsPage {
    var donors: seq<Donor>
    var searchTerm: string
    var statusFilter: Choice<DonorStatus>
    var selectedDonor: Option<Donor>
    var isModalOpen: bool
    var isEditing: bool
    var formData: DonorPatch

    constructor ()
      ensures donors == MockData.Donors && searchTerm == "" && statusFilter == All
      ensures selectedDonor == None && !isModalOpen && !isEditing && formData == NoDonorChanges
    {
      donors := MockData.Donors;
      searchTerm := "";
      statusFilter := All;
      selectedDonor := None;
      isModalOpen := false;
      isEditing := false;
      formData := NoDonorChanges;
    }

    function Shown(): seq<Donor>
      reads this
    {
      FilteredDonors(donors, statusFilter, searchTerm)
    }

    /** The search box and the status select. */
    method SetFilter(term: string, filter: Choice<DonorStatus>)
      modifies this
      ensures searchTerm == term && statusFilter == filter
      ensures donors == old(donors) && selectedDonor == old(selectedDonor) && isModalOpen == old(isModalOpen)
      ensures isEditing == old(isEditing) && formData == old(formData)
    {
      searchTerm := term;
      statusFilter := filter;
    }

    /** `handleDelete`: only a confirmed delete removes the donors with that id. */
    method Delete(id: string, confirmed: bool)
      modifies this
      ensures confirmed ==> donors == RemoveById(old(donors), DonorId, id)
      ensures !confirmed ==> donors == old(donors)
      ensures searchTerm == old(searchTerm) && statusFilter == old(statusFilter) && selectedDonor == old(selectedDonor)
      ensures isModalOpen == old(isModalOpen) && isEditing == old(isEditing) && formData == old(formData)
    {
      if confirmed {
        donors := RemoveById(donors, DonorId, id);
      }
    }

    /** A form input: `setFormData({ ...formData, field: value })`. */
    method EditForm(changes: DonorPatch)
      modifies this
      ensures formData == old(formData).Merge(changes)
      ensures donors == old(donors) && searchTerm == old(searchTerm) && statusFilter == old(statusFilter)
      ensures selectedDonor == old(selectedDonor) && isModalOpen == old(isModalOpen) && isEditing == old(isEditing)
    {
      formData := formData.Merge(changes);
    }

    /** The tags input. */
    method EnterTags(text: string)
      modifies this
      ensures formData == old(formData).(tags := Some(ParseTags(text)))
      ensures donors == old(donors) && searchTerm == old(searchTerm) && statusFilter == old(statusFilter)
      ensures selectedDonor == old(selectedDonor) && isModalOpen == old(isModalOpen) && isEditing == old(isEditing)
    {
      formData := formData.(tags := Some(ParseTags(text)));
    }

    /**
     * `handleSave`. Editing a selected donor overlays the form onto the donors
     * with its id and leaves edit mode; with no donor selected and a first
     * name filled in, a new donor is appended; otherwise the list is kept.
     * Every save closes the form, clears the selection and empties the form.
     */
    method Save(newId: string, today: string)
      modifies this
      ensures old(selectedDonor).Some? && old(isEditing) ==>
        donors == EditedIn(old(donors), old(selectedDonor).value.id, old(formData)) && !isEditing
      ensures old(selectedDonor).None? && Filled(old(formData).firstName) ==>
        donors == old(donors) + [NewDonor(old(formData), newId, today)] && isEditing == old(isEditing)
      ensures !(old(selectedDonor).Some? && old(isEditing)) && !(old(selectedDonor).None? && Filled(old(formData).firstName)) ==>
        donors == old(donors) && isEditing == old(isEditing)
      ensures !isModalOpen && selectedDonor == None && formData == NoDonorChanges
      ensures searchTerm == old(searchTerm) && statusFilter == old(statusFilter)
    {
      if selectedDonor.Some? && isEditing {
        donors := EditedIn(donors, selectedDonor.value.id, formData);
        isEditing := false;
      } else if selectedDonor.None? && Filled(formData.firstName) {
        donors := donors + [NewDonor(formData, newId, today)];
      }
      isModalOpen := false;
      selectedDonor := None;
      formData := NoDonorChanges;
    }

    /** `openEditModal`: the form starts as a copy of the donor. */
    method OpenEdit(d: Donor)
      modifies this
      ensures selectedDonor == Some(d) && formData == d.AsPatch() && isEditing && isModalOpen
      ensures donors == old(donors) && searchTerm == old(searchTerm) && statusFilter == old(statusFilter)
    {
      selectedDonor := Some(d);
      formData := d.AsPatch();
      isEditing := true;
      isModalOpen := true;
    }

    /** `openAddModal`: an empty form for a new donor. */
    method OpenAdd()
      modifies this
      ensures selectedDonor == None && formData == NoDonorChanges && !isEditing && isModalOpen
      ensures donors == old(donors) && searchTerm == old(searchTerm) && statusFilter == old(statusFilter)
    {
      selectedDonor := None;
      formData := NoDonorChanges;
      isEditing := false;
      isModalOpen := true;
    }

    /** Clicking a row opens the donor's details; the form state is untouched. */
    method ShowDetails(d: Donor)
      modifies this
      ensures selectedDonor == Some(d)
      ensures donors == old(donors) && searchTerm == old(searchTerm) && statusFilter == old(statusFilter)
      ensures isModalOpen == old(isModalOpen) && isEditing == old(isEditing) && formData == old(formData)
    {
      selectedDonor := Some(d);
    }

    /** Closing the details view. */
    method CloseDetails()
      modifies this
      ensures selectedDonor == None
      ensures donors == old(donors) && searchTerm == old(searchTerm) && statusFilter == old(statusFilter)
      ensures isModalOpen == old(isModalOpen) && isEditing == old(isEditing) && formData == old(formData)
    {
      selectedDonor := None;
    }

    /** Cancelling the form only hides it. */
    method CloseForm()
      modifies this
      ensures !isModalOpen
      ensures donors == old(donors) && searchTerm == old(searchTerm) && statusFilter == old(statusFilter)
      ensures selectedDonor == old(selectedDonor) && isEditing == old(isEditing) && formData == old(formData)
    {
      isModalOpen := false;
    }
  }
}
