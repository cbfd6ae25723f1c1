/**
 * The volunteer list page (src/pages/Volunteers/Volunteers.tsx): search and
 * status filter, the totals above the list, delete after confirmation, and
 * the add/edit form.
 *
 * `window.confirm` is the `confirmed` input of `Delete`; `Date.now()` ids and
 * today's date are inputs of `Save`.
 */
module Volunteers {
  import opened Wrappers
  import opened Types
  import opened Seqs
  import opened JsText
  import MockData

  // ---------------------------------------------------------------------------
  // Filter and totals

  /** A volunteer is listed when "first last" or the email contains the search, ignoring case, and the status passes. */
  predicate VolunteerShown(statusFilter: Choice<VolunteerStatus>, searchTerm: string, v: Volunteer) {
    (IncludesIgnoringCase(v.firstName + " " + v.lastName, searchTerm) || IncludesIgnoringCase(v.email, searchTerm))
    && statusFilter.Admits(v.status)
  }

  function ShownBy(statusFilter: Choice<VolunteerStatus>, searchTerm: string): Volunteer -> bool {
    v => VolunteerShown(statusFilter, searchTerm, v)
  }

  /** `filteredVolunteers`: the listed volunteers in their order; 'all' with an empty search lists everyone. */
  function FilteredVolunteers(volunteers: seq<Volunteer>, statusFilter: Choice<VolunteerStatus>, searchTerm: string)
    : (shown: seq<Volunteer>)
    ensures IsSubsequence(shown, volunteers)
    ensures forall v :: v in shown <==> v in volunteers && VolunteerShown(statusFilter, searchTerm, v)
    ensures statusFilter == All && searchTerm == "" ==> shown == volunteers
  {
    EveryVolunteerShown();
    FilterKeepsAll(volunteers, ShownBy(All, ""));
    FilterIsSubsequence(volunteers, ShownBy(statusFilter, searchTerm));
    Filter(volunteers, ShownBy(statusFilter, searchTerm))
  }

  lemma EveryVolunteerShown()
    ensures forall v :: VolunteerShown(All, "", v)
  {
    forall v ensures VolunteerShown(All, "", v) {
      IncludesEmpty(ToLower(v.firstName + " " + v.lastName));
    }
  }

  function HoursOf(v: Volunteer): int { v.hoursThisWeek }

  function TasksOf(v: Volunteer): int { v.tasksCompleted }

  predicate IsActive(v: Volunteer) { v.status == VolunteerStatus.Active }

  function VolunteerId(v: Volunteer): string { v.id }

  /** `totalHours`. */
  function TotalHours(volunteers: seq<Volunteer>): int {
    Sum(volunteers, HoursOf)
  }

  /** `totalTasks`. */
  function TotalTasks(volunteers: seq<Volunteer>): int {
    Sum(volunteers, TasksOf)
  }

  /** `activeVolunteers`: how many volunteers have status 'active'. */
  function ActiveVolunteers(volunteers: seq<Volunteer>): (n: nat)
    ensures n <= |volunteers|
    ensures n == |volunteers| <==> forall v :: v in volunteers ==> v.status == VolunteerStatus.Active
  {
    FilterKeepsAll(volunteers, IsActive);
    Count(volunteers, IsActive)
  }

  /** A newly added volunteer has logged no hours and no tasks, so the totals do not move. */
  lemma TotalsAfterAdd(volunteers: seq<Volunteer>, v: Volunteer)
    requires v.hoursThisWeek == 0 && v.tasksCompleted == 0
    ensures TotalHours(volunteers + [v]) == TotalHours(volunteers)
    ensures TotalTasks(volunteers + [v]) == TotalTasks(volunteers)
  {
    SumAppend(volunteers, [v], HoursOf);
    SumAppend(volunteers, [v], TasksOf);
  }

  /** Deleting by id lowers each total by exactly the share of the volunteers removed. */
  lemma TotalsAfterDelete(volunteers: seq<Volunteer>, id: string)
    ensures TotalHours(RemoveById(volunteers, VolunteerId, id))
            + TotalHours(Filter(volunteers, Not(IdIsNot(VolunteerId, id)))) == TotalHours(volunteers)
    ensures TotalTasks(RemoveById(volunteers, VolunteerId, id))
            + TotalTasks(Filter(volunteers, Not(IdIsNot(VolunteerId, id)))) == TotalTasks(volunteers)
  {
    SumSplit(volunteers, IdIsNot(VolunteerId, id), HoursOf);
    SumSplit(volunteers, IdIsNot(VolunteerId, id), TasksOf);
  }

  // ---------------------------------------------------------------------------
  // The volunteer the add form creates

  /**
   * The new volunteer as `handleSave` writes it: the `!` on the form's last
   * name, email and phone is a type assertion only, so a field the user never
   * typed into stays undefined in the stored record.
   */
  function AddedAsWritten(form: VolunteerPatch, id: string, today: string): (added: VolunteerPatch)
    requires Filled(form.firstName)
    ensures added.firstName == form.firstName && added.lastName == form.lastName
    ensures added.email == form.email && added.phone == form.phone
    ensures added.status == Some(form.status.GetOr(VolunteerStatus.Active))
    ensures added.hoursThisWeek == Some(0) && added.tasksCompleted == Some(0)
  {
    VolunteerPatch(Some(id), form.firstName, form.lastName, form.email, form.phone,
                   Some(form.status.GetOr(VolunteerStatus.Active)), Some(0), Some(0), Some(today))
  }

  /** Every field the list reads is defined: a complete volunteer record. */
  predicate Complete(v: VolunteerPatch) {
    v.id.Some? && v.firstName.Some? && v.lastName.Some? && v.email.Some? && v.phone.Some?
    && v.status.Some? && v.hoursThisWeek.Some? && v.tasksCompleted.Some? && v.joinedDate.Some?
  }

  /**
   * The list row shows the initials `firstName[0]` and `lastName[0]`; on an
   * undefined field that read throws and the page stops rendering.
   */
  predicate RowRenders(v: VolunteerPatch) {
    v.firstName.Some? && v.lastName.Some?
  }

  /** The record written is complete exactly when the form filled in the three fields marked with `!`. */
  lemma AddedAsWrittenComplete(form: VolunteerPatch, id: string, today: string)
    requires Filled(form.firstName)
    ensures Complete(AddedAsWritten(form, id, today)) <==> form.lastName.Some? && form.email.Some? && form.phone.Some?
  {
  }

  /** A form with only the first name filled in passes the save guard, yet the volunteer it adds cannot be listed. */
  lemma FirstNameOnlyBreaksList()
    ensures var form: VolunteerPatch := NoVolunteerChanges.(firstName := Some("Ann"));
      Filled(form.firstName) && !RowRenders(AddedAsWritten(form, "v1", "2024-01-01"))
  {
  }

  /** The new volunteer with every blank text field stored as "", the value the form's inputs display for it. */
  function NewVolunteer(form: VolunteerPatch, id: string, today: string): (v: Volunteer)
    requires Filled(form.firstName)
    ensures v.id == id && v.firstName == form.firstName.value
    ensures v.lastName == form.lastName.GetOr("") && v.email == form.email.GetOr("") && v.phone == form.phone.GetOr("")
    ensures v.status == form.status.GetOr(VolunteerStatus.Active)
    ensures v.hoursThisWeek == 0 && v.tasksCompleted == 0 && v.joinedDate == today
    ensures RowRenders(v.AsPatch()) && Complete(v.AsPatch())
  {
    Volunteer(id, form.firstName.value, form.lastName.GetOr(""), form.email.GetOr(""), form.phone.GetOr(""),
              form.status.GetOr(VolunteerStatus.Active), 0, 0, today)
  }

  /** Wherever the code as written stores a complete record, the corrected volunteer is that record. */
  lemma NewVolunteerAgrees(form: VolunteerPatch, id: string, today: string)
    requires Filled(form.firstName) && Complete(AddedAsWritten(form, id, today))
    ensures NewVolunteer(form, id, today).AsPatch() == AddedAsWritten(form, id, today)
  {
  }

  function OverlayWith(changes: VolunteerPatch): Volunteer -> Volunteer {
    (v: Volunteer) => v.Overlay(changes)
  }

  /** The edit save: `prev.map(v => v.id === id ? { ...v, ...form } : v)`. */
  function EditedIn(volunteers: seq<Volunteer>, id: string, form: VolunteerPatch): (r: seq<Volunteer>)
    ensures |r| == |volunteers|
    ensures forall i :: 0 <= i < |volunteers| ==>
      r[i] == if volunteers[i].id == id then volunteers[i].Overlay(form) else volunteers[i]
  {
    ReplaceByIdSpec(volunteers, VolunteerId, id, OverlayWith(form));
    ReplaceById(volunteers, VolunteerId, id, OverlayWith(form))
  }

  // ---------------------------------------------------------------------------
  // The page

  class VolunteersPage {
    var volunteers: seq<Volunteer>
    var searchTerm: string
    var statusFilter: Choice<VolunteerStatus>
    var selectedVolunteer: Option<Volunteer>
    var isModalOpen: bool
    var isEditing: bool
    var formData: VolunteerPatch

    constructor ()
      ensures volunteers == MockData.Volunteers && searchTerm == "" && statusFilter == All
      ensures selectedVolunteer == None && !isModalOpen && !isEditing && formData == NoVolunteerChanges
    {
      volunteers := MockData.Volunteers;
      searchTerm := "";
      statusFilter := All;
      selectedVolunteer := None;
      isModalOpen := false;
      isEditing := false;
      formData := NoVolunteerChanges;
    }

    function Shown(): seq<Volunteer>
      reads this
    {
      FilteredVolunteers(volunteers, statusFilter, searchTerm)
    }

    /** The search box and the status select. */
    method SetFilter(term: string, filter: Choice<VolunteerStatus>)
      modifies this
      ensures searchTerm == term && statusFilter == filter
      ensures volunteers == old(volunteers) && selectedVolunteer == old(selectedVolunteer)
      ensures isModalOpen == old(isModalOpen) && isEditing == old(isEditing) && formData == old(formData)
    {
      searchTerm := term;
      statusFilter := filter;
    }

    /** `handleDelete`: only a confirmed delete removes the volunteers with that id. */
    method Delete(id: string, confirmed: bool)
      modifies this
      ensures confirmed ==> volunteers == RemoveById(old(volunteers), VolunteerId, id)
      ensures !confirmed ==> volunteers == old(volunteers)
      ensures searchTerm == old(searchTerm) && statusFilter == old(statusFilter)
      ensures selectedVolunteer == old(selectedVolunteer)
      ensures isModalOpen == old(isModalOpen) && isEditing == old(isEditing) && formData == old(formData)
    {
      if confirmed {
        volunteers := RemoveById(volunteers, VolunteerId, id);
      }
    }

    /** A form input: `setFormData({ ...formData, field: value })`. */
    method EditForm(changes: VolunteerPatch)
      modifies this
      ensures formData == old(formData).Merge(changes)
      ensures volunteers == old(volunteers) && searchTerm == old(searchTerm) && statusFilter == old(statusFilter)
      ensures selectedVolunteer == old(selectedVolunteer) && isModalOpen == old(isModalOpen)
      ensures isEditing == old(isEditing)
    {
      formData := formData.Merge(changes);
    }

    /**
     * `handleSave`. Editing a selected volunteer overlays the form onto the
     * volunteers with its id and leaves edit mode; with no volunteer selected
     * and a first name filled in, a new volunteer is appended; otherwise the
     * list is kept. Every save closes the form, clears the selection and
     * empties the form.
     */
    method Save(newId: string, today: string)
      modifies this
      ensures old(selectedVolunteer).Some? && old(isEditing) ==>
        volunteers == EditedIn(old(volunteers), old(selectedVolunteer).value.id, old(formData)) && !isEditing
      ensures old(selectedVolunteer).None? && Filled(old(formData).firstName) ==>
        volunteers == old(volunteers) + [NewVolunteer(old(formData), newId, today)] && isEditing == old(isEditing)
      ensures !(old(selectedVolunteer).Some? && old(isEditing))
              && !(old(selectedVolunteer).None? && Filled(old(formData).firstName)) ==>
        volunteers == old(volunteers) && isEditing == old(isEditing)
      ensures !isModalOpen && selectedVolunteer == None && formData == NoVolunteerChanges
      ensures searchTerm == old(searchTerm) && statusFilter == old(statusFilter)
    {
      if selectedVolunteer.Some? && isEditing {
        volunteers := EditedIn(volunteers, selectedVolunteer.value.id, formData);
        isEditing := false;
      } else if selectedVolunteer.None? && Filled(formData.firstName) {
        volunteers := volunteers + [NewVolunteer(formData, newId, today)];
      }
      isModalOpen := false;
      selectedVolunteer := None;
      formData := NoVolunteerChanges;
    }

    /** `openEditModal`: the form starts as a copy of the volunteer. */
    method OpenEdit(v: Volunteer)
      modifies this
      ensures selectedVolunteer == Some(v) && formData == v.AsPatch() && isEditing && isModalOpen
      ensures volunteers == old(volunteers) && searchTerm == old(searchTerm) && statusFilter == old(statusFilter)
    {
      selectedVolunteer := Some(v);
      formData := v.AsPatch();
      isEditing := true;
      isModalOpen := true;
    }

    /** `openAddModal`: an empty form for a new volunteer. */
    method OpenAdd()
      modifies this
      ensures selectedVolunteer == None && formData == NoVolunteerChanges && !isEditing && isModalOpen
      ensures volunteers == old(volunteers) && searchTerm == old(searchTerm) && statusFilter == old(statusFilter)
    {
      selectedVolunteer := None;
      formData := NoVolunteerChanges;
      isEditing := false;
      isModalOpen := true;
    }

    /** Clicking a row opens the volunteer's details; the form state is untouched. */
    method ShowDetails(v: Volunteer)
      modifies this
      ensures selectedVolunteer == Some(v)
      ensures volunteers == old(volunteers) && searchTerm == old(searchTerm) && statusFilter == old(statusFilter)
      ensures isModalOpen == old(isModalOpen) && isEditing == old(isEditing) && formData == old(formData)
    {
      selectedVolunteer := Some(v);
    }

    /** Closing the details view. */
    method CloseDetails()
      modifies this
      ensures selectedVolunteer == None
      ensures volunteers == old(volunteers) && searchTerm == old(searchTerm) && statusFilter == old(statusFilter)
      ensures isModalOpen == old(isModalOpen) && isEditing == old(isEditing) && formData == old(formData)
    {
      selectedVolunteer := None;
    }

    /** Cancelling the form only hides it. */
    method CloseForm()
      modifies this
      ensures !isModalOpen
      ensures volunteers == old(volunteers) && searchTerm == old(searchTerm) && statusFilter == old(statusFilter)
      ensures selectedVolunteer == old(selectedVolunteer) && isEditing == old(isEditing) && formData == old(formData)
    {
      isModalOpen := false;
    }
  }
}
