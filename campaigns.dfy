/**
 * The campaign page (src/pages/Campaigns/Campaigns.tsx): name search and
 * status filter, the totals over active campaigns, the progress bar and its
 * colour, delete after confirmation, and the add/edit form.
 *
 * Ratios are exact rationals here; JavaScript computes them in floating point
 * and rounds some of them for display.
 */
module Campaigns {
  import opened Wrappers
  import opened Types
  import opened Seqs
  import opened JsText
  import MockData

  // ---------------------------------------------------------------------------
  // Filter and totals

  /** A campaign is listed when its name contains the search, ignoring case, and its status passes. */
  predicate CampaignShown(statusFilter: Choice<CampaignStatus>, searchTerm: string, c: Campaign) {
    IncludesIgnoringCase(c.name, searchTerm) && statusFilter.Admits(c.status)
  }

  function ShownBy(statusFilter: Choice<CampaignStatus>, searchTerm: string): Campaign -> bool {
    c => CampaignShown(statusFilter, searchTerm, c)
  }

  /** `filteredCampaigns`: the listed campaigns in their order; 'all' with an empty search lists every one. */
  function FilteredCampaigns(campaigns: seq<Campaign>, statusFilter: Choice<CampaignStatus>, searchTerm: string)
    : (shown: seq<Campaign>)
    ensures IsSubsequence(shown, campaigns)
    ensures forall c :: c in shown <==> c in campaigns && CampaignShown(statusFilter, searchTerm, c)
    ensures statusFilter == All && searchTerm == "" ==> shown == campaigns
  {
    EveryCampaignShown();
    FilterKeepsAll(campaigns, ShownBy(All, ""));
    FilterIsSubsequence(campaigns, ShownBy(statusFilter, searchTerm));
    Filter(campaigns, ShownBy(statusFilter, searchTerm))
  }

  lemma EveryCampaignShown()
    ensures forall c :: CampaignShown(All, "", c)
  {
    forall c ensures CampaignShown(All, "", c) {
      IncludesEmpty(ToLower(c.name));
    }
  }

  predicate IsActive(c: Campaign) { c.status == CampaignStatus.Active }

  function RaisedOf(c: Campaign): int { c.raised }

  function GoalOf(c: Campaign): int { c.goal }

  function CampaignId(c: Campaign): string { c.id }

  /** `totalRaised`: what the active campaigns have raised. */
  function TotalRaised(campaigns: seq<Campaign>): int {
    Sum(Filter(campaigns, IsActive), RaisedOf)
  }

  /** `totalGoal`: the goals of the active campaigns. */
  function TotalGoal(campaigns: seq<Campaign>): int {
    Sum(Filter(campaigns, IsActive), GoalOf)
  }

  /** `activeCampaigns`. */
  function ActiveCampaigns(campaigns: seq<Campaign>): (n: nat)
    ensures n <= |campaigns|
    ensures n == |campaigns| <==> forall c :: c in campaigns ==> c.status == CampaignStatus.Active
  {
    FilterKeepsAll(campaigns, IsActive);
    Count(campaigns, IsActive)
  }

  /**
   * Only active campaigns count: appending a campaign that is not active
   * leaves the three figures as they were, and an active one adds its own
   * raised amount, goal and one to the count.
   */
  lemma TotalsAfterAppend(campaigns: seq<Campaign>, c: Campaign)
    ensures !IsActive(c) ==>
      TotalRaised(campaigns + [c]) == TotalRaised(campaigns) && TotalGoal(campaigns + [c]) == TotalGoal(campaigns)
      && ActiveCampaigns(campaigns + [c]) == ActiveCampaigns(campaigns)
    ensures IsActive(c) ==>
      TotalRaised(campaigns + [c]) == TotalRaised(campaigns) + c.raised
      && TotalGoal(campaigns + [c]) == TotalGoal(campaigns) + c.goal
      && ActiveCampaigns(campaigns + [c]) == ActiveCampaigns(campaigns) + 1
  {
    FilterAppend(campaigns, [c], IsActive);
    var active := Filter(campaigns, IsActive);
    if IsActive(c) {
      assert Filter([c], IsActive) == [c];
      SumAppend(active, [c], RaisedOf);
      SumAppend(active, [c], GoalOf);
    } else {
      assert Filter([c], IsActive) == [];
      assert active + [] == active;
    }
  }

  /** The overall progress figure: raised over goal as a percentage, 0 when there is no goal. */
  function OverallProgress(totalRaised: int, totalGoal: int): (percent: real)
    ensures totalGoal <= 0 ==> percent == 0.0
    ensures totalGoal > 0 && 0 <= totalRaised <= totalGoal ==> 0.0 <= percent <= 100.0
    ensures totalGoal > 0 ==> percent * totalGoal as real == 100.0 * totalRaised as real
  {
    if totalGoal > 0 then (totalRaised as real / totalGoal as real) * 100.0 else 0.0
  }

  // ---------------------------------------------------------------------------
  // Progress bar

  datatype ProgressColor = Success | Warning | Accent

  /**
   * `getProgressColor`: 80 per cent or more is success, 50 or more warning,
   * anything else accent. With a zero goal JavaScript divides to Infinity
   * (success) when something was raised and to NaN (accent) when nothing was.
   */
  function GetProgressColor(raised: int, goal: int): ProgressColor {
    if goal == 0 then
      if raised > 0 then Success else Accent
    else
      var percentage := (raised as real / goal as real) * 100.0;
      if percentage >= 80.0 then Success
      else if percentage >= 50.0 then Warning
      else Accent
  }

  /** For a positive goal the colour bands are raised >= 80% of goal, >= 50% of goal, and below. */
  lemma ProgressColorBands(raised: int, goal: int)
    requires goal > 0
    ensures GetProgressColor(raised, goal) == Success <==> 100 * raised >= 80 * goal
    ensures GetProgressColor(raised, goal) == Warning <==> 50 * goal <= 100 * raised < 80 * goal
    ensures GetProgressColor(raised, goal) == Accent <==> 100 * raised < 50 * goal
  {
    var r, g := raised as real, goal as real;
    var percentage := (r / g) * 100.0;
    calc {
      percentage * g;
      ((r / g) * 100.0) * g;
      ((r / g) * g) * 100.0;
      { assert (r / g) * g == r; }
      r * 100.0;
    }
    ScaleByPositive(percentage, 80.0, g);
    ScaleByPositive(percentage, 50.0, g);
    assert (100 * raised) as real == r * 100.0 && (80 * goal) as real == 80.0 * g && (50 * goal) as real == 50.0 * g;
    assert percentage >= 80.0 <==> 100 * raised >= 80 * goal;
    assert percentage >= 50.0 <==> 100 * raised >= 50 * goal;
    assert GetProgressColor(raised, goal) == (if percentage >= 80.0 then Success else if percentage >= 50.0 then Warning else Accent);
  }

  /** Multiplying both sides by a positive number keeps a comparison. */
  lemma ScaleByPositive(p: real, c: real, g: real)
    requires g > 0.0
    ensures p >= c <==> p * g >= c * g
  {
    assert p * g - c * g == (p - c) * g;
    if p >= c {
      assert (p - c) * g >= 0.0;
    } else {
      assert (c - p) * g > 0.0;
    }
  }

  /**
   * The bar width `Math.min(raised / goal * 100, 100)`: never above 100, and
   * exactly 100 once the goal is reached. None stands for the NaN or
   * -Infinity a zero goal gives when nothing (or less) was raised.
   */
  function ProgressWidth(raised: int, goal: int): (width: Option<real>)
    ensures width.Some? ==> width.value <= 100.0
    ensures goal > 0 && raised >= 0 ==> width.Some? && width.value >= 0.0
    ensures goal > 0 && raised >= goal ==> width == Some(100.0)
    ensures goal > 0 && raised < goal ==> width.Some? && width.value * goal as real == 100.0 * raised as real
  {
    if goal == 0 then
      if raised > 0 then Some(100.0) else None
    else
      var progress := (raised as real / goal as real) * 100.0;
      if progress < 100.0 then Some(progress) else Some(100.0)
  }

  /** The average donation in the details view divides by `Math.max(donorCount, 1)`, never by zero. */
  function AverageDonation(raised: int, donorCount: int): (average: real)
    ensures donorCount <= 1 ==> average == raised as real
    ensures donorCount >= 1 ==> average * donorCount as real == raised as real
  {
    var divisor := if donorCount > 1 then donorCount else 1;
    raised as real / divisor as real
  }

  // ---------------------------------------------------------------------------
  // The form

  /**
   * The campaign the add form creates: every field the form left blank gets
   * a default (today's date for the dates), nothing raised yet, no donors,
   * draft unless a status was chosen.
   */
  function NewCampaign(form: CampaignPatch, id: string, today: string): (c: Campaign)
    requires Filled(form.name)
    ensures c.id == id && c.name == form.name.value
    ensures c.description == StringOr(form.description, "") && c.playbookId == StringOr(form.playbookId, "")
    ensures c.startDate == StringOr(form.startDate, today) && c.endDate == StringOr(form.endDate, today)
    ensures c.goal == NumberOr(form.goal, 0) && c.raised == 0 && c.donorCount == 0
    ensures c.status == form.status.GetOr(Draft)
  {
    Campaign(id, form.name.value, StringOr(form.description, ""), StringOr(form.startDate, today),
             StringOr(form.endDate, today), NumberOr(form.goal, 0), 0, 0, form.status.GetOr(Draft),
             StringOr(form.playbookId, ""))
  }

  /** A new campaign left in draft does not move the active totals. */
  lemma NewDraftLeavesTotals(campaigns: seq<Campaign>, form: CampaignPatch, id: string, today: string)
    requires Filled(form.name) && form.status.None?
    ensures TotalRaised(campaigns + [NewCampaign(form, id, today)]) == TotalRaised(campaigns)
    ensures TotalGoal(campaigns + [NewCampaign(form, id, today)]) == TotalGoal(campaigns)
  {
    TotalsAfterAppend(campaigns, NewCampaign(form, id, today));
  }

  function OverlayWith(changes: CampaignPatch): Campaign -> Campaign {
    (c: Campaign) => c.Overlay(changes)
  }

  /** The edit save: `prev.map(c => c.id === id ? { ...c, ...form } : c)`. */
  function EditedIn(campaigns: seq<Campaign>, id: string, form: CampaignPatch): (r: seq<Campaign>)
    ensures |r| == |campaigns|
    ensures forall i :: 0 <= i < |campaigns| ==>
      r[i] == if campaigns[i].id == id then campaigns[i].Overlay(form) else campaigns[i]
  {
    ReplaceByIdSpec(campaigns, CampaignId, id, OverlayWith(form));
    ReplaceById(campaigns, CampaignId, id, OverlayWith(form))
  }

  // ---------------------------------------------------------------------------
  // The page

  class CampaignsPage {
    var campaigns: seq<Campaign>
    var searchTerm: string
    var statusFilter: Choice<CampaignStatus>
    var selectedCampaign: Option<Campaign>
    var isModalOpen: bool
    var isEditing: bool
    var formData: CampaignPatch

    constructor ()
      ensures campaigns == MockData.Campaigns && searchTerm == "" && statusFilter == All
      ensures selectedCampaign == None && !isModalOpen && !isEditing && formData == NoCampaignChanges
    {
      campaigns := MockData.Campaigns;
      searchTerm := "";
      statusFilter := All;
      selectedCampaign := None;
      isModalOpen := false;
      isEditing := false;
      formData := NoCampaignChanges;
    }

    function Shown(): seq<Campaign>
      reads this
    {
      FilteredCampaigns(campaigns, statusFilter, searchTerm)
    }

    /** The search box and the status select. */
    method SetFilter(term: string, filter: Choice<CampaignStatus>)
      modifies this
      ensures searchTerm == term && statusFilter == filter
      ensures campaigns == old(campaigns) && selectedCampaign == old(selectedCampaign)
      ensures isModalOpen == old(isModalOpen) && isEditing == old(isEditing) && formData == old(formData)
    {
      searchTerm := term;
      statusFilter := filter;
    }

    /** `handleDelete`: only a confirmed delete removes the campaigns with that id. */
    method Delete(id: string, confirmed: bool)
      modifies this
      ensures confirmed ==> campaigns == RemoveById(old(campaigns), CampaignId, id)
      ensures !confirmed ==> campaigns == old(campaigns)
      ensures searchTerm == old(searchTerm) && statusFilter == old(statusFilter)
      ensures selectedCampaign == old(selectedCampaign)
      ensures isModalOpen == old(isModalOpen) && isEditing == old(isEditing) && formData == old(formData)
    {
      if confirmed {
        campaigns := RemoveById(campaigns, CampaignId, id);
      }
    }

    /** A form input: `setFormData({ ...formData, field: value })`. */
    method EditForm(changes: CampaignPatch)
      modifies this
      ensures formData == old(formData).Merge(changes)
      ensures campaigns == old(campaigns) && searchTerm == old(searchTerm) && statusFilter == old(statusFilter)
      ensures selectedCampaign == old(selectedCampaign) && isModalOpen == old(isModalOpen)
      ensures isEditing == old(isEditing)
    {
      formData := formData.Merge(changes);
    }

    /**
     * `handleSave`. Editing a selected campaign overlays the form onto the
     * campaigns with its id and leaves edit mode; with no campaign selected
     * and a name filled in, a new campaign is appended; otherwise the list is
     * kept. Every save closes the form, clears the selection and empties the
     * form.
     */
    method Save(newId: string, today: string)
      modifies this
      ensures old(selectedCampaign).Some? && old(isEditing) ==>
        campaigns == EditedIn(old(campaigns), old(selectedCampaign).value.id, old(formData)) && !isEditing
      ensures old(selectedCampaign).None? && Filled(old(formData).name) ==>
        campaigns == old(campaigns) + [NewCampaign(old(formData), newId, today)] && isEditing == old(isEditing)
      ensures !(old(selectedCampaign).Some? && old(isEditing))
              && !(old(selectedCampaign).None? && Filled(old(formData).name)) ==>
        campaigns == old(campaigns) && isEditing == old(isEditing)
      ensures !isModalOpen && selectedCampaign == None && formData == NoCampaignChanges
      ensures searchTerm == old(searchTerm) && statusFilter == old(statusFilter)
    {
      if selectedCampaign.Some? && isEditing {
        campaigns := EditedIn(campaigns, selectedCampaign.value.id, formData);
        isEditing := false;
      } else if selectedCampaign.None? && Filled(formData.name) {
        campaigns := campaigns + [NewCampaign(formData, newId, today)];
      }
      isModalOpen := false;
      selectedCampaign := None;
      formData := NoCampaignChanges;
    }

    /** `openEditModal`: the form starts as a copy of the campaign. */
    method OpenEdit(c: Campaign)
      modifies this
      ensures selectedCampaign == Some(c) && formData == c.AsPatch() && isEditing && isModalOpen
      ensures campaigns == old(campaigns) && searchTerm == old(searchTerm) && statusFilter == old(statusFilter)
    {
      selectedCampaign := Some(c);
      formData := c.AsPatch();
      isEditing := true;
      isModalOpen := true;
    }

    /** `openAddModal`: an empty form for a new campaign. */
    method OpenAdd()
      modifies this
      ensures selectedCampaign == None && formData == NoCampaignChanges && !isEditing && isModalOpen
      ensures campaigns == old(campaigns) && searchTerm == old(searchTerm) && statusFilter == old(statusFilter)
    {
      selectedCampaign := None;
      formData := NoCampaignChanges;
      isEditing := false;
      isModalOpen := true;
    }

    /** Clicking a card opens the campaign's details; the form state is untouched. */
    method ShowDetails(c: Campaign)
      modifies this
      ensures selectedCampaign == Some(c)
      ensures campaigns == old(campaigns) && searchTerm == old(searchTerm) && statusFilter == old(statusFilter)
      ensures isModalOpen == old(isModalOpen) && isEditing == old(isEditing) && formData == old(formData)
    {
      selectedCampaign := Some(c);
    }

    /** Closing the details view. */
    method CloseDetails()
      modifies this
      ensures selectedCampaign == None
      ensures campaigns == old(campaigns) && searchTerm == old(searchTerm) && statusFilter == old(statusFilter)
      ensures isModalOpen == old(isModalOpen) && isEditing == old(isEditing) && formData == old(formData)
    {
      selectedCampaign := None;
    }

    /** Cancelling the form only hides it. */
    method CloseForm()
      modifies this
      ensures !isModalOpen
      ensures campaigns == old(campaigns) && searchTerm == old(searchTerm) && statusFilter == old(statusFilter)
      ensures selectedCampaign == old(selectedCampaign) && isEditing == old(isEditing) && formData == old(formData)
    {
      isModalOpen := false;
    }
  }
}
