/**
 * The dashboard's records (src/types/index.ts) and, for each record that can
 * be edited, its `Partial<...>` form: every field optional. A record spread
 * with a partial, `{ ...record, ...partial }`, takes each field the partial
 * defines and keeps the rest; that is `Overlay`. Spreading one partial over
 * another, `{ ...form, field: value }`, is `Merge`.
 *
 * Amounts, counts and hours are integers; the playbook response and
 * conversion rates, which the seed data gives with a fractional part, are reals.
 */
module Types {
  import opened Wrappers

  /** The outreach channel of a task or playbook step. */
  datatype Channel = Email | Text | Phone

  datatype TaskStatus = Pending | Completed | InProgress

  /** A task on the day's outlook. */
  datatype Task = Task(
    id: string,
    channel: Channel,
    title: string,
    donorName: string,
    donorId: string,
    time: string,
    status: TaskStatus,
    campaign: string,
    playbookId: string,
    notes: Option<string>)
  {
    function Overlay(p: TaskPatch): Task {
      Task(p.id.GetOr(id), p.channel.GetOr(channel), p.title.GetOr(title), p.donorName.GetOr(donorName),
           p.donorId.GetOr(donorId), p.time.GetOr(time), p.status.GetOr(status), p.campaign.GetOr(campaign),
           p.playbookId.GetOr(playbookId), if p.notes.Some? then p.notes else notes)
    }
  }

  datatype TaskPatch = TaskPatch(
    id: Option<string>,
    channel: Option<Channel>,
    title: Option<string>,
    donorName: Option<string>,
    donorId: Option<string>,
    time: Option<string>,
    status: Option<TaskStatus>,
    campaign: Option<string>,
    playbookId: Option<string>,
    notes: Option<string>)

  const NoTaskChanges := TaskPatch(None, None, None, None, None, None, None, None, None, None)

  datatype DonorStatus = Active | Inactive | Prospect

  datatype Donor = Donor(
    id: string,
    firstName: string,
    lastName: string,
    email: string,
    phone: string,
    state: string,
    city: string,
    totalDonations: int,
    lastDonationDate: string,
    status: DonorStatus,
    tags: seq<string>,
    linkedInUrl: Option<string>,
    createdAt: string)
  {
    function Overlay(p: DonorPatch): Donor {
      Donor(p.id.GetOr(id), p.firstName.GetOr(firstName), p.lastName.GetOr(lastName), p.email.GetOr(email),
            p.phone.GetOr(phone), p.state.GetOr(state), p.city.GetOr(city),
            p.totalDonations.GetOr(totalDonations), p.lastDonationDate.GetOr(lastDonationDate),
            p.status.GetOr(status), p.tags.GetOr(tags),
            if p.linkedInUrl.Some? then p.linkedInUrl else linkedInUrl, p.createdAt.GetOr(createdAt))
    }

    /** The record as a partial that defines each of its fields (`setFormData(donor)`). */
    function AsPatch(): DonorPatch {
      DonorPatch(Some(id), Some(firstName), Some(lastName), Some(email), Some(phone), Some(state), Some(city),
                 Some(totalDonations), Some(lastDonationDate), Some(status), Some(tags), linkedInUrl,
                 Some(createdAt))
    }
  }

  datatype DonorPatch = DonorPatch(
    id: Option<string>,
    firstName: Option<string>,
    lastName: Option<string>,
    email: Option<string>,
    phone: Option<string>,
    state: Option<string>,
    city: Option<string>,
    totalDonations: Option<int>,
    lastDonationDate: Option<string>,
    status: Option<DonorStatus>,
    tags: Option<seq<string>>,
    linkedInUrl: Option<string>,
    createdAt: Option<string>)
  {
    /** `{ ...this, ...later }`. */
    function Merge(later: DonorPatch): DonorPatch {
      DonorPatch(Later(id, later.id), Later(firstName, later.firstName), Later(lastName, later.lastName),
                 Later(email, later.email), Later(phone, later.phone), Later(state, later.state),
                 Later(city, later.city), Later(totalDonations, later.totalDonations),
                 Later(lastDonationDate, later.lastDonationDate), Later(status, later.status),
                 Later(tags, later.tags), Later(linkedInUrl, later.linkedInUrl), Later(createdAt, later.createdAt))
    }
  }

  const NoDonorChanges := DonorPatch(None, None, None, None, None, None, None, None, None, None, None, None, None)

  datatype CampaignStatus = Active | Completed | Draft

  datatype Campaign = Campaign(
    id: string,
    name: string,
    description: string,
    startDate: string,
    endDate: string,
    goal: int,
    raised: int,
    donorCount: int,
    status: CampaignStatus,
    playbookId: string)
  {
    function Overlay(p: CampaignPatch): Campaign {
      Campaign(p.id.GetOr(id), p.name.GetOr(name), p.description.GetOr(description),
               p.startDate.GetOr(startDate), p.endDate.GetOr(endDate), p.goal.GetOr(goal),
               p.raised.GetOr(raised), p.donorCount.GetOr(donorCount), p.status.GetOr(status),
               p.playbookId.GetOr(playbookId))
    }

    function AsPatch(): CampaignPatch {
      CampaignPatch(Some(id), Some(name), Some(description), Some(startDate), Some(endDate), Some(goal),
                    Some(raised), Some(donorCount), Some(status), Some(playbookId))
    }
  }

  datatype CampaignPatch = CampaignPatch(
    id: Option<string>,
    name: Option<string>,
    description: Option<string>,
    startDate: Option<string>,
    endDate: Option<string>,
    goal: Option<int>,
    raised: Option<int>,
    donorCount: Option<int>,
    status: Option<CampaignStatus>,
    playbookId: Option<string>)
  {
    function Merge(later: CampaignPatch): CampaignPatch {
      CampaignPatch(Later(id, later.id), Later(name, later.name), Later(description, later.description),
                    Later(startDate, later.startDate), Later(endDate, later.endDate), Later(goal, later.goal),
                    Later(raised, later.raised), Later(donorCount, later.donorCount),
                    Later(status, later.status), Later(playbookId, later.playbookId))
    }
  }

  const NoCampaignChanges := CampaignPatch(None, None, None, None, None, None, None, None, None, None)

  datatype PlaybookStep = PlaybookStep(
    id: string,
    order: int,
    channel: Channel,
    title: string,
    description: string,
    template: Option<string>,
    delayDays: int)

  datatype PlaybookMetrics = PlaybookMetrics(avgResponseRate: real, avgConversionRate: real, totalDonations: int)

  datatype RateSnapshot = RateSnapshot(avgResponseRate: real, avgConversionRate: real)

  datatype PlaybookVersion = PlaybookVersion(version: int, changes: seq<string>, date: string, metrics: RateSnapshot)

  datatype Playbook = Playbook(
    id: string,
    name: string,
    description: string,
    steps: seq<PlaybookStep>,
    version: int,
    lastModified: string,
    metrics: PlaybookMetrics,
    versionHistory: seq<PlaybookVersion>)
  {
    function Overlay(p: PlaybookPatch): Playbook {
      Playbook(p.id.GetOr(id), p.name.GetOr(name), p.description.GetOr(description), p.steps.GetOr(steps),
               p.version.GetOr(version), p.lastModified.GetOr(lastModified), p.metrics.GetOr(metrics),
               p.versionHistory.GetOr(versionHistory))
    }
  }

  datatype PlaybookPatch = PlaybookPatch(
    id: Option<string>,
    name: Option<string>,
    description: Option<string>,
    steps: Option<seq<PlaybookStep>>,
    version: Option<int>,
    lastModified: Option<string>,
    metrics: Option<PlaybookMetrics>,
    versionHistory: Option<seq<PlaybookVersion>>)

  datatype VolunteerStatus = Active | Inactive

  datatype Volunteer = Volunteer(
    id: string,
    firstName: string,
    lastName: string,
    email: string,
    phone: string,
    status: VolunteerStatus,
    hoursThisWeek: int,
    tasksCompleted: int,
    joinedDate: string)
  {
    function Overlay(p: VolunteerPatch): Volunteer {
      Volunteer(p.id.GetOr(id), p.firstName.GetOr(firstName), p.lastName.GetOr(lastName), p.email.GetOr(email),
                p.phone.GetOr(phone), p.status.GetOr(status), p.hoursThisWeek.GetOr(hoursThisWeek),
                p.tasksCompleted.GetOr(tasksCompleted), p.joinedDate.GetOr(joinedDate))
    }

    function AsPatch(): VolunteerPatch {
      VolunteerPatch(Some(id), Some(firstName), Some(lastName), Some(email), Some(phone), Some(status),
                     Some(hoursThisWeek), Some(tasksCompleted), Some(joinedDate))
    }
  }

  datatype VolunteerPatch = VolunteerPatch(
    id: Option<string>,
    firstName: Option<string>,
    lastName: Option<string>,
    email: Option<string>,
    phone: Option<string>,
    status: Option<VolunteerStatus>,
    hoursThisWeek: Option<int>,
    tasksCompleted: Option<int>,
    joinedDate: Option<string>)
  {
    function Merge(later: VolunteerPatch): VolunteerPatch {
      VolunteerPatch(Later(id, later.id), Later(firstName, later.firstName), Later(lastName, later.lastName),
                     Later(email, later.email), Later(phone, later.phone), Later(status, later.status),
                     Later(hoursThisWeek, later.hoursThisWeek), Later(tasksCompleted, later.tasksCompleted),
                     Later(joinedDate, later.joinedDate))
    }
  }

  const NoVolunteerChanges := VolunteerPatch(None, None, None, None, None, None, None, None, None)

  datatype VolunteerTaskStatus = Pending | Completed

  datatype VolunteerTask = VolunteerTask(
    id: string,
    volunteerId: string,
    donorId: string,
    donorName: string,
    channel: Channel,
    scheduledDate: string,
    status: VolunteerTaskStatus,
    notes: Option<string>)
  {
    function Overlay(p: VolunteerTaskPatch): VolunteerTask {
      VolunteerTask(p.id.GetOr(id), p.volunteerId.GetOr(volunteerId), p.donorId.GetOr(donorId),
                    p.donorName.GetOr(donorName), p.channel.GetOr(channel), p.scheduledDate.GetOr(scheduledDate),
                    p.status.GetOr(status), if p.notes.Some? then p.notes else notes)
    }
  }

  datatype VolunteerTaskPatch = VolunteerTaskPatch(
    id: Option<string>,
    volunteerId: Option<string>,
    donorId: Option<string>,
    donorName: Option<string>,
    channel: Option<Channel>,
    scheduledDate: Option<string>,
    status: Option<VolunteerTaskStatus>,
    notes: Option<string>)

  datatype Donation = Donation(
    id: string,
    donorId: string,
    donorName: string,
    amount: int,
    campaignId: string,
    campaignName: string,
    timestamp: string,
    state: string)

  /** A field of a later spread wins over the same field of an earlier one. */
  function Later<T>(earlier: Option<T>, later: Option<T>): (r: Option<T>)
    ensures later.Some? ==> r == later
    ensures later.None? ==> r == earlier
  {
    if later.Some? then later else earlier
  }

  /** Spreading nothing changes nothing, and a chain of spreads may be grouped either way. */
  lemma LaterLaws<T>(a: Option<T>, b: Option<T>, c: Option<T>)
    ensures Later(a, None) == a && Later(None, b) == b
    ensures Later(a, a) == a
    ensures Later(Later(a, b), c) == Later(a, Later(b, c))
  {
  }

  // ---------------------------------------------------------------------------
  // Laws of the spread

  /** Spreading a partial that defines nothing changes nothing. */
  lemma OverlayNothing(d: Donor, c: Campaign, v: Volunteer, t: Task)
    ensures d.Overlay(NoDonorChanges) == d
    ensures c.Overlay(NoCampaignChanges) == c
    ensures v.Overlay(NoVolunteerChanges) == v
    ensures t.Overlay(NoTaskChanges) == t
  {
  }

  /** Spreading two partials in turn is spreading their merge. */
  lemma OverlayMerge(d: Donor, p: DonorPatch, q: DonorPatch, c: Campaign, cp: CampaignPatch, cq: CampaignPatch,
                     v: Volunteer, vp: VolunteerPatch, vq: VolunteerPatch)
    ensures d.Overlay(p).Overlay(q) == d.Overlay(p.Merge(q))
    ensures c.Overlay(cp).Overlay(cq) == c.Overlay(cp.Merge(cq))
    ensures v.Overlay(vp).Overlay(vq) == v.Overlay(vp.Merge(vq))
  {
  }

  /**
   * Saving an edit form opened on a record (`setFormData(record)` followed by
   * field edits) onto that same record gives the record with just the edits.
   */
  lemma EditFormOnOwnRecord(d: Donor, edits: DonorPatch, c: Campaign, cEdits: CampaignPatch,
                            v: Volunteer, vEdits: VolunteerPatch)
    ensures d.Overlay(d.AsPatch().Merge(edits)) == d.Overlay(edits)
    ensures c.Overlay(c.AsPatch().Merge(cEdits)) == c.Overlay(cEdits)
    ensures v.Overlay(v.AsPatch().Merge(vEdits)) == v.Overlay(vEdits)
  {
  }
}
