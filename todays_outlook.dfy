/**
 * The day's outlook page (src/pages/Dashboard/TodaysOutlook.tsx): the task
 * list with its channel filter and search, task completion, and the
 * simulated phone call with its transcript and timer.
 */
module TodaysOutlook {
  import opened Wrappers
  import opened Types
  import opened Seqs
  import opened JsText
  import opened Calls
  import MockData

  const CallScript: seq<ScriptLine> := [
    ScriptLine("Agent", "Hi, this is Sarah from the organization. Am I speaking with {name}?"),
    ScriptLine("Donor", "Yes, this is {name} speaking."),
    ScriptLine("Agent", "Great! I'm calling about our Spring Drive campaign. I wanted to share some exciting updates about the impact we're making in our community."),
    ScriptLine("Donor", "Oh, I've supported you before. What's new?"),
    ScriptLine("Agent", "This year, we've expanded our programs and we're closer than ever to reaching our goal. Your past support has helped provide resources to over 500 families."),
    ScriptLine("Donor", "That's wonderful to hear. How can I help?"),
    ScriptLine("Agent", "We're looking for supporters like you to help us cross the finish line. Any contribution, big or small, makes a real difference. Would you be able to donate today?"),
    ScriptLine("Donor", "I'd love to. What are the donation options?"),
    ScriptLine("Agent", "You can donate online at our website, or I can take your donation over the phone. We accept all major credit cards and have options for recurring monthly gifts."),
    ScriptLine("Donor", "Let me make a one-time donation of $250."),
    ScriptLine("Agent", "That's amazing! Thank you so much for your generosity. I'll process that right away. Your support truly makes a difference!")
  ]

  /** The donor's first line answers with the donor's own name (one without `$` patterns). */
  lemma DonorAnswersWithName(donorName: string)
    ensures '$' !in donorName ==> Personalize(CallScript[1].text, donorName) == "Yes, this is " + donorName + " speaking."
  {
    assert CallScript[1].text == "Yes, this is " + NamePlaceholder + " speaking.";
    PersonalizeFirstPlaceholder("Yes, this is ", " speaking.", donorName);
  }

  // ---------------------------------------------------------------------------
  // Tasks

  function TaskId(t: Task): string { t.id }

  function MarkCompleted(t: Task): Task { t.(status := TaskStatus.Completed) }

  /** `tasks.map(t => t.id === taskId ? { ...t, status: 'completed' } : t)`. */
  function CompleteTaskIn(tasks: seq<Task>, taskId: string): (r: seq<Task>)
    ensures |r| == |tasks|
    ensures forall i :: 0 <= i < |tasks| ==>
      r[i] == tasks[i].(status := if tasks[i].id == taskId then TaskStatus.Completed else tasks[i].status)
  {
    ReplaceByIdSpec(tasks, TaskId, taskId, MarkCompleted);
    ReplaceById(tasks, TaskId, taskId, MarkCompleted)
  }

  /** Completing a task a second time changes nothing. */
  lemma CompleteTaskIdempotent(tasks: seq<Task>, taskId: string)
    ensures CompleteTaskIn(CompleteTaskIn(tasks, taskId), taskId) == CompleteTaskIn(tasks, taskId)
  {
  }

  /** A task is listed when its channel passes the filter and the search matches its donor or title. */
  predicate TaskShown(filter: Choice<Channel>, searchTerm: string, t: Task) {
    filter.Admits(t.channel)
    && (IncludesIgnoringCase(t.donorName, searchTerm) || IncludesIgnoringCase(t.title, searchTerm))
  }

  function ShownBy(filter: Choice<Channel>, searchTerm: string): Task -> bool {
    t => TaskShown(filter, searchTerm, t)
  }

  /** `filteredTasks`: the listed tasks in their order; 'all' with an empty search lists every task. */
  function FilteredTasks(tasks: seq<Task>, filter: Choice<Channel>, searchTerm: string): (shown: seq<Task>)
    ensures IsSubsequence(shown, tasks)
    ensures forall t :: t in shown <==> t in tasks && TaskShown(filter, searchTerm, t)
    ensures filter == All && searchTerm == "" ==> shown == tasks
  {
    EveryTaskShown();
    FilterKeepsAll(tasks, ShownBy(All, ""));
    FilterIsSubsequence(tasks, ShownBy(filter, searchTerm));
    Filter(tasks, ShownBy(filter, searchTerm))
  }

  lemma EveryTaskShown()
    ensures forall t :: TaskShown(All, "", t)
  {
    forall t ensures TaskShown(All, "", t) {
      IncludesEmpty(ToLower(t.donorName));
    }
  }

  predicate IsCompleted(t: Task) { t.status == TaskStatus.Completed }
  predicate IsInProgress(t: Task) { t.status == InProgress }
  predicate IsPending(t: Task) { t.status == TaskStatus.Pending }

  datatype TaskStats = TaskStats(total: nat, completed: nat, inProgress: nat, pending: nat)

  /**
   * `stats`: each count is the length of the tasks filtered by its status,
   * every task is counted under exactly one of the three statuses, and a
   * count reaches the total exactly when every task has that status.
   */
  function Stats(tasks: seq<Task>): (s: TaskStats)
    ensures s.total == |tasks|
    ensures s.completed == |Filter(tasks, IsCompleted)| && s.inProgress == |Filter(tasks, IsInProgress)|
      && s.pending == |Filter(tasks, IsPending)|
    ensures s.completed + s.inProgress + s.pending == s.total
    ensures s.completed == s.total <==> forall t :: t in tasks ==> IsCompleted(t)
    ensures s.pending == s.total <==> forall t :: t in tasks ==> IsPending(t)
  {
    StatusesPartition(tasks);
    FilterKeepsAll(tasks, IsCompleted);
    FilterKeepsAll(tasks, IsPending);
    TaskStats(|tasks|, Count(tasks, IsCompleted), Count(tasks, IsInProgress), Count(tasks, IsPending))
  }

  lemma {:induction false} StatusesPartition(tasks: seq<Task>)
    ensures Count(tasks, IsCompleted) + Count(tasks, IsInProgress) + Count(tasks, IsPending) == |tasks|
  {
    if tasks != [] {
      StatusesPartition(tasks[1..]);
    }
  }

  // ---------------------------------------------------------------------------
  // The page

  class OutlookPage {
    var tasks: seq<Task>
    var filter: Choice<Channel>
    var searchTerm: string
    var activeCall: Option<CallSession>
    var currentScriptIndex: nat
    var isMuted: bool

    predicate Valid()
      reads this
    {
      CallState(activeCall, currentScriptIndex, CallScript)
    }

    constructor ()
      ensures Valid()
      ensures tasks == MockData.TodayTasks && filter == All && searchTerm == ""
      ensures activeCall == None && currentScriptIndex == 0 && !isMuted
    {
      tasks := MockData.TodayTasks;
      filter := All;
      searchTerm := "";
      activeCall := None;
      currentScriptIndex := 0;
      isMuted := false;
    }

    function Shown(): seq<Task>
      reads this
    {
      FilteredTasks(tasks, filter, searchTerm)
    }

    /** The search box and the channel buttons. */
    method SetFilter(term: string, channel: Choice<Channel>)
      modifies this
      requires Valid()
      ensures Valid()
      ensures searchTerm == term && filter == channel
      ensures tasks == old(tasks) && activeCall == old(activeCall)
      ensures currentScriptIndex == old(currentScriptIndex) && isMuted == old(isMuted)
    {
      searchTerm, filter := term, channel;
    }

    method CompleteTask(taskId: string)
      modifies this
      requires Valid()
      ensures Valid()
      ensures tasks == CompleteTaskIn(old(tasks), taskId)
      ensures filter == old(filter) && searchTerm == old(searchTerm)
      ensures activeCall == old(activeCall) && currentScriptIndex == old(currentScriptIndex) && isMuted == old(isMuted)
    {
      tasks := CompleteTaskIn(tasks, taskId);
    }

    /** A new call for the task: its donor and campaign, an empty transcript, unmuted. */
    method StartCall(task: Task, nowMs: int)
      modifies this
      ensures Valid()
      ensures activeCall == Some(CallSession(task.id, task.donorName, DialledPhone, task.campaign, nowMs, false, []))
      ensures currentScriptIndex == 0 && !isMuted
      ensures tasks == old(tasks) && filter == old(filter) && searchTerm == old(searchTerm)
    {
      activeCall := Some(CallSession(task.id, task.donorName, DialledPhone, task.campaign, nowMs, false, []));
      currentScriptIndex := 0;
      isMuted := false;
    }

    /** Ending a call completes its task; with no call nothing happens. */
    method EndCall()
      modifies this
      requires Valid()
      ensures Valid()
      ensures old(activeCall).None? ==> tasks == old(tasks) && activeCall == None && currentScriptIndex == old(currentScriptIndex)
      ensures old(activeCall).Some? ==>
        tasks == CompleteTaskIn(old(tasks), old(activeCall).value.taskId) && activeCall == None && currentScriptIndex == 0
      ensures filter == old(filter) && searchTerm == old(searchTerm) && isMuted == old(isMuted)
    {
      if activeCall.Some? {
        CompleteTask(activeCall.value.taskId);
        activeCall := None;
        currentScriptIndex := 0;
      }
    }

    /** The 2.5-second interval while a call is live and unmuted. */
    method TickCall(time: string)
      modifies this
      requires Valid()
      ensures Valid()
      ensures (activeCall, currentScriptIndex) == Tick(old(activeCall), old(currentScriptIndex), old(isMuted), CallScript, time)
      ensures currentScriptIndex <= |CallScript|
      ensures tasks == old(tasks) && filter == old(filter) && searchTerm == old(searchTerm) && isMuted == old(isMuted)
    {
      var next := Tick(activeCall, currentScriptIndex, isMuted, CallScript, time);
      activeCall, currentScriptIndex := next.0, next.1;
    }

    method ToggleMute()
      modifies this
      requires Valid()
      ensures Valid()
      ensures isMuted == !old(isMuted)
      ensures tasks == old(tasks) && activeCall == old(activeCall) && currentScriptIndex == old(currentScriptIndex)
      ensures filter == old(filter) && searchTerm == old(searchTerm)
    {
      isMuted := !isMuted;
    }
  }
}
