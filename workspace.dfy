/**
 * The volunteer workspace (src/pages/Workspace/Workspace.tsx): the
 * volunteer's outreach tasks, sending a drafted message, the simulated call,
 * the direct SMS thread, and the assistant's keyword dispatcher.
 *
 * The messaging services it calls only log and resolve, so a send is taken to
 * succeed; drafting a message with the AI stub, chat time stamps and the
 * scrolling effects are left out.
 */
module Workspace {
  import opened Wrappers
  import opened Types
  import opened Seqs
  import opened JsText
  import opened Calls
  import MockData

  const CallScript: seq<ScriptLine> := [
    ScriptLine("Agent", "Hi, this is Sarah from the organization. Am I speaking with {name}?"),
    ScriptLine("Donor", "Yes, this is {name} speaking."),
    ScriptLine("Agent", "Great! I'm calling about our Spring Drive campaign. I wanted to share some exciting updates about the impact we're making."),
    ScriptLine("Donor", "Oh, I've supported you before. What's new?"),
    ScriptLine("Agent", "This year, we've expanded our programs and we're closer than ever to reaching our goal."),
    ScriptLine("Donor", "That's wonderful to hear. How can I help?"),
    ScriptLine("Agent", "Would you be able to donate today? Any amount makes a difference."),
    ScriptLine("Donor", "Let me make a one-time donation of $250."),
    ScriptLine("Agent", "That's amazing! Thank you so much for your generosity!")
  ]

  /** The campaign every workspace call is about. */
  const CallCampaign := "Spring Drive"

  // ---------------------------------------------------------------------------
  // The assistant's dispatcher

  /** The canned replies the assistant can give. */
  datatype Topic = TodayTasks | CampaignReport | VolunteerStats | DonationMetrics | TopDonors | ActiveCampaigns | Navigation | Help

  datatype ChatKind = PlainText | Command | Report | StatsKind

  datatype ChatSender = User | Bot

  /** A chat message; a bot reply is represented by the topic of its canned text. */
  datatype BotMessage = BotMessage(id: string, sender: ChatSender, topic: Topic, kind: Option<ChatKind>)

  /** The position of a topic's rule in the order the dispatcher tries them. */
  function Rank(t: Topic): nat {
    match t
    case TodayTasks => 0
    case CampaignReport => 1
    case VolunteerStats => 2
    case DonationMetrics => 3
    case TopDonors => 4
    case ActiveCampaigns => 5
    case Navigation => 6
    case Help => 7
  }

  /** The keyword test of each rule, on the lower-cased input; help needs no keyword. */
  predicate Triggers(t: Topic, lower: string) {
    match t
    case TodayTasks => Includes(lower, "today") && Includes(lower, "task")
    case CampaignReport => Includes(lower, "campaign") && Includes(lower, "report")
    case VolunteerStats => Includes(lower, "volunteer") && (Includes(lower, "stat") || Includes(lower, "stats"))
    case DonationMetrics => Includes(lower, "donation") && (Includes(lower, "metric") || Includes(lower, "stat"))
    case TopDonors => Includes(lower, "top donor")
    case ActiveCampaigns => Includes(lower, "active campaign")
    case Navigation => Includes(lower, "navigate") || Includes(lower, "go to") || Includes(lower, "show me")
    case Help => true
  }

  /** The rules of `processBotCommand`, tried in order on the lower-cased input. */
  function Dispatch(lower: string): Topic {
    if Includes(lower, "today") && Includes(lower, "task") then TodayTasks
    else if Includes(lower, "campaign") && Includes(lower, "report") then CampaignReport
    else if Includes(lower, "volunteer") && (Includes(lower, "stat") || Includes(lower, "stats")) then VolunteerStats
    else if Includes(lower, "donation") && (Includes(lower, "metric") || Includes(lower, "stat")) then DonationMetrics
    else if Includes(lower, "top donor") then TopDonors
    else if Includes(lower, "active campaign") then ActiveCampaigns
    else if Includes(lower, "navigate") || Includes(lower, "go to") || Includes(lower, "show me") then Navigation
    else Help
  }

  /** The topic `processBotCommand` answers the input with. */
  function ChooseTopic(input: string): Topic {
    Dispatch(ToLower(input))
  }

  /** The first rule whose keywords the input contains wins; no rule before it matches. */
  lemma ChooseTopicFirstMatch(input: string)
    ensures Triggers(ChooseTopic(input), ToLower(input))
    ensures forall u :: Rank(u) < Rank(ChooseTopic(input)) ==> !Triggers(u, ToLower(input))
  {
  }

  /** Matching ignores case: an input and its lower-cased form get the same reply. */
  lemma ChooseTopicIgnoresCase(input: string)
    ensures ChooseTopic(input) == ChooseTopic(ToLower(input))
  {
    ToLowerIdempotent(input);
  }

  /** The `type` of each reply; the help reply has none. */
  function KindOf(t: Topic): (kind: Option<ChatKind>)
    ensures kind.None? <==> t == Help
  {
    match t
    case TodayTasks => Some(StatsKind)
    case CampaignReport => Some(Report)
    case VolunteerStats => Some(StatsKind)
    case DonationMetrics => Some(StatsKind)
    case TopDonors => Some(StatsKind)
    case ActiveCampaigns => Some(StatsKind)
    case Navigation => Some(Command)
    case Help => None
  }

  /** `processBotCommand(input)`, the reply id being the clock reading plus one. */
  function ProcessBotCommand(input: string, nowMs: int): (reply: BotMessage)
    ensures reply.sender == Bot && reply.id == IntToString(nowMs + 1)
    ensures Triggers(reply.topic, ToLower(input))
    ensures reply.kind.None? <==> reply.topic == Help
  {
    ChooseTopicFirstMatch(input);
    BotMessage(IntToString(nowMs + 1), Bot, ChooseTopic(input), KindOf(ChooseTopic(input)))
  }

  const QuickReplies: seq<string> := [
    "Show me today's tasks",
    "Generate campaign report",
    "Show volunteer stats",
    "Show donation metrics",
    "Show top donors",
    "Show active campaigns"
  ]

  // Each quick reply lower-cased, as the dispatcher reads it.

  lemma QuickReplyLowered0()
    ensures ToLower(QuickReplies[0]) == "show me today's tasks"
  {
  }

  lemma QuickReplyLowered1()
    ensures ToLower(QuickReplies[1]) == "generate campaign report"
  {
  }

  lemma QuickReplyLowered2()
    ensures ToLower(QuickReplies[2]) == "show volunteer stats"
  {
  }

  lemma QuickReplyLowered3()
    ensures ToLower(QuickReplies[3]) == "show donation metrics"
  {
  }

  lemma QuickReplyLowered4()
    ensures ToLower(QuickReplies[4]) == "show top donors"
  {
  }

  lemma QuickReplyLowered5()
    ensures ToLower(QuickReplies[5]) == "show active campaigns"
  {
  }

  /** "show me today's tasks" also says "show me", yet the task rule comes first. */
  lemma TodayTasksDispatch()
    ensures Dispatch("show me today's tasks") == TodayTasks
    ensures Triggers(Navigation, "show me today's tasks")
  {
    assert OccursAt("show me today's tasks", "today", 8);
    assert OccursAt("show me today's tasks", "task", 16);
    assert OccursAt("show me today's tasks", "show me", 0);
  }

  lemma CampaignReportDispatch()
    ensures Dispatch("generate campaign report") == CampaignReport
  {
    MissingCharExcludes("generate campaign report", "today", 'y');
    assert OccursAt("generate campaign report", "campaign", 9);
    assert OccursAt("generate campaign report", "report", 18);
  }

  lemma VolunteerStatsDispatch()
    ensures Dispatch("show volunteer stats") == VolunteerStats
  {
    MissingCharExcludes("show volunteer stats", "today", 'y');
    MissingCharExcludes("show volunteer stats", "campaign", 'c');
    assert OccursAt("show volunteer stats", "volunteer", 5);
    assert OccursAt("show volunteer stats", "stat", 15);
  }

  lemma DonationMetricsDispatch()
    ensures Dispatch("show donation metrics") == DonationMetrics
  {
    MissingCharExcludes("show donation metrics", "today", 'y');
    MissingCharExcludes("show donation metrics", "campaign", 'p');
    MissingCharExcludes("show donation metrics", "volunteer", 'v');
    assert OccursAt("show donation metrics", "donation", 5);
    assert OccursAt("show donation metrics", "metric", 14);
  }

  lemma TopDonorsDispatch()
    ensures Dispatch("show top donors") == TopDonors
  {
    MissingCharExcludes("show top donors", "today", 'y');
    MissingCharExcludes("show top donors", "campaign", 'c');
    MissingCharExcludes("show top donors", "volunteer", 'v');
    MissingCharExcludes("show top donors", "donation", 'i');
    assert OccursAt("show top donors", "top donor", 5);
  }

  lemma ActiveCampaignsDispatch()
    ensures Dispatch("show active campaigns") == ActiveCampaigns
  {
    var q := "show active campaigns";
    assert !Includes(q, "today") && !Includes(q, "report") && !Includes(q, "volunteer") by {
      MissingCharExcludes(q, "today", 'y');
      MissingCharExcludes(q, "report", 'r');
      MissingCharExcludes(q, "volunteer", 'l');
    }
    assert !Includes(q, "donation") && !Includes(q, "top donor") by {
      MissingCharExcludes(q, "donation", 'd');
      MissingCharExcludes(q, "top donor", 'd');
    }
    assert OccursAt(q, "active campaign", 5);
  }

  /**
   * Each quick-reply button gets the reply it names; the first one also
   * contains the navigation keyword "show me", but the task rule comes first.
   */
  lemma QuickRepliesAnswered()
    ensures ChooseTopic(QuickReplies[0]) == TodayTasks
    ensures ChooseTopic(QuickReplies[1]) == CampaignReport
    ensures ChooseTopic(QuickReplies[2]) == VolunteerStats
    ensures ChooseTopic(QuickReplies[3]) == DonationMetrics
    ensures ChooseTopic(QuickReplies[4]) == TopDonors
    ensures ChooseTopic(QuickReplies[5]) == ActiveCampaigns
    ensures Triggers(Navigation, ToLower(QuickReplies[0]))
  {
    QuickReplyLowered0();
    TodayTasksDispatch();
    QuickReplyLowered1();
    CampaignReportDispatch();
    QuickReplyLowered2();
    VolunteerStatsDispatch();
    QuickReplyLowered3();
    DonationMetricsDispatch();
    QuickReplyLowered4();
    TopDonorsDispatch();
    QuickReplyLowered5();
    ActiveCampaignsDispatch();
  }

  /** A line of the assistant's chat: its opening greeting, a line the user sent, or a reply. */
  datatype ChatEntry = Greeting | Said(id: string, text: string) | Answered(reply: BotMessage)

  /**
   * The assistant's chat panel: whether it is open, its history and the text
   * being typed. A reply arrives after a delay, so sending hands back the
   * question and `Answer` appends the reply when the delay is over.
   */
  class AssistantChat {
    var isOpen: bool
    var messages: seq<ChatEntry>
    var input: string

    constructor ()
      ensures !isOpen && messages == [Greeting] && input == ""
    {
      isOpen := false;
      messages := [Greeting];
      input := "";
    }

    /** The floating button opens and closes the panel. */
    method Toggle()
      modifies this
      ensures isOpen == !old(isOpen)
      ensures messages == old(messages) && input == old(input)
    {
      isOpen := !isOpen;
    }

    method Close()
      modifies this
      ensures !isOpen
      ensures messages == old(messages) && input == old(input)
    {
      isOpen := false;
    }

    method Type(text: string)
      modifies this
      ensures input == text
      ensures isOpen == old(isOpen) && messages == old(messages)
    {
      input := text;
    }

    /**
     * `sendChatMessage`: a blank input sends nothing; otherwise the input is
     * added to the history under the clock reading as id, the box is cleared
     * and the text is handed back to be answered.
     */
    method Send(nowMs: int) returns (question: Option<string>)
      modifies this
      ensures Trim(old(input)) == "" ==> question == None && messages == old(messages) && input == old(input)
      ensures Trim(old(input)) != "" ==>
        question == Some(old(input)) && messages == old(messages) + [Said(IntToString(nowMs), old(input))] && input == ""
      ensures isOpen == old(isOpen)
    {
      if Trim(input) == "" {
        return None;
      }
      question := Some(input);
      messages := messages + [Said(IntToString(nowMs), input)];
      input := "";
    }

    /** A quick-reply button sends its text whatever is typed, leaving the box as it is. */
    method SendQuickReply(k: nat, nowMs: int) returns (question: string)
      requires k < |QuickReplies|
      modifies this
      ensures question == QuickReplies[k]
      ensures messages == old(messages) + [Said(IntToString(nowMs), QuickReplies[k])]
      ensures isOpen == old(isOpen) && input == old(input)
    {
      question := QuickReplies[k];
      messages := messages + [Said(IntToString(nowMs), question)];
    }

    /** The delayed reply to `question`, stamped with the clock reading at that moment. */
    method Answer(question: string, nowMs: int)
      modifies this
      ensures messages == old(messages) + [Answered(ProcessBotCommand(question, nowMs))]
      ensures messages[|messages| - 1].reply.kind.None? <==> messages[|messages| - 1].reply.topic == Help
      ensures isOpen == old(isOpen) && input == old(input)
    {
      messages := messages + [Answered(ProcessBotCommand(question, nowMs))];
    }
  }

  // ---------------------------------------------------------------------------
  // Tasks and messages

  function VolunteerTaskId(t: VolunteerTask): string { t.id }

  function MarkDone(t: VolunteerTask): VolunteerTask { t.(status := VolunteerTaskStatus.Completed) }

  /** `tasks.map(t => t.id === taskId ? { ...t, status: 'completed' } : t)`. */
  function CompleteTaskIn(tasks: seq<VolunteerTask>, taskId: string): (r: seq<VolunteerTask>)
    ensures |r| == |tasks|
    ensures forall i :: 0 <= i < |tasks| ==>
      r[i] == tasks[i].(status := if tasks[i].id == taskId then VolunteerTaskStatus.Completed else tasks[i].status)
  {
    ReplaceByIdSpec(tasks, VolunteerTaskId, taskId, MarkDone);
    ReplaceById(tasks, VolunteerTaskId, taskId, MarkDone)
  }

  lemma CompleteTaskIdempotent(tasks: seq<VolunteerTask>, taskId: string)
    ensures CompleteTaskIn(CompleteTaskIn(tasks, taskId), taskId) == CompleteTaskIn(tasks, taskId)
  {
  }

  predicate IsPending(t: VolunteerTask) { t.status == VolunteerTaskStatus.Pending }
  predicate IsDone(t: VolunteerTask) { t.status == VolunteerTaskStatus.Completed }

  /**
   * A volunteer task is either pending or completed, so the pending and the
   * completed lists together hold every task exactly once.
   */
  lemma PendingCompletedPartition(tasks: seq<VolunteerTask>)
    ensures |Filter(tasks, IsPending)| + |Filter(tasks, IsDone)| == |tasks|
    ensures multiset(Filter(tasks, IsPending)) + multiset(Filter(tasks, IsDone)) == multiset(tasks)
  {
    FilterPartition(tasks, IsPending, IsDone);
  }

  function DonorId(d: Donor): string { d.id }

  /**
   * `sendMessage` goes ahead only with a selected task, a non-empty draft and
   * a donor of that task among the known donors.
   */
  predicate CanSend(selected: Option<VolunteerTask>, draft: string, donors: seq<Donor>) {
    selected.Some? && draft != "" && FindById(donors, DonorId, selected.value.donorId).Some?
  }

  datatype MessageSender = VolunteerSender | DonorSender

  datatype MessageStatus = Sent | Delivered | Read

  datatype Message = Message(id: string, sender: MessageSender, text: string, time: string, status: MessageStatus)

  function MessageId(m: Message): string { m.id }

  function MarkDelivered(m: Message): Message { m.(status := Delivered) }

  /** The delivered update: the message with that id, and only it, becomes delivered. */
  function DeliveredIn(messages: seq<Message>, id: string): (r: seq<Message>)
    ensures |r| == |messages|
    ensures forall i :: 0 <= i < |messages| ==>
      r[i] == messages[i].(status := if messages[i].id == id then Delivered else messages[i].status)
  {
    ReplaceByIdSpec(messages, MessageId, id, MarkDelivered);
    ReplaceById(messages, MessageId, id, MarkDelivered)
  }

  /** The donor's canned answers to a direct SMS. */
  const Responses: seq<string> := [
    "Thank you for the update! I'll check it out.",
    "Got it, thanks for reaching out!",
    "Appreciate you letting me know!",
    "Sounds great! I'll follow up shortly."
  ]

  // ---------------------------------------------------------------------------
  // The page

  class WorkspacePage {
    var tasks: seq<VolunteerTask>
    var selectedTask: Option<VolunteerTask>
    var messageType: Channel
    var generatedMessage: string
    var sentMessages: seq<string>
    var activeCall: Option<CallSession>
    var currentScriptIndex: nat
    var isMuted: bool
    var directMessages: seq<Message>
    var selectedDonorForSMS: Option<Donor>
    var smsInput: string
    /** The donor directory the page looks donors up in (the mock donors). */
    const donors: seq<Donor>

    predicate Valid()
      reads this
    {
      CallState(activeCall, currentScriptIndex, CallScript)
    }

    constructor ()
      ensures Valid()
      ensures tasks == MockData.VolunteerTasks && selectedTask == None && messageType == Email
      ensures generatedMessage == "" && sentMessages == []
      ensures activeCall == None && currentScriptIndex == 0 && !isMuted
      ensures directMessages == [] && selectedDonorForSMS == None && smsInput == ""
      ensures donors == MockData.Donors
    {
      donors := MockData.Donors;
      tasks := MockData.VolunteerTasks;
      selectedTask := None;
      messageType := Email;
      generatedMessage := "";
      sentMessages := [];
      activeCall := None;
      currentScriptIndex := 0;
      isMuted := false;
      directMessages := [];
      selectedDonorForSMS := None;
      smsInput := "";
    }

    function PendingTasks(): seq<VolunteerTask>
      reads this
    {
      Filter(tasks, IsPending)
    }

    function CompletedTasks(): seq<VolunteerTask>
      reads this
    {
      Filter(tasks, IsDone)
    }

    /** Clicking a task selects it for a written message; phone tasks are started as calls instead. */
    method SelectTask(task: VolunteerTask)
      modifies this
      ensures task.channel != Phone ==> selectedTask == Some(task)
      ensures task.channel == Phone ==> selectedTask == old(selectedTask)
      ensures tasks == old(tasks) && generatedMessage == old(generatedMessage) && sentMessages == old(sentMessages)
      ensures activeCall == old(activeCall) && currentScriptIndex == old(currentScriptIndex) && isMuted == old(isMuted)
      ensures directMessages == old(directMessages) && smsInput == old(smsInput)
      ensures selectedDonorForSMS == old(selectedDonorForSMS) && messageType == old(messageType)
    {
      if task.channel != Phone {
        selectedTask := Some(task);
      }
    }

    /** The channel buttons choose how the drafted message is sent. */
    method ChooseMessageType(channel: Channel)
      modifies this
      ensures messageType == channel
      ensures tasks == old(tasks) && selectedTask == old(selectedTask) && generatedMessage == old(generatedMessage)
      ensures sentMessages == old(sentMessages) && directMessages == old(directMessages) && smsInput == old(smsInput)
      ensures activeCall == old(activeCall) && currentScriptIndex == old(currentScriptIndex) && isMuted == old(isMuted)
      ensures selectedDonorForSMS == old(selectedDonorForSMS)
    {
      messageType := channel;
    }

    /** Editing the drafted message. */
    method EditMessage(text: string)
      modifies this
      ensures generatedMessage == text
      ensures tasks == old(tasks) && selectedTask == old(selectedTask) && sentMessages == old(sentMessages)
      ensures activeCall == old(activeCall) && currentScriptIndex == old(currentScriptIndex) && isMuted == old(isMuted)
      ensures directMessages == old(directMessages) && smsInput == old(smsInput)
      ensures selectedDonorForSMS == old(selectedDonorForSMS) && messageType == old(messageType)
    {
      generatedMessage := text;
    }

    method CompleteTask(taskId: string)
      modifies this
      ensures tasks == CompleteTaskIn(old(tasks), taskId)
      ensures selectedTask == old(selectedTask) && generatedMessage == old(generatedMessage) && sentMessages == old(sentMessages)
      ensures activeCall == old(activeCall) && currentScriptIndex == old(currentScriptIndex) && isMuted == old(isMuted)
      ensures directMessages == old(directMessages) && smsInput == old(smsInput)
      ensures selectedDonorForSMS == old(selectedDonorForSMS) && messageType == old(messageType)
    {
      tasks := CompleteTaskIn(tasks, taskId);
    }

    /**
     * `sendMessage`: with a selected task, a drafted message and a known
     * donor, the task is recorded as sent and completed and the selection and
     * draft are cleared; otherwise nothing changes.
     */
    method SendMessage()
      modifies this
      ensures var sending := CanSend(old(selectedTask), old(generatedMessage), donors);
        (sending ==>
           sentMessages == old(sentMessages) + [old(selectedTask).value.id]
           && tasks == CompleteTaskIn(old(tasks), old(selectedTask).value.id)
           && selectedTask == None && generatedMessage == "")
        && (!sending ==>
           sentMessages == old(sentMessages) && tasks == old(tasks)
           && selectedTask == old(selectedTask) && generatedMessage == old(generatedMessage))
      ensures activeCall == old(activeCall) && currentScriptIndex == old(currentScriptIndex) && isMuted == old(isMuted)
      ensures directMessages == old(directMessages) && smsInput == old(smsInput)
      ensures selectedDonorForSMS == old(selectedDonorForSMS) && messageType == old(messageType)
    {
      if !CanSend(selectedTask, generatedMessage, donors) {
        return;
      }
      sentMessages := sentMessages + [selectedTask.value.id];
      tasks := CompleteTaskIn(tasks, selectedTask.value.id);
      selectedTask := None;
      generatedMessage := "";
    }

    /** A new call for the task's donor about the workspace campaign; the task selection is cleared. */
    method StartCall(task: VolunteerTask, nowMs: int)
      modifies this
      ensures Valid()
      ensures activeCall == Some(CallSession(task.id, task.donorName, DialledPhone, CallCampaign, nowMs, false, []))
      ensures currentScriptIndex == 0 && !isMuted && selectedTask == None
      ensures tasks == old(tasks) && generatedMessage == old(generatedMessage) && sentMessages == old(sentMessages)
      ensures directMessages == old(directMessages) && smsInput == old(smsInput)
      ensures selectedDonorForSMS == old(selectedDonorForSMS) && messageType == old(messageType)
    {
      activeCall := Some(CallSession(task.id, task.donorName, DialledPhone, CallCampaign, nowMs, false, []));
      currentScriptIndex := 0;
      isMuted := false;
      selectedTask := None;
    }

    /** Ending a call completes its task; with no call nothing happens. */
    method EndCall()
      modifies this
      requires Valid()
      ensures Valid()
      ensures old(activeCall).None? ==> tasks == old(tasks) && activeCall == None && currentScriptIndex == old(currentScriptIndex)
      ensures old(activeCall).Some? ==>
        tasks == CompleteTaskIn(old(tasks), old(activeCall).value.taskId) && activeCall == None && currentScriptIndex == 0
      ensures selectedTask == old(selectedTask) && generatedMessage == old(generatedMessage) && sentMessages == old(sentMessages)
      ensures isMuted == old(isMuted) && directMessages == old(directMessages) && smsInput == old(smsInput)
      ensures selectedDonorForSMS == old(selectedDonorForSMS) && messageType == old(messageType)
    {
      if activeCall.Some? {
        CompleteTask(activeCall.value.taskId);
        activeCall := None;
        currentScriptIndex := 0;
      }
    }

    /** The 2.5-second interval while a call is live and unmuted. */
    method TickCall(time: string)
      modifies this
      requires Valid()
      ensures Valid()
      ensures (activeCall, currentScriptIndex) == Tick(old(activeCall), old(currentScriptIndex), old(isMuted), CallScript, time)
      ensures currentScriptIndex <= |CallScript|
      ensures tasks == old(tasks) && selectedTask == old(selectedTask) && generatedMessage == old(generatedMessage)
      ensures sentMessages == old(sentMessages) && isMuted == old(isMuted)
      ensures directMessages == old(directMessages) && smsInput == old(smsInput)
      ensures selectedDonorForSMS == old(selectedDonorForSMS) && messageType == old(messageType)
    {
      var next := Tick(activeCall, currentScriptIndex, isMuted, CallScript, time);
      activeCall, currentScriptIndex := next.0, next.1;
    }

    method ToggleMute()
      modifies this
      requires Valid()
      ensures Valid()
      ensures isMuted == !old(isMuted)
      ensures activeCall == old(activeCall) && currentScriptIndex == old(currentScriptIndex)
      ensures tasks == old(tasks) && selectedTask == old(selectedTask) && generatedMessage == old(generatedMessage)
      ensures sentMessages == old(sentMessages) && directMessages == old(directMessages) && smsInput == old(smsInput)
      ensures selectedDonorForSMS == old(selectedDonorForSMS) && messageType == old(messageType)
    {
      isMuted := !isMuted;
    }

    method SelectDonorForSMS(donor: Donor)
      modifies this
      ensures selectedDonorForSMS == Some(donor)
      ensures directMessages == old(directMessages) && smsInput == old(smsInput)
      ensures tasks == old(tasks) && selectedTask == old(selectedTask) && generatedMessage == old(generatedMessage)
      ensures sentMessages == old(sentMessages) && messageType == old(messageType)
      ensures activeCall == old(activeCall) && currentScriptIndex == old(currentScriptIndex) && isMuted == old(isMuted)
    {
      selectedDonorForSMS := Some(donor);
    }

    method TypeSMS(text: string)
      modifies this
      ensures smsInput == text
      ensures directMessages == old(directMessages) && selectedDonorForSMS == old(selectedDonorForSMS)
      ensures tasks == old(tasks) && selectedTask == old(selectedTask) && generatedMessage == old(generatedMessage)
      ensures sentMessages == old(sentMessages) && messageType == old(messageType)
      ensures activeCall == old(activeCall) && currentScriptIndex == old(currentScriptIndex) && isMuted == old(isMuted)
    {
      smsInput := text;
    }

    /**
     * `sendDirectSMS`: with no donor selected or a blank input nothing
     * happens and no id is returned; otherwise the typed text is appended as a
     * sent message with the clock reading as its id, the input is cleared,
     * and the id is returned for the delivery update.
     */
    method SendDirectSMS(nowMs: int, time: string) returns (sentId: Option<string>)
      modifies this
      ensures old(selectedDonorForSMS).None? || Trim(old(smsInput)) == "" ==>
        sentId == None && directMessages == old(directMessages) && smsInput == old(smsInput)
      ensures old(selectedDonorForSMS).Some? && Trim(old(smsInput)) != "" ==>
        sentId == Some(IntToString(nowMs))
        && directMessages == old(directMessages) + [Message(IntToString(nowMs), VolunteerSender, old(smsInput), time, Sent)]
        && smsInput == ""
      ensures selectedDonorForSMS == old(selectedDonorForSMS)
      ensures tasks == old(tasks) && selectedTask == old(selectedTask) && generatedMessage == old(generatedMessage)
      ensures sentMessages == old(sentMessages) && messageType == old(messageType)
      ensures activeCall == old(activeCall) && currentScriptIndex == old(currentScriptIndex) && isMuted == old(isMuted)
    {
      if selectedDonorForSMS.Some? && Trim(smsInput) != "" {
        var id := IntToString(nowMs);
        directMessages := directMessages + [Message(id, VolunteerSender, smsInput, time, Sent)];
        smsInput := "";
        sentId := Some(id);
      } else {
        sentId := None;
      }
    }

    /** The delivery update one second after sending. */
    method MessageDelivered(id: string)
      modifies this
      ensures directMessages == DeliveredIn(old(directMessages), id)
      ensures smsInput == old(smsInput) && selectedDonorForSMS == old(selectedDonorForSMS)
      ensures tasks == old(tasks) && selectedTask == old(selectedTask) && generatedMessage == old(generatedMessage)
      ensures sentMessages == old(sentMessages) && messageType == old(messageType)
      ensures activeCall == old(activeCall) && currentScriptIndex == old(currentScriptIndex) && isMuted == old(isMuted)
    {
      directMessages := DeliveredIn(directMessages, id);
    }

    /** The donor's reply three seconds after sending: canned answer `pick`, already read. */
    method DonorReplies(nowMs: int, pick: nat, time: string)
      requires pick < |Responses|
      modifies this
      ensures directMessages == old(directMessages) + [Message(IntToString(nowMs + 1), DonorSender, Responses[pick], time, Read)]
      ensures smsInput == old(smsInput) && selectedDonorForSMS == old(selectedDonorForSMS)
      ensures tasks == old(tasks) && selectedTask == old(selectedTask) && generatedMessage == old(generatedMessage)
      ensures sentMessages == old(sentMessages) && messageType == old(messageType)
      ensures activeCall == old(activeCall) && currentScriptIndex == old(currentScriptIndex) && isMuted == old(isMuted)
    {
      directMessages := directMessages + [Message(IntToString(nowMs + 1), DonorSender, Responses[pick], time, Read)];
    }
  }
}
