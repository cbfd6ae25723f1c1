# Donor dashboard: a verified model of its record store and page logic

The donor-outreach dashboard keeps its records in a keyed store (`ApiService`).
Each of its pages (the day's outlook, the volunteer workspace, donors,
campaigns, volunteers, playbooks and the live donation screen) is a small state
machine over React state. This project models both in Dafny and proves what
each operation does to that state.

- **Store:** `Api.ApiService` is a class over `map<string, seq<Record>>`. The
  map is keyed by the full storage key (`donor_intelligence_data_` plus the
  collection name). Every get, create, update and delete is a method whose
  postcondition gives the whole new store. The `searchDonors` matcher is a
  pure function over a small criterion datatype.
- **Pages:** each page is a class with one field per `useState` variable and
  one method per handler or interval tick. The pure derivations are functions:
  filtered lists, totals, progress colours, the chatbot dispatcher and the call
  timer.
- **Shared logic:** the two pages that simulate a phone call share the
  call-session logic in `Calls`. The JavaScript string and array operations
  the pages rely on are modelled once, in `JsText` and `Seqs`:
  `toLowerCase`, `includes`, `trim`, `split`, `join`, `replace`, `padStart`,
  `filter`, `reduce`, `find`, `findIndex` and `map` by id.
- **Inputs:** clock readings, ids, random draws, `window.confirm` answers, the
  window height and locale-formatted time stamps are all method inputs.

Modules:

| file | module | models |
|---|---|---|
| wrappers.dfy | Wrappers | `Option` |
| js_text.dfy | JsText | the JavaScript string operations listed above |
| seqs.dfy | Seqs | array filters, sums, counts and lookups by id |
| types.dfy | Types | the records of src/types/index.ts; `Partial<X>` and the object spread |
| mock_data.dfy | MockData | the seed records of src/data/mockData.ts |
| api.dfy | Api | src/services/api.ts |
| calls.dfy | Calls | the simulated call shared by the outlook and the workspace |
| todays_outlook.dfy | TodaysOutlook | src/pages/Dashboard/TodaysOutlook.tsx |
| workspace.dfy | Workspace | src/pages/Workspace/Workspace.tsx |
| donors.dfy | Donors | src/pages/Donors/Donors.tsx |
| campaigns.dfy | Campaigns | src/pages/Campaigns/Campaigns.tsx |
| volunteers.dfy | Volunteers | src/pages/Volunteers/Volunteers.tsx |
| playbooks.dfy | Playbooks | src/pages/Playbooks/Playbooks.tsx |
| rolling_realtime.dfy | RollingRealtime | src/pages/RollingRealtime/RollingRealtime.tsx |

## Model

| member | source | states |
|---|---|---|
| Api.StorageKeyInjective | src/services/api.ts:25-32 | two collection names share a storage key only if they are the same name, so writing one collection never touches another |
| Api.CollectionOf | src/services/api.ts:36-42 | each kind of record belongs to exactly one collection key |
| Api.Apply | src/services/api.ts:71 | spreading updates over a record keeps it in its own collection |
| Api.StoredIn | src/services/api.ts:25-28 | a key that was never written reads as the empty collection |
| Api.WellKeyedUpdate | src/services/api.ts:30-32 | writing a collection of its own kind keeps every key holding only records of its kind |
| Api.SeededSpec | src/services/api.ts:34-44 | seeding writes each of the seven seed collections under its own key and keeps the store well keyed |
| Api.HoldsAllEvery | src/services/api.ts:235 | the recursive check of the criteria holds exactly when every criterion holds |
| Api.Search | src/services/api.ts:232-254 | the result is the donors meeting every criterion, in stored order; no criteria return every donor |
| Api.ContainsIgnoresCase | src/services/api.ts:240-241 | `contains` gives the same answer for a search text and its lower-cased form |
| Api.EqualsImpliesContains | src/services/api.ts:238-241 | a field equal to a text also contains it |
| Api.OrderOperators | src/services/api.ts:242-248 | between is inclusive at both ends; greater and less are strict and exclusive of each other; between a bound and itself is equality |
| Api.BetweenBounds | src/services/api.ts:247 | a `[min, max]` pair gives its two bounds; a text is destructured into its first two characters, each read as a number, so a text shorter than two characters has no upper bound |
| Api.NumericTextCriterion | src/services/api.ts:242-245 | a greater or less criterion given as the decimal text of a number compares exactly as that number does: `Number("1000")` is 1000 |
| Api.TextBetweenCriterion | src/services/api.ts:246-248 | a between criterion given as a two-digit text is destructured into its two characters: "19" holds exactly where the range [1, 9] does |
| Api.ApiService.constructor | src/services/api.ts:34-48 | a store that already holds donors is kept as it is; otherwise it is seeded |
| Api.ApiService.GetData | src/services/api.ts:25-28 | reads the collection under the key, or the empty one when the key is absent |
| Api.ApiService.SetData | src/services/api.ts:30-32 | replaces only that key's collection |
| Api.ApiService.InitializeData | src/services/api.ts:34-44 | seeds all seven collections exactly when the donors key is absent; otherwise the store is unchanged |
| Api.ApiService.StoredDonors | src/services/api.ts:233 | the donors as stored, record for record |
| Api.ApiService.Find | src/services/api.ts:54-57 | none exactly when no record has the id; otherwise the record at the first position with it |
| Api.ApiService.Append | src/services/api.ts:59-65 | the collection gains the record at its end; nothing else changes |
| Api.ApiService.Prepend | src/services/api.ts:224-230 | the collection gains the record at its front; nothing else changes |
| Api.ApiService.Update | src/services/api.ts:67-74 | an unknown id returns nothing and changes nothing; a known id replaces only the first record with it by the spread record, which is returned |
| Api.ApiService.Delete | src/services/api.ts:76-82 | reports false exactly when no record has the id, and then changes nothing; otherwise removes every record with the id, keeping the others in order |
| Api.ApiService.GetDonors | src/services/api.ts:50-52 | all stored donors |
| Api.ApiService.GetDonor | src/services/api.ts:54-57 | none exactly when no stored donor has the id; otherwise the donor at the first position with it |
| Api.ApiService.CreateDonor | src/services/api.ts:59-65 | returns the fields under the given id and appends exactly that donor |
| Api.ApiService.UpdateDonor | src/services/api.ts:67-74 | as Update, on the donors |
| Api.ApiService.DeleteDonor | src/services/api.ts:76-82 | as Delete, on the donors |
| Api.ApiService.GetCampaigns | src/services/api.ts:84-86 | all stored campaigns |
| Api.ApiService.GetCampaign | src/services/api.ts:88-91 | none exactly when no stored campaign has the id; otherwise the campaign at the first position with it |
| Api.ApiService.CreateCampaign | src/services/api.ts:93-99 | returns the fields under the given id and appends exactly that campaign |
| Api.ApiService.UpdateCampaign | src/services/api.ts:101-108 | as Update, on the campaigns |
| Api.ApiService.DeleteCampaign | src/services/api.ts:110-116 | as Delete, on the campaigns |
| Api.ApiService.GetPlaybooks | src/services/api.ts:118-120 | all stored playbooks |
| Api.ApiService.GetPlaybook | src/services/api.ts:122-125 | none exactly when no stored playbook has the id; otherwise the playbook at the first position with it |
| Api.ApiService.CreatePlaybook | src/services/api.ts:127-133 | returns the fields under the given id and appends exactly that playbook |
| Api.ApiService.UpdatePlaybook | src/services/api.ts:135-142 | as Update, on the playbooks |
| Api.ApiService.DeletePlaybook | src/services/api.ts:144-150 | as Delete, on the playbooks |
| Api.ApiService.GetVolunteers | src/services/api.ts:152-154 | all stored volunteers |
| Api.ApiService.GetVolunteer | src/services/api.ts:156-159 | none exactly when no stored volunteer has the id; otherwise the volunteer at the first position with it |
| Api.ApiService.CreateVolunteer | src/services/api.ts:161-167 | returns the fields under the given id and appends exactly that volunteer |
| Api.ApiService.UpdateVolunteer | src/services/api.ts:169-176 | as Update, on the volunteers |
| Api.ApiService.DeleteVolunteer | src/services/api.ts:178-184 | as Delete, on the volunteers |
| Api.ApiService.GetTasks | src/services/api.ts:186-188 | all stored tasks |
| Api.ApiService.UpdateTask | src/services/api.ts:190-197 | as Update, on the tasks |
| Api.ApiService.GetVolunteerTasks | src/services/api.ts:199-201 | all stored volunteer tasks |
| Api.ApiService.CreateVolunteerTask | src/services/api.ts:203-209 | returns the fields under the given id and appends exactly that task |
| Api.ApiService.UpdateVolunteerTask | src/services/api.ts:211-218 | as Update, on the volunteer tasks |
| Api.ApiService.GetDonations | src/services/api.ts:220-222 | all stored donations |
| Api.ApiService.SearchDonors | src/services/api.ts:232-254 | the matcher applied to the stored donors |
| Api.ApiService.AddDonation | src/services/api.ts:224-230 | the new donation is at index 0 and the earlier ones follow, shifted by one |
| Seqs.Filter | src/pages/Donors/Donors.tsx:27 | a filter keeps exactly the elements that pass |
| Seqs.FilterIsSubsequence | src/pages/Donors/Donors.tsx:27 | the kept elements stay in their original order |
| Seqs.FilterKeepsAll | src/services/api.ts:79 | a filter keeps the whole list exactly when every element passes, which is when the length is unchanged |
| Seqs.FilterPartition | src/pages/Workspace/Workspace.tsx:382-383 | two complementary filters together hold every element exactly once |
| Seqs.SumAppend | src/pages/Donors/Donors.tsx:35 | the sum over a concatenation is the sum of the sums |
| Seqs.SumSplit | src/pages/Donors/Donors.tsx:35 | the sum over the kept elements plus the sum over the dropped ones is the whole sum |
| Seqs.IndexOfId | src/services/api.ts:69-70 | -1 exactly when no element has the id; otherwise the first position with it |
| Seqs.FindById | src/services/api.ts:56 | none exactly when no element has the id; otherwise the element at the first position with it |
| Seqs.RemoveById | src/services/api.ts:78 | keeps exactly the elements without the id, in order |
| Seqs.RemoveByIdUnchanged | src/services/api.ts:78-79 | the length is unchanged exactly when no element has the id, and then so is the list |
| Seqs.ReplaceByIdSpec | src/pages/Workspace/Workspace.tsx:374-380 | mapping by id rewrites exactly the elements with the id and keeps the rest in place |
| Seqs.ReplaceByIdIdempotent | src/pages/Workspace/Workspace.tsx:374-380 | for an id-keeping idempotent update, mapping by id twice is mapping once |
| JsText.ToLowerIdempotent | src/pages/Workspace/Workspace.tsx:259 | lower-casing twice is lower-casing once |
| JsText.Trim | src/pages/Workspace/Workspace.tsx:131 | the trimmed text is part of the text and neither starts nor ends with white space |
| JsText.TrimSlice | src/pages/Workspace/Workspace.tsx:131 | trimming removes white space at the two ends and nothing else: the result is the text, character for character, from where the leading white space stops, and everything before and after it is white space |
| JsText.TrimEmptyIffBlank | src/pages/Workspace/Workspace.tsx:131 | the trimmed text is empty exactly when the text is all white space |
| JsText.Split | src/pages/Donors/Donors.tsx:474 | one piece more than there are separators, and no piece contains the separator |
| JsText.JoinSplit | src/pages/Donors/Donors.tsx:474 | joining the pieces with the separator gives the text back |
| JsText.ReplaceFirstAbsent | src/pages/Workspace/Workspace.tsx:214 | a text without the pattern is left as it is |
| JsText.ReplaceFirstOccurrence | src/pages/Workspace/Workspace.tsx:214 | the first occurrence is replaced by the replacement with its `$` patterns expanded; the text before and after it is kept |
| JsText.Substitution | src/pages/Workspace/Workspace.tsx:214 | a replacement without `$` is inserted as written |
| JsText.SubstitutionPatterns | src/pages/Workspace/Workspace.tsx:214 | in a replacement, `$$` inserts a dollar sign, `$&` the matched text, `` $` `` the text before the match and `$'` the text after it |
| JsText.NatToStringRoundTrip | src/pages/Workspace/Workspace.tsx:236 | the decimal digits of a number read back as the number |
| JsText.TrimmedNumber | src/services/api.ts:243 | `Number` of a trimmed text: the empty text is 0 and a run of digits is its decimal value |
| JsText.TextNumberRoundTrip | src/services/api.ts:243-245 | `Number(String(n))` is `n` for every integer, negative ones included |
| JsText.PadStart | src/pages/Workspace/Workspace.tsx:236 | pads on the left with the fill to at least the width, keeping the text at the end |
| JsText.StringOr | src/pages/Campaigns/Campaigns.tsx:50-63 | `x \|\| fallback` on text: the result is empty exactly when the value is missing or empty and the fallback is empty, so a non-empty fallback always gives a non-empty text |
| JsText.NumberOr | src/pages/Donors/Donors.tsx:59 | `x \|\| fallback` on numbers: the result is 0 exactly when the value is missing or 0 and the fallback is 0, so a non-zero fallback always gives a non-zero number |
| Types.LaterLaws | src/pages/Donors/Donors.tsx:47 | for one field of a spread: a missing field on either side leaves the other, spreading a value over itself keeps it, and a chain of spreads may be grouped either way |
| Types.OverlayNothing | src/pages/Donors/Donors.tsx:47 | spreading an empty partial changes nothing |
| Types.OverlayMerge | src/pages/Donors/Donors.tsx:47 | spreading two partials in turn is spreading their merge |
| Types.EditFormOnOwnRecord | src/pages/Donors/Donors.tsx:72-77 | saving the form opened on a record onto that record gives the record with just the edits |
| Calls.Personalize | src/pages/Workspace/Workspace.tsx:212-215 | a script line without `{name}` is spoken as written |
| Calls.PersonalizeFirstPlaceholder | src/pages/Workspace/Workspace.tsx:212-215 | the first `{name}` becomes the donor's name, with the name's `$` patterns expanded as `replace` does; a name without `$` appears as written; the text around it is kept |
| Calls.FollowsScriptStep | src/pages/Workspace/Workspace.tsx:209-225 | appending the next personalised line keeps the transcript equal to the script read so far |
| Calls.Tick | src/pages/Workspace/Workspace.tsx:206-229 | no call, a muted call or the end of the script changes nothing; otherwise one personalised line is appended and the index moves on; the transcript stays as long as the index and within the script |
| Calls.JsRemainder | src/pages/Workspace/Workspace.tsx:235 | JavaScript `%`: the remainder takes the sign of the dividend; for a negative dividend it is minus the remainder of its magnitude |
| Calls.TwoDigitsValue | src/pages/Workspace/Workspace.tsx:236 | a number shows as at least two digits, exactly two below 100, reading back as the number |
| Calls.ElapsedTime | src/pages/Workspace/Workspace.tsx:231-237 | "00:00" when there is no call |
| Calls.ElapsedSeconds | src/pages/Workspace/Workspace.tsx:233 | the whole seconds since the call started, rounded down: never negative once the clock has reached the start |
| Calls.ElapsedTimeRunning | src/pages/Workspace/Workspace.tsx:231-237 | during a call the timer shows the elapsed whole minutes and the seconds within the minute, as `MM:SS` |
| Calls.FormatElapsedRoundTrip | src/pages/Workspace/Workspace.tsx:233-236 | the timer shows the whole minutes, a colon and exactly two digits of seconds below 60; the digits read back as `elapsed / 60` and `elapsed % 60`, which together give the elapsed seconds again |
| TodaysOutlook.DonorAnswersWithName | src/pages/Dashboard/TodaysOutlook.tsx:31 | for a name without `$`, the donor's first line reads "Yes, this is <name> speaking." |
| TodaysOutlook.CompleteTaskIn | src/pages/Dashboard/TodaysOutlook.tsx:60-64 | tasks with the id become completed; every other task and field is unchanged |
| TodaysOutlook.CompleteTaskIdempotent | src/pages/Dashboard/TodaysOutlook.tsx:60-64 | completing a task twice is completing it once |
| TodaysOutlook.FilteredTasks | src/pages/Dashboard/TodaysOutlook.tsx:52-58 | a task is listed exactly when its channel passes the filter and its donor or title contains the search, ignoring case; the list keeps the order; 'all' with no search lists everything |
| TodaysOutlook.EveryTaskShown | src/pages/Dashboard/TodaysOutlook.tsx:52-58 | 'all' with an empty search admits every task |
| TodaysOutlook.Stats | src/pages/Dashboard/TodaysOutlook.tsx:128-133 | each count is the number of tasks with that status; the three add up to the total; the completed or the pending count equals the total exactly when every task has that status |
| TodaysOutlook.StatusesPartition | src/pages/Dashboard/TodaysOutlook.tsx:128-133 | every task has exactly one of the three statuses |
| TodaysOutlook.OutlookPage.constructor | src/pages/Dashboard/TodaysOutlook.tsx:44-49 | the seed tasks, no filter, no call, index 0, unmuted |
| TodaysOutlook.OutlookPage.SetFilter | src/pages/Dashboard/TodaysOutlook.tsx:210-219 | sets the search and the channel filter only |
| TodaysOutlook.OutlookPage.CompleteTask | src/pages/Dashboard/TodaysOutlook.tsx:60-64 | the tasks with the id are completed; the rest of the page is unchanged |
| TodaysOutlook.OutlookPage.StartCall | src/pages/Dashboard/TodaysOutlook.tsx:66-79 | a call for the task with an empty transcript, index 0, unmuted |
| TodaysOutlook.OutlookPage.EndCall | src/pages/Dashboard/TodaysOutlook.tsx:81-87 | with a call, completes its task, clears it and resets the index; without one, changes nothing |
| TodaysOutlook.OutlookPage.TickCall | src/pages/Dashboard/TodaysOutlook.tsx:95-118 | the call and index after one tick, never past the eleven-line script |
| TodaysOutlook.OutlookPage.ToggleMute | src/pages/Dashboard/TodaysOutlook.tsx:573 | flips mute only |
| Workspace.ChooseTopicFirstMatch | src/pages/Workspace/Workspace.tsx:259-336 | the reply's rule matches the lower-cased input and no earlier rule does |
| Workspace.ChooseTopicIgnoresCase | src/pages/Workspace/Workspace.tsx:259 | an input and its lower-cased form get the same reply |
| Workspace.KindOf | src/pages/Workspace/Workspace.tsx:261-336 | only the help reply has no type |
| Workspace.ProcessBotCommand | src/pages/Workspace/Workspace.tsx:258-337 | a bot message with id clock plus one, whose rule matches the input; it has no type exactly when it is the help reply |
| Workspace.TodayTasksDispatch | src/pages/Workspace/Workspace.tsx:261-318 | "show me today's tasks" gets the task reply even though it also says "show me" |
| Workspace.CampaignReportDispatch | src/pages/Workspace/Workspace.tsx:271-279 | "generate campaign report" gets the report |
| Workspace.VolunteerStatsDispatch | src/pages/Workspace/Workspace.tsx:281-289 | "show volunteer stats" gets the volunteer statistics |
| Workspace.DonationMetricsDispatch | src/pages/Workspace/Workspace.tsx:291-299 | "show donation metrics" gets the donation metrics |
| Workspace.TopDonorsDispatch | src/pages/Workspace/Workspace.tsx:301-309 | "show top donors" gets the top donors |
| Workspace.ActiveCampaignsDispatch | src/pages/Workspace/Workspace.tsx:311-319 | "show active campaigns" gets the active campaigns |
| Workspace.QuickRepliesAnswered | src/pages/Workspace/Workspace.tsx:70-77 | each quick-reply button gets the reply it names |
| Workspace.AssistantChat.constructor | src/pages/Workspace/Workspace.tsx:90-99 | closed, only the greeting, an empty input box |
| Workspace.AssistantChat.Toggle | src/pages/Workspace/Workspace.tsx:918 | opens or closes the panel only |
| Workspace.AssistantChat.Close | src/pages/Workspace/Workspace.tsx:976 | closes the panel only |
| Workspace.AssistantChat.Type | src/pages/Workspace/Workspace.tsx:1052 | sets the input only |
| Workspace.AssistantChat.Send | src/pages/Workspace/Workspace.tsx:239-256 | a blank input sends nothing; otherwise the input joins the history, the box is cleared and the text is handed on to be answered |
| Workspace.AssistantChat.SendQuickReply | src/pages/Workspace/Workspace.tsx:1015-1031 | the button's text joins the history and is handed on; the input box is left alone |
| Workspace.AssistantChat.Answer | src/pages/Workspace/Workspace.tsx:252-255 | the dispatcher's reply to the question is appended |
| Workspace.CompleteTaskIn | src/pages/Workspace/Workspace.tsx:374-380 | tasks with the id become completed; every other task and field is unchanged |
| Workspace.CompleteTaskIdempotent | src/pages/Workspace/Workspace.tsx:374-380 | completing a task twice is completing it once |
| Workspace.PendingCompletedPartition | src/pages/Workspace/Workspace.tsx:382-383 | the pending and completed lists together hold every task exactly once |
| Workspace.DeliveredIn | src/pages/Workspace/Workspace.tsx:146-150 | only the message with the id becomes delivered |
| Workspace.WorkspacePage.constructor | src/pages/Workspace/Workspace.tsx:80-104 | the seed tasks, nothing selected, email, no call, empty threads |
| Workspace.WorkspacePage.SelectTask | src/pages/Workspace/Workspace.tsx:659 | a task that is not a phone task becomes selected; a phone task changes nothing |
| Workspace.WorkspacePage.ChooseMessageType | src/pages/Workspace/Workspace.tsx:748 | sets the message channel only |
| Workspace.WorkspacePage.EditMessage | src/pages/Workspace/Workspace.tsx:848 | sets the draft only |
| Workspace.WorkspacePage.CompleteTask | src/pages/Workspace/Workspace.tsx:374-380 | the tasks with the id are completed; the rest of the page is unchanged |
| Workspace.WorkspacePage.SendMessage | src/pages/Workspace/Workspace.tsx:339-372 | with a selected task, a draft and a known donor, records the task as sent, completes it and clears the selection and draft; otherwise changes nothing |
| Workspace.WorkspacePage.StartCall | src/pages/Workspace/Workspace.tsx:170-184 | a Spring Drive call for the task, index 0, unmuted, no task selected |
| Workspace.WorkspacePage.EndCall | src/pages/Workspace/Workspace.tsx:186-192 | with a call, completes its task, clears it and resets the index; without one, changes nothing |
| Workspace.WorkspacePage.TickCall | src/pages/Workspace/Workspace.tsx:206-229 | the call and index after one tick, never past the nine-line script |
| Workspace.WorkspacePage.ToggleMute | src/pages/Workspace/Workspace.tsx:1261 | flips mute only |
| Workspace.WorkspacePage.SelectDonorForSMS | src/pages/Workspace/Workspace.tsx:497 | selects the donor to text only |
| Workspace.WorkspacePage.TypeSMS | src/pages/Workspace/Workspace.tsx:597 | sets the SMS input only |
| Workspace.WorkspacePage.SendDirectSMS | src/pages/Workspace/Workspace.tsx:130-144 | no donor or a blank input sends nothing; otherwise the text is appended as a sent message under the clock reading and the input is cleared |
| Workspace.WorkspacePage.MessageDelivered | src/pages/Workspace/Workspace.tsx:146-150 | only the status of the message with the id changes, to delivered |
| Workspace.WorkspacePage.DonorReplies | src/pages/Workspace/Workspace.tsx:152-167 | one read reply from the donor, a canned answer, is appended under the clock reading plus one |
| Donors.FilteredDonors | src/pages/Donors/Donors.tsx:27-33 | a donor is listed exactly when the full name or email contains the search, ignoring case, and the status passes; order is kept; 'all' with no search lists everyone |
| Donors.EveryDonorShown | src/pages/Donors/Donors.tsx:27-33 | 'all' with an empty search admits every donor |
| Donors.ActiveDonors | src/pages/Donors/Donors.tsx:36 | at most the number of donors, and equal to it exactly when every donor is active |
| Donors.AverageDonation | src/pages/Donors/Donors.tsx:139 | "Avg Donation": NaN (None) exactly when there are no donors; otherwise the whole number nearest the mean giving, a half rounding up as `Math.round` does |
| Donors.TotalAfterAdd | src/pages/Donors/Donors.tsx:35-65 | an added donor raises the total by its own donations |
| Donors.TotalAfterDelete | src/pages/Donors/Donors.tsx:35-40 | a delete lowers the total by the donations of the donors removed |
| Donors.ParseTags | src/pages/Donors/Donors.tsx:474 | one tag more than there are commas; each tag is its piece without surrounding white space |
| Donors.SplitJoined | src/pages/Donors/Donors.tsx:474 | splitting tags joined with ", " gives the first tag and the others each behind one space |
| Donors.SplitJoinedTags | src/pages/Donors/Donors.tsx:474 | splitting the tags as displayed gives the first tag and the others each behind one space |
| Donors.TrimmedPieces | src/pages/Donors/Donors.tsx:474 | trimming those pieces gives the tags back |
| Donors.ParseTagsPieces | src/pages/Donors/Donors.tsx:474 | each tag is its comma-separated piece trimmed |
| Donors.TagsRoundTrip | src/pages/Donors/Donors.tsx:472-474 | tags without commas or surrounding white space, shown joined by ", " and parsed back, are the same tags |
| Donors.EmptyTagField | src/pages/Donors/Donors.tsx:474 | an emptied tag field gives one empty tag, not none |
| Donors.AddedAsWritten | src/pages/Donors/Donors.tsx:50-65 | the donor the add-mode save builds: form fields as they are, with defaults only for donations, status and tags |
| Donors.AddedAsWrittenComplete | src/pages/Donors/Donors.tsx:50-65 | that donor has every field exactly when the form filled in every non-defaulted field |
| Donors.FirstNameOnlyBreaksList | src/pages/Donors/Donors.tsx:50-65 | a form with just a first name adds a donor without a last name, whose list row cannot render |
| Donors.NewDonor | src/pages/Donors/Donors.tsx:50-65 | the added donor takes the form's fields, "" for missing text, 0 donations, prospect, no tags, today's dates; its row renders |
| Donors.NewDonorAgrees | src/pages/Donors/Donors.tsx:50-65 | for a fully filled form the corrected donor is the one the page builds |
| Donors.EditedIn | src/pages/Donors/Donors.tsx:45-49 | the donors with the id get the form spread over them; the others and the length are unchanged |
| Donors.DonorsPage.constructor | src/pages/Donors/Donors.tsx:19-25 | the seed donors, no search, all statuses, nothing selected, form closed and empty |
| Donors.DonorsPage.SetFilter | src/pages/Donors/Donors.tsx:165-173 | sets the search and the status filter only |
| Donors.DonorsPage.Delete | src/pages/Donors/Donors.tsx:38-42 | a confirmed delete removes the donors with the id, keeping order; otherwise nothing changes |
| Donors.DonorsPage.EditForm | src/pages/Donors/Donors.tsx:339-483 | the form's edited fields replace the earlier values |
| Donors.DonorsPage.EnterTags | src/pages/Donors/Donors.tsx:472-474 | the form's tags become the parsed tag field |
| Donors.DonorsPage.Save | src/pages/Donors/Donors.tsx:44-70 | edit mode spreads the form over the selected donor and leaves edit mode; add mode with a first name appends one new donor; otherwise the list is kept; every save closes and clears the form and selection |
| Donors.DonorsPage.OpenEdit | src/pages/Donors/Donors.tsx:72-77 | selects the donor, copies it into the form, edit mode, open |
| Donors.DonorsPage.OpenAdd | src/pages/Donors/Donors.tsx:79-84 | no selection, an empty form, add mode, open |
| Donors.DonorsPage.ShowDetails | src/pages/Donors/Donors.tsx:205 | selects the donor only |
| Donors.DonorsPage.CloseDetails | src/pages/Donors/Donors.tsx:504 | clears the selection only |
| Donors.DonorsPage.CloseForm | src/pages/Donors/Donors.tsx:325 | closes the form only |
| Volunteers.FilteredVolunteers | src/pages/Volunteers/Volunteers.tsx:27-33 | a volunteer is listed exactly when the name or email contains the search, ignoring case, and the status passes; order is kept; 'all' with no search lists everyone |
| Volunteers.EveryVolunteerShown | src/pages/Volunteers/Volunteers.tsx:27-33 | 'all' with an empty search admits every volunteer |
| Volunteers.ActiveVolunteers | src/pages/Volunteers/Volunteers.tsx:37 | at most the number of volunteers, and equal to it exactly when all are active |
| Volunteers.TotalsAfterAdd | src/pages/Volunteers/Volunteers.tsx:35-63 | a new volunteer, with no hours and no tasks, leaves both totals unchanged |
| Volunteers.TotalsAfterDelete | src/pages/Volunteers/Volunteers.tsx:35-41 | a delete lowers the totals by the hours and tasks of those removed |
| Volunteers.AddedAsWritten | src/pages/Volunteers/Volunteers.tsx:51-63 | the volunteer the add-mode save builds: form fields as they are, defaults only for status, hours and tasks |
| Volunteers.AddedAsWrittenComplete | src/pages/Volunteers/Volunteers.tsx:51-63 | that volunteer has every field exactly when the form gave last name, email and phone |
| Volunteers.FirstNameOnlyBreaksList | src/pages/Volunteers/Volunteers.tsx:51-63 | a form with just a first name adds a volunteer without a last name, whose row cannot render |
| Volunteers.NewVolunteer | src/pages/Volunteers/Volunteers.tsx:51-63 | the added volunteer takes the form's fields, "" for missing text, active, 0 hours, 0 tasks, joined today; its row renders |
| Volunteers.NewVolunteerAgrees | src/pages/Volunteers/Volunteers.tsx:51-63 | for a fully filled form the corrected volunteer is the one the page builds |
| Volunteers.EditedIn | src/pages/Volunteers/Volunteers.tsx:46-50 | the volunteers with the id get the form spread over them; the others and the length are unchanged |
| Volunteers.VolunteersPage.constructor | src/pages/Volunteers/Volunteers.tsx:19-25 | the seed volunteers, no search, all statuses, nothing selected, form closed and empty |
| Volunteers.VolunteersPage.SetFilter | src/pages/Volunteers/Volunteers.tsx:161-169 | sets the search and the status filter only |
| Volunteers.VolunteersPage.Delete | src/pages/Volunteers/Volunteers.tsx:39-43 | a confirmed delete removes the volunteers with the id, keeping order; otherwise nothing changes |
| Volunteers.VolunteersPage.EditForm | src/pages/Volunteers/Volunteers.tsx:323-416 | the form's edited fields replace the earlier values |
| Volunteers.VolunteersPage.Save | src/pages/Volunteers/Volunteers.tsx:45-68 | edit mode spreads the form over the selected volunteer; add mode with a first name appends one new volunteer; otherwise the list is kept; every save closes and clears the form and selection |
| Volunteers.VolunteersPage.OpenEdit | src/pages/Volunteers/Volunteers.tsx:70-75 | selects the volunteer, copies it into the form, edit mode, open |
| Volunteers.VolunteersPage.OpenAdd | src/pages/Volunteers/Volunteers.tsx:77-82 | no selection, an empty form, add mode, open |
| Volunteers.VolunteersPage.ShowDetails | src/pages/Volunteers/Volunteers.tsx:200 | selects the volunteer only |
| Volunteers.VolunteersPage.CloseDetails | src/pages/Volunteers/Volunteers.tsx:437 | clears the selection only |
| Volunteers.VolunteersPage.CloseForm | src/pages/Volunteers/Volunteers.tsx:309 | closes the form only |
| Campaigns.FilteredCampaigns | src/pages/Campaigns/Campaigns.tsx:28-32 | a campaign is listed exactly when its name contains the search, ignoring case, and the status passes; order is kept; 'all' with no search lists every campaign |
| Campaigns.EveryCampaignShown | src/pages/Campaigns/Campaigns.tsx:28-32 | 'all' with an empty search admits every campaign |
| Campaigns.ActiveCampaigns | src/pages/Campaigns/Campaigns.tsx:36 | at most the number of campaigns, and equal to it exactly when all are active |
| Campaigns.TotalsAfterAppend | src/pages/Campaigns/Campaigns.tsx:34-35 | adding a campaign that is not active leaves the totals alone; an active one adds its raised amount and goal |
| Campaigns.OverallProgress | src/pages/Campaigns/Campaigns.tsx:144 | 0 when the goal total is 0; otherwise the percentage times the goal is 100 times the amount raised, between 0 and 100 while the raised amount is within the goal |
| Campaigns.ProgressColorBands | src/pages/Campaigns/Campaigns.tsx:84-89 | for a positive goal: success from 80 %, warning from 50 % to below 80 %, accent below 50 % |
| Campaigns.ProgressWidth | src/pages/Campaigns/Campaigns.tsx:192 | never above 100; 100 once the goal is reached; otherwise proportional to the amount raised |
| Campaigns.AverageDonation | src/pages/Campaigns/Campaigns.tsx:555 | the amount raised over the donor count, where a count below 1 divides by 1 |
| Campaigns.NewCampaign | src/pages/Campaigns/Campaigns.tsx:50-63 | the named campaign with the form's fields, "" for a missing description or playbook, today for missing dates, raised 0, no donors, draft by default |
| Campaigns.NewDraftLeavesTotals | src/pages/Campaigns/Campaigns.tsx:34-63 | a new campaign left as a draft does not change the active totals |
| Campaigns.EditedIn | src/pages/Campaigns/Campaigns.tsx:45-49 | the campaigns with the id get the form spread over them; the others and the length are unchanged |
| Campaigns.CampaignsPage.constructor | src/pages/Campaigns/Campaigns.tsx:20-26 | the seed campaigns, no search, all statuses, nothing selected, form closed and empty |
| Campaigns.CampaignsPage.SetFilter | src/pages/Campaigns/Campaigns.tsx:170-178 | sets the search and the status filter only |
| Campaigns.CampaignsPage.Delete | src/pages/Campaigns/Campaigns.tsx:38-42 | a confirmed delete removes the campaigns with the id, keeping order; otherwise nothing changes |
| Campaigns.CampaignsPage.EditForm | src/pages/Campaigns/Campaigns.tsx:351-444 | the form's edited fields replace the earlier values |
| Campaigns.CampaignsPage.Save | src/pages/Campaigns/Campaigns.tsx:44-68 | edit mode spreads the form over the selected campaign; add mode with a name appends one new campaign; otherwise the list is kept; every save closes and clears the form and selection |
| Campaigns.CampaignsPage.OpenEdit | src/pages/Campaigns/Campaigns.tsx:70-75 | selects the campaign, copies it into the form, edit mode, open |
| Campaigns.CampaignsPage.OpenAdd | src/pages/Campaigns/Campaigns.tsx:77-82 | no selection, an empty form, add mode, open |
| Campaigns.CampaignsPage.ShowDetails | src/pages/Campaigns/Campaigns.tsx:209 | selects the campaign only |
| Campaigns.CampaignsPage.CloseDetails | src/pages/Campaigns/Campaigns.tsx:465 | clears the selection only |
| Campaigns.CampaignsPage.CloseForm | src/pages/Campaigns/Campaigns.tsx:337 | closes the form only |
| Playbooks.Duplicate | src/pages/Playbooks/Playbooks.tsx:48-56 | the copy has the new id, the name plus " (Copy)", version 1, no history and today's date; everything else, steps and metrics included, is the original's |
| Playbooks.DuplicateCountsTwice | src/pages/Playbooks/Playbooks.tsx:57-67 | duplicating raises the donation total by the original's donations |
| Playbooks.TotalAfterDelete | src/pages/Playbooks/Playbooks.tsx:42-67 | a delete lowers the donation total by the donations of the playbooks removed |
| Playbooks.Toggle | src/pages/Playbooks/Playbooks.tsx:147-149 | the clicked playbook ends up open exactly when it was not; at most that one is open |
| Playbooks.ToggleTwice | src/pages/Playbooks/Playbooks.tsx:147-149 | clicking the same card twice leaves it open if it was open before, and otherwise leaves no card open |
| Playbooks.PlaybooksPage.constructor | src/pages/Playbooks/Playbooks.tsx:23-28 | the seed playbooks, nothing expanded, no history shown, modal closed |
| Playbooks.PlaybooksPage.Delete | src/pages/Playbooks/Playbooks.tsx:42-46 | a confirmed delete removes the playbooks with the id; otherwise nothing changes |
| Playbooks.PlaybooksPage.DuplicatePlaybook | src/pages/Playbooks/Playbooks.tsx:48-58 | appends exactly the copy; the existing playbooks are unchanged |
| Playbooks.PlaybooksPage.ToggleExpanded | src/pages/Playbooks/Playbooks.tsx:147-149 | toggles which playbook is expanded only |
| Playbooks.PlaybooksPage.ToggleHistory | src/pages/Playbooks/Playbooks.tsx:227 | toggles whose version history is shown only |
| Playbooks.PlaybooksPage.OpenNew | src/pages/Playbooks/Playbooks.tsx:84 | sets the modal flag only |
| RollingRealtime.RandomDonation | src/pages/RollingRealtime/RollingRealtime.tsx:50-59 | a Capital Campaign donation under the clock id, from one of the listed names and states, of one of the listed amounts between 50 and 1000 |
| RollingRealtime.FeedAfter | src/pages/RollingRealtime/RollingRealtime.tsx:61 | the new donation first, then the earlier ones in order, ten at most |
| RollingRealtime.FeedOnlyShifts | src/pages/RollingRealtime/RollingRealtime.tsx:61 | every donation in the feed is the new one or was there before |
| RollingRealtime.NewParticle | src/pages/RollingRealtime/RollingRealtime.tsx:22-30 | the clock id, the drawn position, the start height and one of the listed emoji |
| RollingRealtime.ParticlesAfter | src/pages/RollingRealtime/RollingRealtime.tsx:34 | the last twenty particles (all, when fewer) and then the new one |
| RollingRealtime.ParticlesAfterKeeps | src/pages/RollingRealtime/RollingRealtime.tsx:34 | every particle after the tick is the new one or one from before |
| RollingRealtime.SweepKeepsFreshParticles | src/pages/RollingRealtime/RollingRealtime.tsx:26-42 | particles at the start height survive the sweep of any window taller than that height |
| RollingRealtime.LiveBoard.constructor | src/pages/RollingRealtime/RollingRealtime.tsx:16-20 | the seed feed, 185000 raised, 89 donors, no particles, no highlight |
| RollingRealtime.LiveBoard.DonationTick | src/pages/RollingRealtime/RollingRealtime.tsx:48-67 | the feed gains the donation in front; the total rises by its amount and the donor count by one; the donor is highlighted; the feed stays within ten |
| RollingRealtime.LiveBoard.ClearHighlight | src/pages/RollingRealtime/RollingRealtime.tsx:66 | clears the highlight only |
| RollingRealtime.LiveBoard.ParticleTick | src/pages/RollingRealtime/RollingRealtime.tsx:32-38 | the particles after one tick, never more than twenty-one |
| RollingRealtime.LiveBoard.SweepParticles | src/pages/RollingRealtime/RollingRealtime.tsx:40-46 | keeps the particles above the bottom of the window, which in any window taller than the start height is all of them |
| RollingRealtime.LiveBoard.CurrentStats | src/pages/RollingRealtime/RollingRealtime.tsx:72-77 | the average times the donor count is the total, and it is positive: the count never drops below 89 |

## Left out

- **Storage:** browser local storage and JSON are left out. The store is a map from storage key to record sequence. Corrupt stored data is not modelled.
- **Services:** the calling, SMS, e-mail and AI services only log, return canned data or wait (src/services/api.ts:259-335). A send through them is taken to succeed. Drafting a message with the AI service (src/pages/Workspace/Workspace.tsx:110-128) is not modelled. Its result reaches the page only as a draft, which `EditMessage` sets.
- **Nondeterminism:** ids from `generateId` and `Date.now()`, random draws, and the timers and intervals are inputs and tick methods. Nothing is claimed about ids being unique.
- **Dates and times:** time stamps from `toLocaleTimeString` and `toISOString`, and the `Date` start of a call, are input strings or millisecond readings.
- **Numbers:** they are unbounded integers. The donor page's "Avg Donation" is rounded as `Math.round` does, NaN included (`Donors.AverageDonation`). Elsewhere exact rationals stand in for the campaign percentages and progress widths, the campaign average per donor and the live screen's average donation; their `Math.round` is left out. `toLocaleString` and floating-point rounding are left out everywhere. So are the playbook response and conversion rates (src/pages/Playbooks/Playbooks.tsx:60-67), which are fractional.
- **Text:** `toLowerCase` is modelled on ASCII letters only; other letters are kept as they are.
- **Api.Holds:** `Number()` of a text reads only an optional sign followed by decimal digits, after trimming. Every other form reads as NaN in the model, though `Number()` accepts it: fractions ("1.5", ".5", "1."), exponents ("1e3"), the non-decimal prefixes `0x`/`0X` (hexadecimal), `0o`/`0O` (octal) and `0b`/`0B` (binary), and "Infinity" with or without a sign. A between criterion whose value is a single number makes the source throw a TypeError when it destructures the value, which rejects the whole search; the model lets that criterion fail instead. `String()` of anything other than a text, number, array or undefined is left out.
- **Api.ApiService.SearchDonors:** the `default: return true` branch for an unknown operator is not modelled, because the operator datatype has exactly the five operators.
- **Donors.DonorsPage.Save:** in add mode it stores the corrected `Donors.NewDonor` record, whose unfilled text fields are "", not the record the source builds, whose unfilled text fields are undefined (see Findings).
- **Volunteers.VolunteersPage.Save:** in add mode it stores the corrected `Volunteers.NewVolunteer` record, whose unfilled text fields are "", not the record the source builds, whose unfilled text fields are undefined (see Findings).
- **Chatbot reply text:** `processBotCommand` replies are represented by their topic and type, not their emoji-laden text. The chat message time stamp is left out.
- **Chat history:** the assistant's chat state is modelled as its own class, `Workspace.AssistantChat`, beside `Workspace.WorkspacePage`, though the page keeps both in one component. The chat and the rest of the page share no state.
- **Donor lookup:** `Workspace.WorkspacePage` looks donors up in a constant field holding the seed donors. The page imports that list directly.
- **Playbooks.PlaybooksPage.OpenNew:** sets a flag that no dialog reads, since the page has no create form. Editing a playbook and `selectedPlaybook`/`isEditing` are never used by the page either.
- **Rendering:** UI-only behaviour is not modelled: scrolling effects, animation, the SMS panel visibility flag, and `window.confirm` (a boolean input).
- **Other screens:** Metrics, DataBuilder, Settings and the sidebar are not part of this model.
- **Campaigns.GetProgressColor:** for a zero goal the source divides by zero. A positive amount gives Infinity, so success; a zero amount gives NaN, so accent; a negative amount gives -Infinity, so accent. The model writes these cases out; only the positive-goal bands carry a lemma.

## Findings

| source | as written | input that shows it | evidently intended | confidence | as-written member | corrected member |
|---|---|---|---|---|---|---|
| src/pages/Donors/Donors.tsx:50-65 | the add-mode save copies `lastName`, `email`, `phone`, `state` and `city` from the form with a non-null assertion, so fields the user never typed stay undefined | add a donor filling in only the first name "Ann": the new row reads `lastName[0]` of undefined and the list cannot render | unfilled text fields default to "" like the numeric and list fields default to 0 and [] | not executed | Donors.FirstNameOnlyBreaksList | Donors.NewDonor |
| src/pages/Volunteers/Volunteers.tsx:51-63 | the add-mode save copies `lastName`, `email` and `phone` with a non-null assertion, so fields the user never typed stay undefined | add a volunteer filling in only the first name "Ann": the row reads `lastName[0]` of undefined | unfilled text fields default to "" | not executed | Volunteers.FirstNameOnlyBreaksList | Volunteers.NewVolunteer |

The pages in this model use the corrected constructors. `Donors.NewDonorAgrees`
and `Volunteers.NewVolunteerAgrees` show that the corrected record is the one
the page builds whenever the form is fully filled in.

The particle sweep (src/pages/RollingRealtime/RollingRealtime.tsx:40-46)
removes nothing in practice. Particles are created at height -50 and only their
animation moves; their state does not. `RollingRealtime.LiveBoard.SweepParticles`
states this. It is harmless, because the particle tick bounds the list anyway,
so it is not listed above as a defect.
