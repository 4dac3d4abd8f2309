# Helpdesk ticket lifecycle, modelled in Dafny

This project models the ticket-lifecycle core of a small helpdesk web application. End users open
tickets in a category. Technicians and administrators assign them, move them through the statuses
`open`, `in_progress`, `waiting_user`, `resolved` and `closed`, comment on them, and keep internal
notes. Each ticket carries an SLA deadline derived from its category's hour budget. The model covers:

- the SLA and label helpers (`Helpers`);
- the in-memory store with its create, update and append operations (`Store`, a class whose
  `seq` fields the methods reassign);
- the handlers that change a ticket from its detail page (`TicketDetail`);
- ticket creation (`NewTicketForm`);
- the aggregations and views built over the ticket list: dashboard statistics and role views
  (`Dashboard`, `TicketCounts`), the SLA panel (`SlaStatus`), the per-category bars
  (`TicketsByCategory`), the report page with its date filter, statistics and CSV export
  (`Reports`), the searchable list (`TicketList`), the five most recent tickets (`RecentTickets`),
  the role-based ticket list and selection (`TicketManagement`), and the role-based side menu
  (`Sidebar`).

Time is an integer number of milliseconds. The current instant, fresh ids and the date formatter
are parameters. Fractional values such as percentages and averages are Dafny `real`s.
`Seqs.Filter` stands for JavaScript's `Array.prototype.filter`. Both the searchable list and the
recent-tickets panel sort with `Array.prototype.sort`, which is stable. `TicketList.SortNewestFirst`
models it as a stable insertion sort, newest `createdAt` first, and `RecentTickets.SortInPlace`
performs that sort on an array in place.

Points where the code behaves in ways a reader might not expect, which the model keeps:

- The status-update guard tests only the assignee selected in the form
  (`src/components/Tickets/TicketDetail.tsx:99`), not the ticket's stored assignee. A ticket that
  already has an assignee is rejected when the selection is cleared and the new status is not `open`.
- `addTimelineEntry` and `addInternalComment` add only an id to what they are given
  (`src/utils/api.ts:95-98`, `src/utils/api.ts:109-112`). The handlers in `TicketDetail.tsx` pass
  no `createdAt`, so timeline entries and internal comments carry no creation instant.
- The dashboard's per-category tally has one key for every category it is given
  (`src/components/Dashboard/Dashboard.tsx:55-57`). Those categories come from `getCategories`,
  which returns only the active ones.
- The CSV export doubles quotes only in the title; category and user names are quoted as they are,
  so a name containing `"` breaks its cell (`Reports.UnescapedNameBreaks`).

## Model

| member | source | states |
|---|---|---|
| Types.ParsePriority | src/types/index.ts:13-29 | a priority code parsed back names the code it was read from |
| Types.ParseStatus | src/types/index.ts:13-29 | a status code parsed back names the code it was read from |
| Types.PriorityCodeRoundTrip | src/types/index.ts:13-29 | every priority's wire code parses back to that priority |
| Types.StatusCodeRoundTrip | src/types/index.ts:13-29 | every status's wire code parses back to that status |
| Types.UserIndex | src/utils/api.ts:44-46 | `findIndex` by id: the first user with that id, or none when no user has it |
| Types.FindUser | src/utils/api.ts:29-31 | `find` by id: present exactly when an index exists, and it is the user at that first index |
| Types.TicketIndex | src/utils/api.ts:77-79 | the first ticket with the id, or none when no ticket has it |
| Types.FindTicket | src/utils/api.ts:59-61 | the ticket at the first matching index, absent exactly when no ticket has the id |
| Types.CategoryIndex | src/utils/api.ts:135-137 | the first category with the id, or none when no category has it |
| Types.FindCategory | src/components/Tickets/NewTicketForm.tsx:34 | the category at the first matching index, absent exactly when none has the id |
| Types.SameIdsSameIndex | src/utils/api.ts:77-79 | lookups by id depend only on the sequence of ids, so rewriting tickets in place keeps every index |
| Helpers.PriorityColor | src/utils/helpers.ts:22-30 | an unknown priority code gets the gray class; each of the four known codes gets a class other than gray |
| Helpers.StatusColor | src/utils/helpers.ts:32-41 | the gray class is returned exactly for an unknown status code or `closed` |
| Helpers.PriorityLabel | src/utils/helpers.ts:43-51 | an unknown code is returned unchanged; a known code gets a label different from the code |
| Helpers.StatusLabel | src/utils/helpers.ts:53-62 | an unknown code is returned unchanged; a known code gets a label different from the code |
| Helpers.PriorityLabelInjective | src/utils/helpers.ts:43-51 | two priorities share a label only if they are the same priority |
| Helpers.StatusLabelInjective | src/utils/helpers.ts:53-62 | two statuses share a label only if they are the same status |
| Helpers.SlaDeadline | src/utils/helpers.ts:64-68 | the deadline lies exactly `hours` × 3 600 000 ms after creation |
| Helpers.Classify | src/utils/helpers.ts:70-81 | overdue iff now is strictly past the deadline; near iff 0 < deadline − now ≤ 2 h; on time otherwise (including exactly at the deadline) |
| Helpers.OverdueExcludesNear | src/utils/helpers.ts:70-81 | no instant is both overdue and near the deadline |
| Helpers.OverdueExcludesLaterNear | src/utils/helpers.ts:70-81 | once a deadline is overdue it is never near again at any later instant |
| Helpers.RoundHalfUp | src/utils/helpers.ts:88 | `Math.round`: the result is within half a unit of the input, halves rounding up |
| Helpers.ResolutionTime | src/utils/helpers.ts:83-89 | 0 without `resolvedAt`; otherwise the elapsed time in hours rounded to the nearest whole hour |
| Helpers.DeadlineExample | src/utils/helpers.ts:64-81 | a 24 h ticket created at midnight is near its deadline one hour before, overdue one hour after, and on time exactly at the deadline |
| Store.NewUser | src/utils/api.ts:33-38 | the new user is the draft plus the fresh id and creation instant |
| Store.NewTicket | src/utils/api.ts:63-71 | the new ticket is the draft plus the fresh id, empty timeline and comments, and `createdAt == updatedAt == now` |
| Store.NewCategory | src/utils/api.ts:124-129 | the new category is the draft plus the fresh id and creation instant |
| Store.NewEntry | src/utils/api.ts:95-98 | the new timeline entry is the draft plus the fresh id |
| Store.NewComment | src/utils/api.ts:109-112 | the new internal comment is the draft plus the fresh id |
| Store.UpdatedTicket | src/utils/api.ts:80-84 | the merged ticket always carries the update instant as `updatedAt`; its timeline is the patch's or the old one |
| Store.MergeTicketIdempotent | src/utils/api.ts:80-84 | merging the same patch twice gives the same ticket as merging it once |
| Store.EmptyUpdateOnlyRestamps | src/utils/api.ts:80-84 | an update with no fields changes nothing but `updatedAt` |
| Store.UpdateOverridesUpdatedAt | src/utils/api.ts:80-84 | an `updatedAt` supplied in the patch is overridden by the update instant |
| Store.TicketsAfterUpdate | src/utils/api.ts:77-89 | updating keeps the number of tickets |
| Store.TicketsAfterEntry | src/utils/api.ts:91-103 | appending an entry keeps the number of tickets |
| Store.TicketsAfterComment | src/utils/api.ts:105-117 | appending a comment keeps the number of tickets |
| Store.UpdateTouchesOnlyFirstMatch | src/utils/api.ts:77-89 | an unknown id leaves the tickets unchanged; a known id replaces only the first ticket with that id by the merge |
| Store.EntryAppendsOnlyToMatch | src/utils/api.ts:91-103 | the first matching ticket's timeline grows by the entry at its end; every other ticket and all other fields stay unchanged |
| Store.CommentAppendsOnlyToMatch | src/utils/api.ts:105-117 | the first matching ticket's comments grow by the comment at the end; no ticket's timeline changes |
| Store.ActiveCategories | src/utils/api.ts:120-122 | exactly the active categories are kept |
| Store.SlaConfigIndex | src/utils/api.ts:150-151 | SLA configurations are looked up by priority code, not by id; the first match wins |
| Store.Store.constructor | src/utils/api.ts:7-12 | the store starts from the given collections |
| Store.Store.GetUsers | src/utils/api.ts:25-27 | returns the stored users |
| Store.Store.GetUserById | src/utils/api.ts:29-31 | returns the first user with the id, or none when no user has it |
| Store.Store.CreateUser | src/utils/api.ts:33-42 | appends exactly one user, built from the draft, id and instant; the other collections are unchanged |
| Store.Store.UpdateUser | src/utils/api.ts:44-52 | an unknown id returns nothing and changes nothing; otherwise the first match is merged and returned |
| Store.Store.GetTickets | src/utils/api.ts:55-57 | returns the stored tickets |
| Store.Store.GetTicketById | src/utils/api.ts:59-61 | returns the first ticket with the id, or none when no ticket has it |
| Store.Store.CreateTicket | src/utils/api.ts:63-75 | appends exactly one ticket at the end, with empty logs and equal creation and update instants; nothing else changes |
| Store.Store.UpdateTicket | src/utils/api.ts:77-89 | the tickets become the update of the first match; the result is present iff the id is known and is the stored ticket |
| Store.Store.AddTimelineEntry | src/utils/api.ts:91-103 | fails without a change when no ticket has the id; otherwise appends exactly the returned entry to the first match's timeline |
| Store.Store.AddInternalComment | src/utils/api.ts:105-117 | fails without a change when no ticket has the id; otherwise appends exactly the returned comment to the first match's comments |
| Store.Store.GetCategories | src/utils/api.ts:120-122 | returns only the active categories, in stored order |
| Store.Store.CreateCategory | src/utils/api.ts:124-133 | appends exactly one category, built from the draft, id and instant |
| Store.Store.UpdateCategory | src/utils/api.ts:135-143 | an unknown id returns nothing and changes nothing; otherwise the first match is merged and returned |
| Store.Store.GetSlaConfig | src/utils/api.ts:146-148 | returns the stored SLA configurations |
| Store.Store.UpdateSlaConfig | src/utils/api.ts:150-158 | an unknown priority returns nothing and changes nothing; otherwise the first configuration with that priority is merged and returned |
| TicketDetail.CapabilityRules | src/components/Tickets/TicketDetail.tsx:71-72 | whoever may assign may edit; an end user may edit exactly their own ticket and never assign; nobody logged out may do either |
| TicketDetail.AppendEntries | src/components/Tickets/TicketDetail.tsx:116-135 | appending several entries keeps the number of tickets |
| TicketDetail.EntryKeepsIndex | src/utils/api.ts:92-100 | appending an entry never moves any ticket's index |
| TicketDetail.AppendEntriesEffect | src/components/Tickets/TicketDetail.tsx:116-135 | the entries land, in order, at the end of the first matching ticket's timeline and nowhere else |
| TicketDetail.StatusUpdateGuard | src/components/Tickets/TicketDetail.tsx:95-102 | the update is rejected iff the actor cannot edit, or the new status is not `open` and no assignee is selected |
| TicketDetail.StatusUpdateFields | src/components/Tickets/TicketDetail.tsx:109-114 | an accepted update sets status and priority; `resolvedAt` becomes now only for `resolved` and is kept otherwise; an empty selection unassigns |
| TicketDetail.StatusUpdateEntries | src/components/Tickets/TicketDetail.tsx:106-135 | a status entry iff the status changed, then an assignment entry iff the selection changed and is not empty, in that order |
| TicketDetail.HandleStatusUpdate | src/components/Tickets/TicketDetail.tsx:94-143 | a rejected plan changes nothing; an accepted one updates the ticket and appends exactly the planned entries; other collections are unchanged |
| TicketDetail.AppendOneMore | src/components/Tickets/TicketDetail.tsx:116-135 | appending one more entry after a batch is appending the longer batch |
| TicketDetail.AppendKeepsIndex | src/components/Tickets/TicketDetail.tsx:116-135 | appending entries keeps the ticket findable at the same index |
| TicketDetail.StatusUpdateEffect | src/components/Tickets/TicketDetail.tsx:94-135 | after an accepted update the stored ticket has the new fields and its old timeline followed by the planned entries |
| TicketDetail.HandleAddComment | src/components/Tickets/TicketDetail.tsx:145-165 | a blank text or no actor changes nothing; otherwise exactly one comment entry by the actor is appended |
| TicketDetail.HandleAddInternalComment | src/components/Tickets/TicketDetail.tsx:167-186 | a blank text, no actor or an end user changes nothing; otherwise exactly one internal comment is appended |
| TicketDetail.HandleTimerToggle | src/components/Tickets/TicketDetail.tsx:188-232 | the timer toggles only for staff on an assigned ticket; starting it on a ticket not yet in progress moves it to `in_progress` and logs one status entry, and nothing changes otherwise |
| TicketDetail.StartWorkEffect | src/components/Tickets/TicketDetail.tsx:205-218 | starting work leaves the ticket in progress, with its priority and assignee kept, and one status entry appended |
| TicketDetail.SplitTimer | src/components/Tickets/TicketDetail.tsx:65-67 | hours, minutes and seconds recombine to the input, with minutes and seconds below 60 |
| TicketDetail.Decimal | src/components/Tickets/TicketDetail.tsx:68 | a non-empty run of digits, one digit long exactly for values below 10 |
| TicketDetail.DecimalRoundTrip | src/components/Tickets/TicketDetail.tsx:68 | reading back a number's decimal digits gives the number |
| TicketDetail.LeadingZero | src/components/Tickets/TicketDetail.tsx:68 | a leading zero added by padding does not change the value |
| TicketDetail.PadStart2 | src/components/Tickets/TicketDetail.tsx:68 | padding yields at least two characters and keeps longer strings' length |
| TicketDetail.FormatTimer | src/components/Tickets/TicketDetail.tsx:64-69 | the text is `h:mm:ss`, each part at least two digits (eight characters below 100 hours), and its fields read as the whole hours, the minutes below 60 and the seconds below 60 of the elapsed time |
| TicketDetail.PaddedValue | src/components/Tickets/TicketDetail.tsx:68 | a padded number is still all digits and reads back as the number |
| TicketDetail.TimerFields | src/components/Tickets/TicketDetail.tsx:68 | the three parts can be cut back out of the joined text |
| TicketDetail.FormatTimerRoundTrip | src/components/Tickets/TicketDetail.tsx:64-69 | the displayed timer reads back as the exact number of seconds |
| NewTicketForm.SlaHoursFor | src/components/Tickets/NewTicketForm.tsx:34-35 | the category's hours, or 24 when the category is missing or its hours are 0; never 0 |
| NewTicketForm.SubmittedTicketFields | src/components/Tickets/NewTicketForm.tsx:37-43 | the submitted ticket is open, unassigned and unresolved, belongs to the requester, has the form's fields and attachments and empty logs, and is due the SLA hours after submission, exactly one day later when the category is not found |
| NewTicketForm.SubmittedDeadlineInFuture | src/components/Tickets/NewTicketForm.tsx:34-43 | with non-negative category hours the new ticket's deadline lies after its creation |
| NewTicketForm.HandleSubmit | src/components/Tickets/NewTicketForm.tsx:26-52 | without a requester or a category nothing is created; otherwise exactly one ticket with the submitted fields is appended |
| NewTicketForm.EnabledSubmitHasCategory | src/components/Tickets/NewTicketForm.tsx:16-21 | an enabled submit button implies a title and a category; the initial empty form cannot be submitted |
| NewTicketForm.AddFiles | src/components/Tickets/NewTicketForm.tsx:54-58 | the new file names follow the existing attachments, in order |
| NewTicketForm.RemoveFrom | src/components/Tickets/NewTicketForm.tsx:179 | the suffix from a position, without the element at the given index when that index lies in it |
| NewTicketForm.RemoveAttachment | src/components/Tickets/NewTicketForm.tsx:179 | removing a valid index drops exactly that attachment and keeps the rest in order; an invalid index changes nothing |
| NewTicketForm.RemoveUndoesAdd | src/components/Tickets/NewTicketForm.tsx:54-58 | removing a file just added restores the previous attachments |
| TicketCounts.WithStatus | src/components/Dashboard/Dashboard.tsx:37-41 | exactly the tickets of the list that have the status: every kept ticket has it and comes from the list, and every ticket with it is kept |
| TicketCounts.WithPriority | src/components/Dashboard/Dashboard.tsx:60-65 | exactly the tickets of the list that have the priority, both directions |
| TicketCounts.InCategory | src/components/Dashboard/Dashboard.tsx:56 | exactly the tickets of the list whose category is the id, both directions |
| TicketCounts.AssignedTo | src/components/Dashboard/Dashboard.tsx:70 | exactly the tickets of the list assigned to the user, both directions |
| TicketCounts.WithResolvedAt | src/components/Dashboard/Dashboard.tsx:44 | exactly the tickets of the list that have a resolution instant, both directions |
| TicketCounts.Technicians | src/components/Dashboard/Dashboard.tsx:69 | exactly the users whose role is technician |
| TicketCounts.StatusPartition | src/components/Dashboard/Dashboard.tsx:37-41 | the five status counts add up to the number of tickets |
| TicketCounts.PriorityPartition | src/components/Dashboard/Dashboard.tsx:60-65 | the four priority counts add up to the number of tickets |
| Dashboard.AverageResolutionHours | src/components/Dashboard/Dashboard.tsx:44-79 | 0 when no ticket has been resolved; otherwise the exact mean resolution time in hours rounded to the nearest whole hour |
| Dashboard.TotalOfUniform | src/components/Dashboard/Dashboard.tsx:47-49 | tickets that each took the same time sum to that time times their number |
| Dashboard.AverageOfUniform | src/components/Dashboard/Dashboard.tsx:44-51 | when every resolved ticket took exactly k hours the average is k |
| Dashboard.MeanOfUniform | src/components/Dashboard/Dashboard.tsx:47-50 | n equal durations of k hours average to k hours |
| Dashboard.TallyKeys | src/components/Dashboard/Dashboard.tsx:54-57 | the tally has a key exactly for each name in the list, zero counts included |
| Dashboard.TallyValues | src/components/Dashboard/Dashboard.tsx:54-57 | a name's value is the count for the last entry carrying that name, so a later duplicate overwrites an earlier one |
| Dashboard.Tally | src/components/Dashboard/Dashboard.tsx:54-57 | the `forEach` loop writes the dictionary `TallySpec` defines: one key per name, the last name's count winning |
| Dashboard.CategoryKeys | src/components/Dashboard/Dashboard.tsx:55-56 | one key per category, named by its name and counted by its id |
| Dashboard.TechnicianKeys | src/components/Dashboard/Dashboard.tsx:69-70 | one key per technician, named by their name and counted by their id |
| Dashboard.PriorityTally | src/components/Dashboard/Dashboard.tsx:60-65 | the keys are exactly low, medium, high and critical, and their values sum to the number of tickets |
| Dashboard.ComputeStats | src/components/Dashboard/Dashboard.tsx:37-71 | total, per-status counts (waiting tickets only in the total), the average, and the category, priority and technician tallies |
| Dashboard.UserTickets | src/components/Dashboard/Dashboard.tsx:101-103 | an end user gets exactly their own tickets, each drawn from the list; everyone else gets them all |
| Dashboard.AssignedTickets | src/components/Dashboard/Dashboard.tsx:105-107 | a technician gets exactly the tickets assigned to them, each drawn from the list; every other role gets none |
| Dashboard.PanelTickets | src/components/Dashboard/Dashboard.tsx:137-141 | the list handed to the recent-tickets and SLA panels: for a technician exactly the tickets assigned to them, for an end user exactly their own, each drawn from the list; everyone else gets every ticket |
| Dashboard.PanelsFollowRole | src/components/Dashboard/Dashboard.tsx:136-160 | the recent-tickets panel shows only tickets of the panel list, so a technician sees only tickets assigned to them and an end user only their own; the SLA cards add up to the panel list's active tickets, which for a technician are exactly their active assigned tickets |
| Dashboard.ShownStats | src/components/Dashboard/Dashboard.tsx:126-132 | for an end user total, open, in-progress and resolved are recounted over their own tickets while the closed count, the average and the three tallies stay as in the global statistics; others see the global statistics |
| Dashboard.ShownCountsWithinOwn | src/components/Dashboard/Dashboard.tsx:126-132 | an end user's recounted figures never exceed their own total |
| Dashboard.EmptyDashboard | src/components/Dashboard/Dashboard.tsx:37-71 | with no tickets the average is 0 and every tally (priority, category and technician) is zero-filled |
| Dashboard.EmptyTally | src/components/Dashboard/Dashboard.tsx:54-57 | with no tickets every key of a tally counts 0 |
| SlaStatus.ActiveTickets | src/components/Dashboard/SLAStatus.tsx:11 | exactly the tickets that are neither closed nor resolved |
| SlaStatus.InState | src/components/Dashboard/SLAStatus.tsx:13-15 | exactly the tickets of the list whose deadline is in the SLA state at that instant, both directions |
| SlaStatus.StatePartition | src/components/Dashboard/SLAStatus.tsx:13-15 | overdue, near and on-time tickets add up to all tickets |
| SlaStatus.SlaBuckets | src/components/Dashboard/SLAStatus.tsx:13-42 | three buckets in the order overdue, near, on time; the first two count the active tickets that are overdue or near; the on-time count is the rest, is never negative, and the three add up to the active tickets |
| SlaStatus.SameStateCounts | src/components/Dashboard/SLAStatus.tsx:13-14 | counting by the overdue or near predicate equals counting by the classification |
| SlaStatus.NoActiveNoBuckets | src/components/Dashboard/SLAStatus.tsx:11-15 | when every ticket is closed or resolved all three buckets are empty |
| TicketsByCategory.CategoryData | src/components/Dashboard/TicketsByCategory.tsx:11-19 | every bar has a positive count and is the share of some category; every category with tickets has its bar |
| TicketsByCategory.Shares | src/components/Dashboard/TicketsByCategory.tsx:11-18 | one share per category, in the category list's order |
| TicketsByCategory.CategoryDataKeepsOrder | src/components/Dashboard/TicketsByCategory.tsx:11-19 | the bars are exactly the shares with tickets, in the order of the category list |
| TicketsByCategory.SharePercentages | src/components/Dashboard/TicketsByCategory.tsx:17 | each bar's percentage is its count over all tickets times 100, in (0, 100] |
| TicketsByCategory.RatioAtMostOne | src/components/Dashboard/TicketsByCategory.tsx:17 | a positive part of a total is a percentage in (0, 100] |
| TicketsByCategory.DroppingEmptyKeepsTotal | src/components/Dashboard/TicketsByCategory.tsx:19 | dropping empty categories does not change the sum of counts |
| TicketsByCategory.CountInCons | src/components/Dashboard/TicketsByCategory.tsx:12 | one more ticket adds one count per category carrying its category id |
| TicketsByCategory.MatchingNone | src/components/Dashboard/TicketsByCategory.tsx:12 | an id no category carries is counted by none |
| TicketsByCategory.MatchingAtMostOne | src/components/Dashboard/TicketsByCategory.tsx:12 | with distinct ids a ticket matches at most one category |
| TicketsByCategory.CategoryCountsBounded | src/components/Dashboard/TicketsByCategory.tsx:11-19 | with distinct category ids the bars' counts add up to at most the number of tickets |
| TicketsByCategory.CountInBounded | src/components/Dashboard/TicketsByCategory.tsx:11-12 | with distinct ids the per-category counts add up to at most the number of tickets |
| TicketsByCategory.NoTicketsNoCount | src/components/Dashboard/TicketsByCategory.tsx:12 | no tickets, no counts |
| Reports.DayStart | src/components/Reports/Reports.tsx:39 | the start of the day that contains the instant (UTC) |
| Reports.Oldest | src/components/Reports/Reports.tsx:34-36 | the first ticket with the smallest creation instant |
| Reports.DefaultStart | src/components/Reports/Reports.tsx:33-46 | with tickets, the midnight starting the oldest ticket's day: a day boundary no later than any ticket, with some ticket created within that day; with none, the day 30 days before now |
| Reports.FilteredTickets | src/components/Reports/Reports.tsx:57-66 | nothing is kept while the start is unset; otherwise exactly the tickets created between the start and the end of the end day |
| Reports.LoadedRangeKeepsAll | src/components/Reports/Reports.tsx:13-66 | with the default range every ticket created up to now is kept, in order |
| Reports.CategoryBars | src/components/Reports/Reports.tsx:80-84 | one bar per category, counting its tickets |
| Reports.TechnicianBars | src/components/Reports/Reports.tsx:93-97 | one bar per technician, counting the tickets assigned to them |
| Reports.PriorityBars | src/components/Reports/Reports.tsx:86-91 | four bars counting low, medium, high and critical, summing to the number of tickets |
| Reports.StatusBars | src/components/Reports/Reports.tsx:99-105 | five bars counting each status, summing to the number of tickets |
| Reports.BarTotalUnfold | src/components/Reports/Reports.tsx:86-105 | the total of four or five bars is the sum of their counts |
| Reports.GenerateStats | src/components/Reports/Reports.tsx:68-117 | resolved never exceed the total; the rate is resolved over total in percent, 0 without tickets, always in [0, 100]; the priority and status bars are PriorityBars and StatusBars of the filtered tickets (four and five named bars, each with its count) and total the number of tickets; the category and technician bars are CategoryBars and TechnicianBars |
| Reports.RateBounds | src/components/Reports/Reports.tsx:71 | a part of a total is a percentage in [0, 100] |
| Reports.TotalHoursBounds | src/components/Reports/Reports.tsx:75-77 | a sum of resolution hours lies between the count times the smallest and the largest |
| Reports.StepBounds | src/components/Reports/Reports.tsx:75-77 | adding one value within bounds keeps the running sum within bounds |
| Reports.AverageWithinBounds | src/components/Reports/Reports.tsx:73-78 | the average resolution time lies between the smallest and largest resolution time |
| Reports.MeanWithin | src/components/Reports/Reports.tsx:77 | a mean lies between the bounds of what was summed |
| Reports.EscapeQuotes | src/components/Reports/Reports.tsx:158 | doubling quotes never shortens the title |
| Reports.ReadQuotedBody | src/components/Reports/Reports.tsx:158 | reading a quoted field consumes at least its closing quote |
| Reports.TitleCellRoundTrip | src/components/Reports/Reports.tsx:158 | an RFC 4180 reader reads the escaped, quoted title back as the original title, whatever it contains |
| Reports.EscapedBodyRoundTrip | src/components/Reports/Reports.tsx:158 | the doubled-quote body reads back up to its closing quote |
| Reports.UnescapedNameBreaks | src/components/Reports/Reports.tsx:161-162 | a category or user name containing a quote, quoted without escaping, does not read back as itself |
| Reports.Split | src/components/Reports/Reports.tsx:167 | splitting always yields at least one line |
| Reports.SplitPlain | src/components/Reports/Reports.tsx:167 | a text without the separator splits into itself |
| Reports.SplitAfterPlain | src/components/Reports/Reports.tsx:167 | splitting peels off the text before the first separator |
| Reports.SplitJoin | src/components/Reports/Reports.tsx:151-167 | joining pieces free of the separator and splitting again gives the pieces back |
| Reports.HeaderIsOneLine | src/components/Reports/Reports.tsx:151 | the header line has no line break |
| Reports.JoinAvoids | src/components/Reports/Reports.tsx:165-167 | joining pieces that lack a character, with another separator, yields text without it |
| Reports.CsvCells | src/components/Reports/Reports.tsx:156-165 | eight cells; the resolved cell is empty exactly when there is no resolution instant or it formats to nothing |
| Reports.CsvRows | src/components/Reports/Reports.tsx:152-166 | one row per filtered ticket, in order |
| Reports.CsvLines | src/components/Reports/Reports.tsx:149-167 | when no row contains a line break, the file splits into the header followed by exactly one row per ticket |
| Reports.LinesRoundTrip | src/components/Reports/Reports.tsx:167 | single-line header and rows joined by line breaks split back into themselves |
| TicketList.UserName | src/components/Tickets/TicketList.tsx:19-22 | as `user?.name` with the fallback text: a user that is not found, or found with an empty name, maps to the not-found text; otherwise to their name (the recent-tickets list uses the same lookup, at src/components/Dashboard/RecentTickets.tsx lines 17 to 20) |
| TicketList.CategoryName | src/components/Tickets/TicketList.tsx:24-27 | a category that is not found, or found with an empty name, maps to the not-found text; otherwise to its name |
| TicketList.LowerChar | src/components/Tickets/TicketList.tsx:30-32 | ASCII capitals move to lower case and characters outside the Latin-1 capitals stay unchanged |
| TicketList.Lower | src/components/Tickets/TicketList.tsx:30-32 | lower-cases character by character, keeping the length |
| TicketList.LowerIdempotent | src/components/Tickets/TicketList.tsx:30-32 | lower-casing twice is lower-casing once |
| TicketList.ContainsFrom | src/components/Tickets/TicketList.tsx:30-32 | true iff the needle occurs at or after the position |
| TicketList.Contains | src/components/Tickets/TicketList.tsx:30-32 | `includes`: true iff the needle occurs somewhere; the empty needle always occurs |
| TicketList.SearchProperties | src/components/Tickets/TicketList.tsx:30-32 | an empty term matches every ticket, and the search ignores the term's case |
| TicketList.InsertPermutes | src/components/Tickets/TicketList.tsx:38 | inserting adds exactly the one ticket |
| TicketList.InsertSorted | src/components/Tickets/TicketList.tsx:38 | inserting into a newest-first list keeps it newest first |
| TicketList.SortProperties | src/components/Tickets/TicketList.tsx:38 | the sort yields a newest-first permutation of its input |
| TicketList.SortLength | src/components/Tickets/TicketList.tsx:38 | the sort keeps the length |
| TicketList.InsertLength | src/components/Tickets/TicketList.tsx:38 | inserting adds one to the length |
| TicketList.InsertOldest | src/components/Tickets/TicketList.tsx:38 | a ticket no newer than all others goes to the end, so ties keep their order |
| TicketList.SortKeepsSorted | src/components/Tickets/TicketList.tsx:38 | an already newest-first list is left as it is |
| TicketList.SortKeepsMembers | src/components/Tickets/TicketList.tsx:38 | the sort keeps exactly the same tickets |
| TicketList.FilteredTickets | src/components/Tickets/TicketList.tsx:29-38 | newest first, exactly the tickets passing search, status and priority, each as often as in the input |
| TicketList.NoFilterListsAll | src/components/Tickets/TicketList.tsx:29-38 | an empty search with both filters on `all` lists every ticket |
| RecentTickets.Recent | src/components/Dashboard/RecentTickets.tsx:13-15 | at most five tickets, fewer only when there are fewer |
| RecentTickets.RecentAreNewest | src/components/Dashboard/RecentTickets.tsx:13-15 | the shown tickets are newest first, drawn from the input, and no ticket left out is newer than any shown |
| RecentTickets.InsertAt | src/components/Dashboard/RecentTickets.tsx:14 | the insertion point found by the scan is where the stable insertion puts the ticket |
| RecentTickets.PictureParts | src/components/Dashboard/RecentTickets.tsx:14 | the array mid-insertion is the sorted prefix with a gap, then the untouched rest |
| RecentTickets.SwapLeft | src/components/Dashboard/RecentTickets.tsx:14 | one swap moves the inserted ticket one place left |
| RecentTickets.Swap | src/components/Dashboard/RecentTickets.tsx:14 | exchanges two cells of the array and nothing else |
| RecentTickets.ShiftLeft | src/components/Dashboard/RecentTickets.tsx:14 | moves a ticket left past every strictly older one and stops at the first that is no older |
| RecentTickets.InsertStep | src/components/Dashboard/RecentTickets.tsx:14 | the sorted prefix grows by one element, inserted stably; the rest of the array is untouched |
| RecentTickets.SortInPlace | src/components/Dashboard/RecentTickets.tsx:13-14 | the caller's array is reordered in place into the stable newest-first sort of its old contents |
| RecentTickets.RecentTickets | src/components/Dashboard/RecentTickets.tsx:13-15 | sorts the array in place and returns its first five tickets |
| TicketManagement.VisibleTickets | src/components/Tickets/TicketManagement.tsx:62-67 | exactly the visible tickets; for administrators and when logged out, the whole list unchanged |
| TicketManagement.VisibilityByRole | src/components/Tickets/TicketManagement.tsx:63-67 | an end user sees exactly their own tickets; a technician those assigned to them or to nobody; an administrator all |
| TicketManagement.VisibleKeepsOrder | src/components/Tickets/TicketManagement.tsx:62-67 | filtering preserves the order of the original list |
| TicketManagement.SelectedView | src/components/Tickets/TicketManagement.tsx:69-82 | the detail view opens iff a non-empty selected id is found in the full list; otherwise the list is shown |
| Sidebar.MenuItems | src/components/Layout/Sidebar.tsx:23-35 | dashboard then tickets always; users and technicians iff the role is not end user (also when logged out); reports, categories and settings iff administrator |
| Sidebar.ItemIds | src/components/Layout/Sidebar.tsx:23-35 | every item is one of the ids its role is entitled to |
| Sidebar.MenuSizes | src/components/Layout/Sidebar.tsx:23-35 | the menu has 2 items for an end user, 4 for a technician or when logged out, and 7 for an administrator |
| Seqs.IndexFrom | src/utils/api.ts:45 | the first index at or after the start whose element satisfies the test, or none when no later element does |
| Seqs.IndexOf | src/utils/api.ts:45 | `findIndex`: the first index whose element satisfies the test, or none |
| Seqs.FilterConcat | src/components/Tickets/TicketManagement.tsx:64-66 | filtering a concatenation is concatenating the filtered parts, so `filter` never reorders |
| Seqs.FilterAll | src/components/Tickets/TicketManagement.tsx:67 | a filter every element passes keeps the whole list |
| Seqs.FilterNone | src/components/Reports/Reports.tsx:58 | a filter no element passes keeps nothing |
| Seqs.FilterComplement | src/components/Dashboard/SLAStatus.tsx:13-15 | a filter and its negation split the list |
| Seqs.FilterFilter | src/components/Tickets/TicketList.tsx:29-37 | filtering twice is filtering by both conditions at once |

## Left out

- Persistence: the store is loaded from and saved to `localStorage` (`src/utils/api.ts:8-22`); saving is a no-op here and the initial data is a constructor argument.
- The Express/Firestore backend (`functions/src/index.ts`) and seeding (`backend/src/seed.ts`) are not part of this model; its `arrayUnion` deduplicates appended entries, while this store appends with `push` semantics as `src/utils/api.ts` does.
- Random ids (`Math.random`) and the wall clock (`new Date()`) are parameters; ids are not guaranteed fresh or distinct.
- Separate clock reads are modelled as one `now`: `createTicket`'s two reads for `createdAt` and `updatedAt` (`src/utils/api.ts:69-70`, `Store.NewTicket`); the form's earlier read for the SLA deadline (`src/components/Tickets/NewTicketForm.tsx:42`, `NewTicketForm.SubmittedDraft`), so `slaDeadline` is computed from the same instant as `createdAt`; each handler's `updatedAt` stamp and `resolvedAt`; the SLA panel, whose predicates read `new Date()` once per ticket (`SlaStatus.SlaBuckets`); and the reports page, whose end date is set at mount and whose default start uses `Date.now()` after loading (`Reports.LoadedRange`).
- Timestamps are UTC milliseconds: `setHours` on local time, daylight-saving shifts, ISO date parsing and `toLocaleDateString` are out of scope; `formatDate` is a parameter of the CSV functions.
- Fractional SLA hours: `slaHours` is an integer.
- The colour and label lookups index a plain object, so a code naming an inherited property (`constructor`, `toString`) returns that property in the source; the model treats every code outside the enums as unknown.
- Floating point: percentages, rates and averages are exact reals; `toFixed`, chart widths and the floating-point rounding of `Math.round` are not modelled.
- TicketList.LowerChar: lower-cases ASCII and the Latin-1 capitals only; `toLowerCase` over the rest of Unicode is not modelled.
- RecentTickets.SortInPlace: the source sorts the dashboard's state array, which other panels share; the model sorts the array it is given and does not model that aliasing.
- Sorting by an unparsable `createdAt` (a `NaN` comparator) is not modelled; creation instants are integers.
- The arrays the getters return alias the store's arrays in the source; the model returns copies of the `seq` values.
- `handleDeleteTicket` (`src/components/Tickets/TicketDetail.tsx:75-92`) calls `deleteTicket`, which `src/utils/api.ts` does not define; it is left out together with `window.confirm` and `alert`.
- The timer's `setInterval` ticking, React state setters, effects, `onUpdate` reloading, and the loading flags are UI behaviour.
- Errors thrown by the store inside a handler are caught and logged by the source; the model stops the handler at the first failing store call, keeping what was already written.
- PDF export, the Blob download, the byte-order mark before the CSV, and XLSX import are foreign-library I/O.
- The form and management pages (user, technician and category forms, settings, login, header, charts) are view wiring outside this model.
