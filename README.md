# CareBridge client data core, in Dafny

This project models the client-side data layer of CareBridge, a healthcare
administration front end written in TypeScript and React. It covers:

- the `useHealthcare` store (`src/hooks/use-healthcare.ts`): four record
  collections with add, update and delete; search, filter and sort
  pipelines; pagination; and dashboard statistics;
- the helpers of `src/lib/utils.ts`: phone formatting and validation, email
  validation, search, sort by date, `groupBy`, truncation, initials, BMI
  category, colour switches, and relative-time texts;
- the seed data and lookups of `src/lib/data.ts`;
- the thread list of the messages page (`src/pages/Messages.tsx`);
- the day view of the appointments page (`src/pages/Appointments.tsx`);
- the record construction and form reset of the add-patient and add-doctor
  dialogs.

Modules:

| file | module | models |
|---|---|---|
| `wrappers.dfy` | `Wrappers` | `Option` |
| `seqs.dfy` | `Seqs` | `filter`, `map`, `find`, `findIndex`, `slice` and the stable `sort` of JavaScript arrays, on sequences |
| `jsstrings.dfy` | `JsStrings` | `trim`, `toLowerCase`, `includes`, `split`/`join`, `parseInt` and digit extraction |
| `records.dfy` | `Records` | the `Patient`, `Doctor`, `Appointment` and `Message` records, their vocabularies and `{ ...r, ...updates }` |
| `data.dfy` | `Data` | the seed collections and the lookup functions |
| `utils.dfy` | `Utils` | `src/lib/utils.ts` |
| `healthcare.dfy` | `Healthcare` | the store: a `Store` class whose fields are the hook's state, and the pure pipelines it derives |
| `messages.dfy` | `MessageThreads` | the thread reduce of the messages page, as a method with a loop, and its specification |
| `appointments.dfy` | `AppointmentDays` | grouping by date, today's and upcoming appointments, revenue, visit counts and the status badge |
| `dialogs.dfy` | `Dialogs` | the forms of the two dialogs and the records they submit |

Representation choices:

- An appointment `date` ("YYYY-MM-DD") is the integer `YYYYMMDD`; `Records.DateText`
  gives back its text, which is what a date filter value holds and is compared with.
- A message `timestamp` ("YYYY-MM-DD h:mm AM/PM", such as "2024-01-18 2:00 PM") is the
  integer `YYYYMMDDHHMM`, with the time converted to 24-hour minutes (2:00 PM is `1400`).
- Both keep the order of the texts, which is the order that string and
  `Date` comparison give them in the source.
- Identifiers, names and free text are `string`.
- Numbers the source keeps as floating point (rating, BMI) are `real`, except an
  appointment's `cost`, which is an `int` of whole dollars (see "## Left out").
- The value of `parseInt` is `Num`, which is `Int(n)` or `NaN`.
- The current date and time, `Math.random` ids and the BMI computed from
  free text are parameters.

## Model

| member | source | states |
|---|---|---|
| Seqs.Filter | src/hooks/use-healthcare.ts:121 | `filter` keeps exactly the elements that pass, taking nothing from outside the input and never growing |
| Seqs.FilterAppend | src/hooks/use-healthcare.ts:121 | filtering distributes over concatenation |
| Seqs.FilterIdempotent | src/hooks/use-healthcare.ts:121 | filtering twice by the same test is filtering once |
| Seqs.FilterFilter | src/hooks/use-healthcare.ts:120-128 | two filters in a row are one filter by the conjunction |
| Seqs.Map | src/lib/utils.ts:138 | `map` keeps the length and applies `f` at every position |
| Seqs.FindIndex | src/lib/data.ts:895-897 | the first position that passes, or none when no element passes |
| Seqs.Find | src/lib/data.ts:895-897 | `find` returns the first passing element, and none exactly when nothing passes |
| Seqs.SortByKey | src/lib/utils.ts:184-198 | the sort returns a permutation of the input, ordered by key |
| Seqs.SortByKeyStable | src/lib/utils.ts:184-198 | the elements sharing a key keep their input order |
| Seqs.SortByKeySorted | src/lib/utils.ts:184-198 | input already in key order comes back unchanged |
| Seqs.JsSlice | src/hooks/use-healthcare.ts:207-210 | `slice` with non-negative bounds is the subsequence, with the end clamped to the length; the result is never longer than the input or the range |
| Seqs.Distinct | src/lib/utils.ts:224-231 | each key of the input once, and no other |
| JsStrings.TrimStart | src/lib/utils.ts:205 | `trimStart` drops only leading whitespace, up to the first non-blank character |
| JsStrings.TrimEnd | src/lib/utils.ts:205 | `trimEnd` drops only trailing whitespace |
| JsStrings.TrimIsInfix | src/lib/utils.ts:205 | `trim` returns an infix of its input with only whitespace on either side |
| JsStrings.TrimEmptyIffBlank | src/lib/utils.ts:205 | the trimmed text is empty exactly when the input is all whitespace |
| JsStrings.TrimIdempotent | src/lib/utils.ts:205 | trimming twice is trimming once |
| JsStrings.ToLower | src/lib/utils.ts:207 | `toLowerCase` keeps the length, leaves no capital and changes only capitals |
| JsStrings.ToUpper | src/lib/utils.ts:140 | `toUpperCase` keeps the length, leaves no small letter and changes only small letters |
| JsStrings.ToLowerIdempotent | src/lib/utils.ts:207 | lower-casing twice is lower-casing once |
| JsStrings.Contains | src/lib/utils.ts:213 | `includes` holds exactly when the needle occurs at some position |
| JsStrings.Split | src/lib/utils.ts:137 | `split` gives at least one piece and no piece holds the separator |
| JsStrings.JoinSplit | src/lib/utils.ts:137-139 | joining the pieces of a split gives the text back |
| JsStrings.SplitJoin | src/lib/utils.ts:137-139 | splitting a join of separator-free pieces gives the pieces back |
| JsStrings.SplitAppend | src/components/AddPatientDialog.tsx:56 | splitting at a separator between two texts splits each text |
| JsStrings.Digits | src/lib/utils.ts:11 | `replace(/\D/g, '')` leaves only digits and never lengthens the text |
| JsStrings.NatToString | src/lib/utils.ts:243-272 | a count's decimal text: non-empty, all digits, no leading zero, and its decimal value is the count |
| JsStrings.ParseIntOfNatToString | src/components/AddPatientDialog.tsx:41 | `parseInt` reads back the decimal text of every natural number |
| JsStrings.ParseIntNoDigits | src/components/AddPatientDialog.tsx:41 | text without any hexadecimal digit parses to `NaN`; the empty age field is such text |
| Records.Override | src/hooks/use-healthcare.ts:237 | a field of a spread takes the patch's value when the patch has one, and keeps the record's value otherwise |
| Records.MergePatient | src/hooks/use-healthcare.ts:237 | `{ ...p, ...updates }`: the id comes from the patch when it carries one; an empty patch leaves the record as it was |
| Records.MergeDoctor | src/hooks/use-healthcare.ts:255 | the same spread for doctors |
| Records.MergeAppointment | src/hooks/use-healthcare.ts:273 | the same spread for appointments |
| Records.DateText | src/lib/data.ts:68 | an eight-digit date's text has the `YYYY-MM-DD` layout: ten characters, dashes at 4 and 7, digits elsewhere |
| Records.DateTextInjective | src/lib/data.ts:68 | two eight-digit dates with the same text are the same date, so comparing texts compares dates |
| Records.SeedDateText | src/lib/data.ts:583 | the seed day `20240118` is the text `2024-01-18` |
| Records.MergeMessage | src/hooks/use-healthcare.ts:291 | the same spread for messages |
| Data.PatientById | src/lib/data.ts:895-897 | the first patient with the id, or none exactly when no patient carries it |
| Data.DoctorById | src/lib/data.ts:899-901 | the first doctor with the id, or none exactly when no doctor carries it |
| Data.AppointmentsOn | src/lib/data.ts:903-905 | exactly the appointments on the date |
| Data.AppointmentsWithDoctor | src/lib/data.ts:907-909 | exactly the appointments whose `doctor` text equals the argument |
| Data.AppointmentsWithPatient | src/lib/data.ts:911-913 | exactly the appointments whose `patient` text equals the argument |
| Data.MessagesInThread | src/lib/data.ts:915-917 | exactly the messages of the thread |
| Data.UnreadCount | src/lib/data.ts:919-921 | the unread count is at most the total, and zero exactly when every message is read |
| Data.HighRiskPatients | src/lib/data.ts:923-925 | exactly the patients at high or critical risk |
| Data.AvailableDoctors | src/lib/data.ts:927-929 | exactly the doctors whose status is available |
| Data.SeedPatientIdsUnique | src/lib/data.ts:97-322 | no two seed patients share an id |
| Data.SeedDoctorIdsUnique | src/lib/data.ts:325-574 | no two seed doctors share an id |
| Data.SeedAppointmentIdsUnique | src/lib/data.ts:577-778 | no two seed appointments share an id |
| Data.SeedMessageIdsUnique | src/lib/data.ts:781-892 | no two seed messages share an id |
| Data.SeedUnreadCount | src/lib/data.ts:919-921 | four seed messages are unread: 1, 3, 5 and 7 |
| Data.SeedHighRiskPatients | src/lib/data.ts:923-925 | the high-risk seed patients are 2, 4 and 8 |
| Data.SeedAvailableDoctors | src/lib/data.ts:927-929 | the available seed doctors are 1, 3, 6, 7 and 8 |
| Data.SeedAppointmentsOnJanuary18 | src/lib/data.ts:903-905 | the seed appointments on 2024-01-18 are 1 to 5, in seed order |
| Data.SeedThreadOne | src/lib/data.ts:915-917 | seed thread "1" holds messages 1 to 4 |
| Data.SeedPatientById | src/lib/data.ts:895-897 | seed id "3" finds patient 3; id "9" finds nothing |
| Data.SeedDoctorById | src/lib/data.ts:899-901 | seed id "5" finds doctor 5; the empty id finds nothing |
| Utils.FormatPhoneNumber | src/lib/utils.ts:9-24 | ten digits give the `(ddd) ddd-dddd` layout; eleven digits starting with 1 give `+1 (ddd) ddd-dddd`; anything else returns the input unchanged |
| Utils.FormatPhoneKeepsDigits | src/lib/utils.ts:9-24 | formatting keeps the digits, in order |
| Utils.FormatPhoneIdempotent | src/lib/utils.ts:9-24 | formatting a formatted number changes nothing |
| Utils.IsValidPhone | src/lib/utils.ts:149-153 | valid exactly when the digits number 1 to 16 and the first is not 0 |
| Utils.FormatPhoneKeepsValidity | src/lib/utils.ts:9-24 | formatting never changes whether a number is valid |
| Utils.IsValidEmail | src/lib/utils.ts:144-147 | valid exactly when some split into local part, `@`, name, dot and suffix matches the pattern |
| Utils.EmailMatch | src/lib/utils.ts:144-147 | checking at the first `@` decides the pattern's existential match |
| Utils.FilterBySearch | src/lib/utils.ts:200-218 | a blank term keeps the list; otherwise exactly the items with a listed field whose lower-cased text contains the lower-cased term |
| Utils.SearchAppend | src/lib/utils.ts:200-218 | search works item by item, so it distributes over concatenation |
| Utils.SearchIdempotent | src/lib/utils.ts:200-218 | searching a search result again changes nothing |
| Utils.SearchIgnoresCase | src/lib/utils.ts:207 | the case of the term does not matter |
| Utils.SortByDate | src/lib/utils.ts:184-198 | a permutation of the input, ascending or descending by date |
| Utils.SortByDateStable | src/lib/utils.ts:184-198 | in both directions, items with the same date keep their input order |
| Utils.SortByDateConstant | src/lib/utils.ts:189-190 | items that all carry the same date (or none) keep their order |
| Utils.GroupBy | src/lib/utils.ts:220-232 | keys in order of first appearance; each key maps to exactly its items, in input order; no other key is present |
| Utils.GroupsPartition | src/lib/utils.ts:220-232 | laid end to end, the groups are a permutation of the input |
| Utils.RegroupPermutes | src/lib/utils.ts:220-232 | the groups of distinct keys hold exactly the items whose key is among them |
| Utils.WithKeyAbsent | src/lib/utils.ts:226 | a key no item carries has no group |
| Utils.TruncateText | src/lib/utils.ts:130-133 | short text is kept; longer text is cut to `maxLength` and marked with `...`; a negative length counts from the end |
| Utils.TruncateIdempotent | src/lib/utils.ts:130-133 | truncating twice to the same length is truncating once |
| Utils.GenerateInitials | src/lib/utils.ts:135-142 | at most two characters, none a small letter |
| Utils.InitialsOfTwoWords | src/lib/utils.ts:135-142 | a first and a last name give their two capitalised first letters |
| Utils.GetBMICategory | src/lib/utils.ts:70-80 | each category holds exactly its band, with each bound in the band above |
| Utils.BmiMonotone | src/lib/utils.ts:70-80 | a larger BMI never falls in a lower category |
| Utils.ColorsIgnoreCase | src/lib/utils.ts:82-128 | the three colour switches ignore case |
| Utils.RiskLevelColorsDistinct | src/lib/utils.ts:82-95 | every risk level has its own colour, none of them gray |
| Utils.PatientStatusColors | src/lib/utils.ts:97-113 | every patient status has a colour other than gray |
| Utils.AppointmentStatusColors | src/lib/utils.ts:97-113 | among appointment statuses, only rescheduled falls through to gray |
| Utils.DoctorStatusColors | src/lib/utils.ts:97-113 | among doctor statuses, only available has a colour |
| Utils.PriorityColors | src/lib/utils.ts:115-128 | low priority shares gray with unknown text; the other priorities have distinct colours |
| Utils.Bucket | src/lib/utils.ts:255-273 | the time bucket a difference in seconds falls into, with the whole number of units and its bounds |
| Utils.BucketMonotone | src/lib/utils.ts:255-273 | a later time never lands in an earlier bucket |
| Utils.GetTimeUntil | src/lib/utils.ts:255-273 | `Overdue` for the past; under a minute; then whole minutes, hours or days |
| Utils.GetRelativeTime | src/lib/utils.ts:234-253 | `Just now`, then whole minutes, hours or days ago; from 30 days on no text, where the source formats the date |
| Utils.TimeUntilCount | src/lib/utils.ts:264-266 | the count in the text reads back as the whole minutes, plural from two on |
| Healthcare.NarrowIsFilter | src/hooks/use-healthcare.ts:120-128 | a chain of guarded filter steps is one filter by the conjunction of the enabled steps |
| Healthcare.PipelineIsFilter | src/hooks/use-healthcare.ts:115-128 | search followed by the steps is one filter by search and steps together |
| Healthcare.FilteredPatientsMeaning | src/hooks/use-healthcare.ts:111-134 | the patient list is exactly the patients matching the search and filters, in stored order |
| Healthcare.FilteredDoctorsMeaning | src/hooks/use-healthcare.ts:136-156 | the doctor list is exactly the matching doctors, in stored order |
| Healthcare.FilteredAppointmentsMeaning | src/hooks/use-healthcare.ts:158-181 | the appointment list is the matching appointments, stably sorted by date |
| Healthcare.FilteredMessagesMeaning | src/hooks/use-healthcare.ts:183-203 | the message list is the matching messages, stably sorted by time |
| Healthcare.PatientChoice | src/hooks/use-healthcare.ts:120-125 | one status or risk choice: `all` or an empty value lists every patient; otherwise exactly those with that value |
| Healthcare.DoctorChoice | src/hooks/use-healthcare.ts:143-148 | the same for a doctor's specialty or status |
| Healthcare.AppointmentChoice | src/hooks/use-healthcare.ts:165-170 | the same for an appointment's status or type |
| Healthcare.DateChoice | src/hooks/use-healthcare.ts:171-173 | choosing a day's text in the date filter, with no search, lists exactly that day's appointments, sorted by date |
| Healthcare.ReadChoice | src/hooks/use-healthcare.ts:193-195 | the read filter narrows only when it is `true`; `false` is falsy and lists every message |
| Healthcare.PatientSearchOnly | src/hooks/use-healthcare.ts:115-117 | with no filter, the patient list is the search result |
| Healthcare.NothingSelected | src/hooks/use-healthcare.ts:111-181 | with no search and no filter, all patients are listed in stored order and all appointments sorted |
| Healthcare.TotalPages | src/hooks/use-healthcare.ts:206 | `ceil(count / n)`: the fewest pages of `n` that hold every item |
| Healthcare.Paginate | src/hooks/use-healthcare.ts:207-210 | page `p` is at most `n` items: items `(p-1)n` to `pn` |
| Healthcare.PageOutOfRange | src/hooks/use-healthcare.ts:207-210 | page 0 and every page after the last are empty |
| Healthcare.NegativePageQuirk | src/hooks/use-healthcare.ts:207-210 | a negative page is read from the end: page -1 of 15 items is their first 5 |
| Healthcare.FirstPagesArePrefix | src/hooks/use-healthcare.ts:207-210 | pages 1 to `k` laid end to end are the first `k·n` items |
| Healthcare.PagesCoverItems | src/hooks/use-healthcare.ts:206-210 | pages 1 to `totalPages` hold every item exactly once, in order |
| Healthcare.ComputeStats | src/hooks/use-healthcare.ts:213-224 | totals are the collection sizes; each sub-count is bounded by its total; no unread message exactly when all are read |
| Healthcare.StatsAfterAddPatient | src/hooks/use-healthcare.ts:213-233 | adding a patient moves only the patient counts, by one at most |
| Healthcare.StatsAfterAddMessage | src/hooks/use-healthcare.ts:213-224 | adding a message moves only the total, and the unread count when it is unread |
| Healthcare.SeedStats | src/hooks/use-healthcare.ts:213-224 | on 2024-01-18 the seed dashboard shows 8 patients (7 active, 3 high-risk), 8 doctors (5 available), 10 appointments (5 today, 3 pending) and 10 messages (4 unread) |
| Healthcare.SeedActivePatients | src/lib/data.ts:97-322 | every seed patient but the fourth is active |
| Healthcare.SeedPendingAppointments | src/lib/data.ts:577-778 | the pending seed appointments are 3, 7 and 10 |
| Healthcare.RemoveById | src/hooks/use-healthcare.ts:241-243 | a record remains exactly when its id differs from the one removed |
| Healthcare.RemoveUnknownId | src/hooks/use-healthcare.ts:241-243 | removing an id nobody carries changes nothing |
| Healthcare.RemoveByIdCount | src/hooks/use-healthcare.ts:241-243 | removal drops exactly the records carrying the id |
| Healthcare.RemoveAfterAdd | src/hooks/use-healthcare.ts:227-243 | adding under a fresh id and then deleting that id restores the collection |
| Healthcare.UpdateById | src/hooks/use-healthcare.ts:235-239 | same length; every record with the id is merged with the patch, every other record is untouched |
| Healthcare.UpdateUnknownId | src/hooks/use-healthcare.ts:235-239 | updating an id nobody carries changes nothing |
| Healthcare.UpdatePatientKeepsIds | src/hooks/use-healthcare.ts:235-239 | an update without an id keeps every record's id |
| Healthcare.UpdatePatientThenFind | src/hooks/use-healthcare.ts:235-239 | after such an update, looking up the id finds the merged record |
| Healthcare.AddPatientThenFind | src/hooks/use-healthcare.ts:227-233 | after adding under a fresh id, looking the id up finds the new patient |
| Healthcare.DeleteMessageAsWritten | src/hooks/use-healthcare.ts:295-297 | the test `m.id !== m.id` never holds, so every message is dropped |
| Healthcare.DeleteMessageAsWrittenLosesAll | src/hooks/use-healthcare.ts:295-297 | deleting message "1" from the seed messages leaves none, where nine should remain |
| Healthcare.DeleteMessageIntended | src/hooks/use-healthcare.ts:277-279 | a message remains exactly when its id differs from the one deleted |
| Healthcare.Store.constructor | src/hooks/use-healthcare.ts:97-108 | the seed collections, empty search and filters, sort `name` ascending, page 1 of 10 |
| Healthcare.Store.PageItems | src/hooks/use-healthcare.ts:207-210 | the current page of the filtered patients is never longer than the page size |
| Healthcare.Store.SetSearchTerm | src/hooks/use-healthcare.ts:97 | only the search term changes; the page is kept |
| Healthcare.Store.SetFilter | src/hooks/use-healthcare.ts:325-331 | the key is set, the other filters are kept, and the view returns to page 1, which shows the first page of patients |
| Healthcare.Store.ClearFilters | src/hooks/use-healthcare.ts:333-337 | filters and search are emptied and page 1 is shown; every patient is visible |
| Healthcare.Store.SetSortBy | src/hooks/use-healthcare.ts:99 | only the recorded sort field changes |
| Healthcare.Store.SetSortOrder | src/hooks/use-healthcare.ts:100 | only the sort order changes |
| Healthcare.Store.SetCurrentPage | src/hooks/use-healthcare.ts:101 | only the page changes |
| Healthcare.Store.SetItemsPerPage | src/hooks/use-healthcare.ts:102 | only the page size changes |
| Healthcare.Store.AddPatient | src/hooks/use-healthcare.ts:227-233 | the patient is appended under the new id and, if the id is fresh, can be found |
| Healthcare.Store.UpdatePatient | src/hooks/use-healthcare.ts:235-239 | the patients become the merged list; nothing else changes |
| Healthcare.Store.DeletePatient | src/hooks/use-healthcare.ts:241-243 | the records with the id are dropped, and the id is no longer found |
| Healthcare.Store.AddDoctor | src/hooks/use-healthcare.ts:245-251 | the doctor is appended under the new id |
| Healthcare.Store.UpdateDoctor | src/hooks/use-healthcare.ts:253-257 | the doctors become the merged list |
| Healthcare.Store.DeleteDoctor | src/hooks/use-healthcare.ts:259-261 | the records with the id are dropped, and the id is no longer found |
| Healthcare.Store.AddAppointment | src/hooks/use-healthcare.ts:263-269 | the appointment is appended under the new id |
| Healthcare.Store.UpdateAppointment | src/hooks/use-healthcare.ts:271-275 | the appointments become the merged list |
| Healthcare.Store.DeleteAppointment | src/hooks/use-healthcare.ts:277-279 | the records with the id are dropped |
| Healthcare.Store.AddMessage | src/hooks/use-healthcare.ts:281-287 | the message is appended under the new id |
| Healthcare.Store.UpdateMessage | src/hooks/use-healthcare.ts:289-293 | the messages become the merged list |
| Healthcare.Store.DeleteMessage | src/hooks/use-healthcare.ts:295-297 | as written: every message is dropped, whatever the id; nothing else changes |
| Healthcare.Store.DeleteMessageCorrected | src/hooks/use-healthcare.ts:277-279 | the evidently intended deletion, as for appointments: only the messages with the id are dropped, none with it remains, nothing else changes |
| MessageThreads.AvatarIsUncapitalisedInitials | src/pages/Messages.tsx:64 | the thread avatar is `generateInitials` of the sender without the capitalisation |
| MessageThreads.LatestIndex | src/pages/Messages.tsx:70-74 | the position of the first message with the latest timestamp |
| MessageThreads.AnyUrgent | src/pages/Messages.tsx:62 | true exactly when some message of the thread is urgent |
| MessageThreads.FoldParticipants | src/pages/Messages.tsx:58-69 | the reduce collects each sender once, in order of first appearance |
| MessageThreads.FoldLatest | src/pages/Messages.tsx:59-74 | the reduce keeps the content, time and priority of the first latest message |
| MessageThreads.FoldMeaning | src/pages/Messages.tsx:54-77 | the reduce over a thread's messages gives its declarative summary |
| MessageThreads.EntryMeaning | src/pages/Messages.tsx:54-77 | a finished entry: id; senders once each; the latest message; unread count and urgency over the whole thread; avatar of the first sender |
| MessageThreads.EnumerationOrder | src/pages/Messages.tsx:79 | `Object.values` order: a permutation of the keys with array-index keys first, in numeric order, and the rest in creation order |
| MessageThreads.EnumerationOrderOfNames | src/pages/Messages.tsx:79 | keys that are not array indices keep their creation order |
| MessageThreads.ThreadIds | src/pages/Messages.tsx:55 | each thread id once, exactly the ids of the messages |
| MessageThreads.ThreadKeys | src/pages/Messages.tsx:53-79 | the keys the reduce creates: no duplicates, each with at least one message, exactly the thread ids of the messages |
| MessageThreads.ThreadsDistinct | src/pages/Messages.tsx:53-82 | no two listed threads are the same |
| MessageThreads.ThreadStep | src/pages/Messages.tsx:54-77 | one reduce step keeps the accumulator in step with the messages read so far |
| MessageThreads.ObjectValues | src/pages/Messages.tsx:79 | the accumulator's values, listed in key order |
| MessageThreads.MessageThreadList | src/pages/Messages.tsx:53-82 | the loop computes the thread list, newest thread first |
| MessageThreads.ThreadsAreEntries | src/pages/Messages.tsx:53-82 | each listed thread is the finished entry of its own id |
| MessageThreads.ThreadsCoverIds | src/pages/Messages.tsx:53-82 | a thread id is listed exactly when some message carries it |
| MessageThreads.ThreadsOnePerId | src/pages/Messages.tsx:53-82 | no thread id is listed twice |
| MessageThreads.CurrentThreadMessages | src/pages/Messages.tsx:84 | the page's own filter selects the same messages as the `getMessagesByThread` lookup, exactly those of the selected thread |
| AppointmentDays.AppointmentsByDate | src/pages/Appointments.tsx:302-309 | dates in order of first appearance; each date maps to exactly its appointments, as `getAppointmentsByDate` gives them |
| AppointmentDays.TodayIsThatDate | src/pages/Appointments.tsx:311-312 | today's list is the appointments dated today, and empty when there are none |
| AppointmentDays.FlattenIsRegroup | src/pages/Appointments.tsx:315 | concatenating the groups of some dates is regrouping by those dates |
| AppointmentDays.UpcomingIsLater | src/pages/Appointments.tsx:313-315 | the upcoming list is a permutation of exactly the appointments after today, grouped by date in order of first appearance |
| AppointmentDays.TodayAndUpcomingDisjoint | src/pages/Appointments.tsx:311-315 | no appointment is in both today's and the upcoming list |
| AppointmentDays.Revenue | src/pages/Appointments.tsx:376 | the sum of the costs, non-negative when every cost is |
| AppointmentDays.RevenueAppend | src/pages/Appointments.tsx:376 | the sum over two lists laid end to end is the sum of the two sums |
| AppointmentDays.CountKind | src/pages/Appointments.tsx:344-345 | the count of a visit type is at most the list's length, and zero exactly when no visit has that type |
| AppointmentDays.VideoAndClinicWithinDay | src/pages/Appointments.tsx:344-345 | the video and in-person counts together never exceed today's appointments |
| AppointmentDays.DayOverview | src/pages/Appointments.tsx:302-315 | today's list is the appointments dated today; the upcoming list groups the later ones and permutes exactly them; revenue is the sum over today; the video and in-person counts are the counts of those types today, together at most today's total |
| AppointmentDays.SeedDayFigures | src/pages/Appointments.tsx:344-376 | on 2024-01-18 the seed day brings in 900, with no video and no in-person visit |
| AppointmentDays.StatusBadgeVariant | src/pages/Appointments.tsx:50-59 | destructive exactly for cancelled, secondary exactly for pending, outline exactly for rescheduled |
| AppointmentDays.DefaultBadgeStatuses | src/pages/Appointments.tsx:50-59 | over the appointment statuses, the default badge marks exactly confirmed and completed |
| Dialogs.ParseList | src/components/AddPatientDialog.tsx:56-57 | every entry is non-empty, has no comma and no surrounding whitespace |
| Dialogs.ParseListAppend | src/components/AddDoctorDialog.tsx:48-50 | the entries of two texts joined by a comma are the first's followed by the second's, so order is kept |
| Dialogs.ParseListJoin | src/components/AddDoctorDialog.tsx:60-64 | clean entries written out with commas parse back to themselves |
| Dialogs.ParseListEmptyIff | src/components/AddPatientDialog.tsx:56-57 | a field gives no entry exactly when it holds only commas and whitespace |
| Dialogs.NewPatient | src/components/AddPatientDialog.tsx:39-65 | fixed physician, lab-result and next-appointment texts; clean lists; emergency contact copied from its three fields |
| Dialogs.PatientFormOf | src/components/AddPatientDialog.tsx:41 | the form describing a record: its age text reads back as the age |
| Dialogs.PatientFormRoundTrip | src/components/AddPatientDialog.tsx:39-65 | every record the dialog can produce comes back from submitting the form that describes it |
| Dialogs.UntouchedPatientForm | src/components/AddPatientDialog.tsx:72-91 | the reset form is the opening form, and submitting it gives age `NaN`, empty lists, status active and low risk |
| Dialogs.NewDoctor | src/components/AddDoctorDialog.tsx:36-65 | rating 4.5, no patients or publications, available now, 9:00 AM to 5:00 PM Monday to Friday and closed at weekends, clean lists |
| Dialogs.DoctorFormOf | src/components/AddDoctorDialog.tsx:36-65 | the form describing a doctor keeps its name, licence and status |
| Dialogs.DoctorFormRoundTrip | src/components/AddDoctorDialog.tsx:36-65 | every doctor the dialog can produce comes back from submitting the form that describes it |
| Dialogs.UntouchedDoctorForm | src/components/AddDoctorDialog.tsx:72-88 | the reset form is the opening form, and submitting it gives an available doctor with empty lists |

## Left out

- Rendering, React state hooks, `useMemo`/`useCallback` caching, toasts and dialog open state are not modelled. The store is one object whose methods change its fields.
- Each page and dialog calls `useHealthcare()` for its own store instance. A record added in a dialog therefore does not reach a page's list. The model has no sharing between instances.
- The current date, the current time and `Math.random` ids are parameters: `today`, `diff` in seconds, and the `id` passed to the add methods.
- `formatCurrency`, `formatDate`, `formatDateTime` and `calculateAge` are left out: they depend on `Intl` and the system clock.
- `debounce`, `throttle` and `generateId` are left out: they depend on timers and randomness.
- `calculateBMI` is left out, in both its versions: it uses floating point, `parseFloat` and `toFixed`. The BMI of a new patient is a parameter.
- Healthcare.Store.SetItemsPerPage: requires a page size of at least 1. With 0 or `NaN` the source divides by zero, and the model does not represent the `Infinity`/`NaN` page counts that result.
- Healthcare.Store.SetSortBy: `sortBy` is recorded and never read by the pipelines, as in the source.
- FilteredPatientsMeaning: a boolean under `condition` matches no patient in the model. The source calls `toLowerCase` on the boolean and throws; the model has no failure for it. Every text value, a date's text included, is lower-cased and compared as in the source.
- Healthcare.StatsAfterAddPatient: the `today` appointment count takes the date as a parameter, because the source reads the clock.
- The patient and doctor pipelines call `sortByDate` on records with no `date` or `timestamp`. Every comparison is then `NaN`, which `sort` treats as equal, so a stable sort keeps the stored order. The model gives these records one constant key.
- A message's `timestamp` text is modelled as the integer minute key. Texts the `Date` parser reads differently are not represented.
- An appointment's `cost` is a `number` in the source and an `int` of whole dollars here. Fractional costs, and the floating-point rounding of the revenue sum, are not represented.
- The `Partial<...>` updates are modelled with an `Option` per field. A patch that carries a field explicitly set to `undefined` overwrites that field in the source's spread; the model cannot express it.
- Utils.GroupBy: the source's `{}` accumulator inherits from `Object.prototype`. A key such as `constructor` or `toString` finds an inherited member, so `groups[key].push` throws; `__proto__` misbehaves too. The model's map accepts every key and does not model these failures.
- AppointmentDays.AppointmentsByDate: the same inherited-key failure of the `{}` accumulator is not modelled. Date keys of the form YYYY-MM-DD never collide with inherited names.
- MessageThreads.MessageThreadList: a thread id such as `constructor` finds an inherited member in the `{}` accumulator, so `participants.includes` throws in the source. The model's map accepts every thread id.
- `getPriorityIcon` and the message detail dialog of the messages page are rendering only and are left out.
- AppointmentDays.AppointmentsByDate: groups whatever list the page receives. That list is the store's `filteredAppointments`, already searched, filtered and sorted by date (`Healthcare.FilteredAppointments`); the model takes it as a parameter and does not restate the pipeline.
- Dialogs.NewPatient: the status and risk level come from select inputs whose options are exactly the record's vocabulary. The source's unchecked `as` cast is therefore modelled as the datatype itself.
- `parseInt` of a non-decimal prefix such as `0x1f` is modelled, but a numeric overflow to `Infinity` is not, since integers are unbounded.
- `toLowerCase`/`toUpperCase` are modelled on ASCII letters only. Other Unicode case mappings are not represented.
- TruncateText: `text.length` and `slice` count UTF-16 code units in the source; the model counts characters. Text outside the Basic Multilingual Plane is not represented: `truncateText("😀😀😀", 4)` cuts the text in the source and keeps it here.
- GenerateInitials: `n[0]`, `charAt(0)` and `slice(0, 2)` take UTF-16 code units in the source; the model takes characters. A name starting outside the Basic Multilingual Plane gives a lone surrogate in the source and the whole character here.
- MessageThreads.Avatar: built from the first character of each word, as `GenerateInitials`; indices count characters, not UTF-16 code units, so text outside the Basic Multilingual Plane is not represented.

## Findings

| source | as written | input that shows it | evidently intended | confidence | as-written member | corrected member |
|---|---|---|---|---|---|---|
| src/hooks/use-healthcare.ts:296 | `prev.filter(m => m.id !== m.id)` compares each message's id with itself, so the test is always false and every message is removed | `deleteMessage("1")` on the ten seed messages leaves none | `prev.filter(m => m.id !== id)`, as in the other three deletions, leaving nine | high; not executed | Healthcare.DeleteMessageAsWritten | Healthcare.DeleteMessageIntended |
