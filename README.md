# KLPF, modelled in Dafny

KLPF is a browser extension for the Kogakuin University learning management system (Ku-LMS)
and its single sign-on. Content scripts add features to the LMS pages:
- a header clock that counts down to the end of the current period;
- automatic attendance at a configured weekday and period;
- a bulk opener for course materials;
- a homework list, which is also posted to a Google Apps Script web app that mails deadline reminders;
- a filter for the course list;
- automatic login;
- a muted join for Google Meet calls.

A background service worker registers the content scripts whose switches are on. An options
page stores the switches and arranges its panels. The documentation and landing pages turn
GitHub release notes into HTML.

This project models the decision logic of those scripts with the DOM, timers, storage and the
network taken as explicit inputs. Each source file is one module:

| module | file |
|---|---|
| `Constants` | features/modules/constants.js |
| `Clock` | features/time.js |
| `Attend` | features/attend.js |
| `KyozaiParse`, `KyozaiState` | features/kyozaiopen.js |
| `Homework` | features/homework.js |
| `CourseFilter`, `CoursePage` | features/subject.js |
| `DomUtils` | features/modules/dom-utils.js |
| `AutoLogin` | features/AutoLogin.js |
| `Meet` | features/meet.js |
| `GasReminder`, `GasSetup` | gas/autosetup.js |
| `ScriptsConfig` | scripts.config.js |
| `Registry`, `Background` | background.js |
| `LegacyInject` | inject.js |
| `Settings` | setting/modules/settings.js |
| `SettingsUi` | setting/modules/ui.js |
| `Changelog` | docs/script.js |
| `Releases` | website/script.js and script.js |

Five shared modules hold helpers:
- `Wrappers` defines `Option`.
- `Text` holds the JavaScript string operations over `seq<char>`.
- `Scan` holds deterministic regular-expression matchers.
- `Sorting` is a stable sort by an integer key.
- `Seqs` holds the filter-then-map and key-set idioms.

The modelling follows the shape of the source:
- State that the source updates in place is a `class`. Examples are the attendance sequencer,
  the material opener's storage, the course list display, the Meet flags, the polling waits,
  the script registry and the options page.
- Each method of such a class is proved against a pure step function.
- Pure code is functions and lemmas.
- Timers and observers are ticks: one method call per interval callback.

## Model

| member | source | states |
|---|---|---|
| `Constants.NormalWellFormed` | features/modules/constants.js:56-64 | the normal timetable is well formed: every entry's start is before its end and every end is no later than the next start |
| `Constants.NormalOrdered` | features/modules/constants.js:56-64 | every entry of the normal timetable starts before it ends |
| `Constants.NormalInOrder` | features/modules/constants.js:56-64 | every entry of the normal timetable ends no later than the next one starts |
| `Constants.ContinuousWellFormed` | features/modules/constants.js:66-74 | the timetable with consecutive 2nd and 3rd periods is well formed in the same sense |
| `Constants.ContinuousOrdered` | features/modules/constants.js:66-74 | every entry of the consecutive-periods timetable starts before it ends |
| `Constants.ContinuousInOrder` | features/modules/constants.js:66-74 | every entry of the consecutive-periods timetable ends no later than the next one starts |
| `Constants.TimetablesDifferOnlyAroundLunch` | features/modules/constants.js:56-74 | both timetables have seven entries and agree everywhere except entries 2 and 3, where 3限 and 昼休み trade places |
| `Constants.AttendanceScheduleWellFormed` | features/modules/constants.js:38-43 | every attendance-schedule entry starts before it ends, and the entries are in time order |
| `Constants.AttendanceOrdered` | features/modules/constants.js:38-43 | every attendance-schedule entry starts before it ends |
| `Constants.AttendanceInOrder` | features/modules/constants.js:38-43 | every attendance-schedule entry ends no later than the next one starts |
| `Constants.DayLabelsFollowGetDay` | features/modules/constants.js:44 | seven distinct weekday labels indexed like `getDay()`, 0 being Sunday |
| `Constants.AttendFlagKeysDistinct` | features/modules/constants.js:31-35 | the five attendance localStorage keys are pairwise different |
| `Constants.UrlsExtendTheirHosts` | features/modules/constants.js:10-19 | the home, login and error URLs extend `LMS_URL`, the three sign-on URLs extend `KU_SSO`, and neither host is a prefix of the other |
| `Clock.Pad2Digits` | features/time.js:36 | `pad` of a value below 100 is exactly its two decimal digits |
| `Clock.TimestampTail` | features/time.js:37 | the part after the year is 15 characters: `/MM/DD HH:mm:ss` with each field two digits equal to month+1, day, hours, minutes, seconds |
| `Clock.FormattedTime` | features/time.js:35-38 | the timestamp is the year's digits followed by `/MM/DD HH:mm:ss`, every field zero-padded to two digits and reading back as the date's value |
| `Clock.Message` | features/time.js:56-74 | the status text is 授業時間外 exactly for the outside-hours status |
| `Clock.StatusFrom` | features/time.js:48-71 | the first entry whose period or following gap holds `now` decides, and any reported remaining time is at least one minute |
| `Clock.StatusFromStep` | features/time.js:48-70 | one pass of the loop: the period of entry i, then the gap after it, decides before any later entry |
| `Clock.WellFormedSlots` | features/time.js:50-53 | a well-formed timetable reads as slots that start before they end and do not overlap |
| `Clock.OutsideSlots` | features/time.js:48-74 | over such slots the scan ends outside hours exactly when `now` is before the first start or at or after the last end |
| `Clock.StatusDuringPeriod` | features/time.js:56-59 | in a well-formed timetable, while period i runs the status names period i and reports end − now minutes |
| `Clock.StatusBetweenPeriods` | features/time.js:62-69 | between the end of period i and the start of period i+1 the status names period i+1 and reports start − now minutes |
| `Clock.StatusOutsideHours` | features/time.js:48-74 | the status is outside hours exactly when the timetable is empty, `now` is before the first start, or at or after the last end |
| `Clock.CalculateStatusMessage` | features/time.js:45-75 | the loop returns the message of the first-match status for hours·60 + minutes |
| `Clock.FindStatus` | features/time.js:48-74 | the loop returns the first entry whose period or following gap holds the minute, and outside hours when none does |
| `Clock.ShownTimetableClocks` | features/time.js:88-90 | both timetables the click can select have readable "HH:MM" times |
| `Clock.Periods` | features/time.js:19 | both timetables the widget can use have readable "HH:MM" times |
| `Clock.Toggled` | features/time.js:87-90 | a click selects the other timetable, whose periods differ from the current one's |
| `Clock.ToggleTwiceRestores` | features/time.js:87-90 | two clicks restore the timetable in use |
| `Clock.ClockWidget.constructor` | features/time.js:19 | the widget starts on the normal timetable |
| `Clock.ClockWidget.UpdateTime` | features/time.js:80-84 | both texts are recomputed for `now` and the timetable is kept |
| `Clock.ClockWidget.Click` | features/time.js:87-93 | the click switches the timetable and then refreshes both texts at once |
| `Attend.KeyNamesDistinct` | features/attend.js:16-20 | two step flags share a localStorage key only if they are the same flag |
| `Attend.ClockParts` | features/attend.js:44 | the hour and minute read from an "HH:MM" start give its minutes since midnight |
| `Attend.StartOfLabel` | features/attend.js:42-47 | a start is found iff some entry carries the configured label, and it is the start of the first such entry |
| `Attend.ConfiguredDay` | features/attend.js:38 | the weekday is defined iff the stored value parses as a non-zero integer |
| `Attend.LoadConfig` | features/attend.js:34-48 | the attend-button option is on iff stored as true; the trigger weekday and start come from the parse and the label lookup |
| `Attend.NoPeriodNeverTriggers` | features/attend.js:42-58 | with no schedule entry for the configured label, no minute is a trigger minute |
| `Attend.SundayNeverTriggers` | features/attend.js:38-58 | a stored weekday "0" is falsy after `parseInt`, so the sequence never triggers |
| `Attend.TuesdayIsDayTwo` | features/attend.js:38 | a stored weekday "2" configures Tuesday |
| `Attend.TriggersBeforeStartIn` | features/attend.js:42-58 | for any schedule whose periods start before they end, the trigger minute lies three minutes before the configured period starts |
| `Attend.CardClicksExactly` | features/attend.js:79-92 | inside a day box, exactly the linked cards of the configured term whose info mentions the period are clicked |
| `Attend.LessonClicksExactly` | features/attend.js:73-94 | the lesson step clicks exactly the linked matching cards inside day boxes titled with the configured weekday |
| `Attend.LessonClicksAreClicks` | features/attend.js:73-94 | the lesson step produces nothing but lesson-link clicks |
| `Attend.ClicksOfBoxesExactly` | features/attend.js:73-94 | the clicks are exactly the hit cards of the searched boxes, identified by box and card index |
| `Attend.AttendSequencer.constructor` | features/attend.js:23-31 | at script start the settings are unloaded, the counter is 0 and the flags are what localStorage kept |
| `Attend.AttendSequencer.LoadSettings` | features/attend.js:34-48 | the storage callback sets the configuration and leaves the flags and the counter alone |
| `Attend.AttendSequencer.ScanDayBox` | features/attend.js:77-92 | the inner card loop yields the specified clicks for one day box |
| `Attend.AttendSequencer.ScanCards` | features/attend.js:80-91 | the card loop of one day box clicks, in order, exactly the linked cards of the configured term whose info mentions the period |
| `Attend.AttendSequencer.ScanLessonCards` | features/attend.js:71-94 | the outer loop over day boxes yields the specified lesson clicks in document order |
| `Attend.AttendSequencer.Reload` | features/attend.js:62-65 | the reload step sets its flag and navigates only when the flag was not set |
| `Attend.AttendSequencer.ClickLessonCard` | features/attend.js:68-95 | the lesson step performs the scan's clicks and sets its flag iff it clicked something |
| `Attend.AttendSequencer.ClickAttendButton` | features/attend.js:98-115 | the attend step counts up, clicks and resets the counter when the button exists, and skips both attend and OK after the counter passes 4 |
| `Attend.AttendSequencer.ClickOkButton` | features/attend.js:118-137 | the OK step counts up, clicks OK inside the dialog when present, and skips after the counter passes 4 when the iframe is absent |
| `Attend.AttendSequencer.Tick` | features/attend.js:51-152 | one tick leaves flags, counter and effects exactly as the specification function of the tick says |
| `Attend.OutsideWindowResets` | features/attend.js:144-151 | outside the trigger minute every flag is cleared, the counter is kept and nothing happens |
| `Attend.ReloadStepFacts` | features/attend.js:61-65 | the reload step only adds flags, ends with the reload flag set and leaves the lesson flag alone |
| `Attend.LessonStepFacts` | features/attend.js:67-95 | the lesson step only adds flags and leaves the reload flag alone |
| `Attend.AttendStepFacts` | features/attend.js:97-115 | the attend step only adds flags, leaves the reload and lesson flags alone and never navigates |
| `Attend.OkStepFacts` | features/attend.js:117-137 | the OK step only adds flags, leaves the reload and lesson flags alone and never navigates |
| `Attend.SequenceSteps` | features/attend.js:59-138 | the attend sequence is the reload, lesson, attend and OK steps in that order, their effects concatenated |
| `Attend.SequenceFlags` | features/attend.js:59-138 | across the four steps the flags only grow and the reload flag ends up set |
| `Attend.SequenceNavigatesFirst` | features/attend.js:59-138 | no step after the reload step navigates |
| `Attend.FlagsMonotoneInWindow` | features/attend.js:58-143 | inside the trigger minute no flag is ever cleared |
| `Attend.NavigateAtMostOnce` | features/attend.js:62-65 | the tick leaves the reload flag set and navigates iff the flag was not set before, so at most once per window |
| `Attend.LessonFlagIffLinkedCard` | features/attend.js:73-91 | the lesson flag ends up set iff it was set or a card of the right weekday, term and period has a link |
| `Attend.AttendButtonFound` | features/attend.js:98-106 | a found attend button is clicked, its flag set and the counter restarted (the OK step may count once more) |
| `Attend.AttendButtonMissingSkips` | features/attend.js:107-114 | once the counter passes 4 without an attend button, both the attend and the OK flags are set and the Meet tab opens when a link is configured |
| `Attend.OkDialogMissingSkips` | features/attend.js:131-137 | without the dialog iframe the OK step sets its flag once the counter passes 4 |
| `Attend.CounterSharedBetweenSteps` | features/attend.js:100-120 | while both buttons are missing one tick advances the shared counter by two |
| `Attend.MeetOpenedOncePerWindow` | features/attend.js:139-143 | without the attend-button option the Meet tab opens only on the first tick of the window and only with a non-empty link |
| `Attend.FinishedSequenceIsQuiet` | features/attend.js:58-143 | a tick in the window with every flag set changes nothing and does nothing |
| `Attend.LocalScheduleFifthPeriodAsWritten` | features/attend.js:5-10 | the file's own table lists 5限 as starting at 19:36, after it ends at 17:20 |
| `Attend.FifthPeriodTriggersLateAsWritten` | features/attend.js:9 | with that table a Tuesday 5限 triggers at 19:33 and not at 15:47 |
| `Attend.PeriodTriggersBeforeStart` | features/attend.js:42-58 | with the shared schedule the trigger minute is three minutes before the configured period starts, and before it ends |
| `KyozaiParse.UniqueKeyInjective` | features/kyozaiopen.js:330-351 | two materials share a key iff they are of the same kind with the same identifier |
| `KyozaiParse.ReplaceAmp` | features/kyozaiopen.js:340 | replacing `&amp;` never lengthens the URL |
| `KyozaiParse.ReplaceAmpUndoesEscape` | features/kyozaiopen.js:340 | replacing every `&amp;` by `&` undoes HTML-escaping of `&` |
| `KyozaiParse.ReplaceAmpWithoutAmp` | features/kyozaiopen.js:340 | a URL without `&` is left unchanged |
| `KyozaiParse.StripTrailingSlash` | features/kyozaiopen.js:350 | the result is the URL or the URL minus one final `/`, the latter iff it ends in `/` |
| `KyozaiParse.DoubleSlashKeepsOne` | features/kyozaiopen.js:350 | only one trailing slash is removed: `a//` becomes `a/` |
| `KyozaiParse.ExtractMaterial` | features/kyozaiopen.js:323-355 | a material's name is the trimmed link text, which is non-empty |
| `KyozaiParse.ExtractCaptures` | features/kyozaiopen.js:328-336 | a download carries the file and detail IDs of the leftmost `downloadFile` match, and a reference the file ID and flag of the leftmost `openReference` match |
| `KyozaiParse.DownloadFileId` | features/kyozaiopen.js:328 | the file ID of a `downloadFile` match is non-empty and quote-free, and stands between `downloadFile('` and `',` |
| `KyozaiParse.ReferenceFileId` | features/kyozaiopen.js:333 | the file ID of an `openReference` match is non-empty and quote-free, and stands between `openReference('` and `'` |
| `KyozaiParse.ReferenceAt` | features/kyozaiopen.js:333-335 | `officeFlg` holds exactly when the file ID's closing quote is followed by a comma, white space and `true)` |
| `KyozaiParse.TailFlag` | features/kyozaiopen.js:333-335 | after the file ID, `)` gives a false flag, and a comma, white space and `true)` is the only way to a true one |
| `KyozaiParse.ExtractPriority` | features/kyozaiopen.js:326-354 | nothing for an empty name; otherwise `downloadFile` wins over `openReference`, which wins over `openWindow`; none of them gives nothing |
| `KyozaiParse.ExternalUrl` | features/kyozaiopen.js:338-351 | an external URL is the first `openWindow` argument with `&amp;` replaced, resolved, and at most one trailing slash removed |
| `KyozaiParse.ExternalOfWindow` | features/kyozaiopen.js:338-351 | an external material comes from the leftmost `openWindow` match, its URL resolved and stripped of one trailing slash |
| `KyozaiParse.FromRow` | features/kyozaiopen.js:310-321 | a detail row yields a material only when it has the material cell, the icon and an `onclick` link |
| `KyozaiParse.KeysOf` | features/kyozaiopen.js:284 | the key list lines up with the materials one for one |
| `KyozaiParse.FirstPerKeyKeys` | features/kyozaiopen.js:281-290 | after n candidates the Map holds exactly the keys found among them |
| `KyozaiParse.FirstOfKeyIffNew` | features/kyozaiopen.js:284 | a candidate is the first of its key iff no earlier candidate has that key |
| `KyozaiParse.FirstPerKeyIsFirstsOnly` | features/kyozaiopen.js:281-292 | the Map-filling loop keeps exactly the first material of each key, in document order |
| `KyozaiParse.FirstPerKeyDistinct` | features/kyozaiopen.js:279-292 | no two kept materials share a key |
| `KyozaiParse.FirstPerKeyCovers` | features/kyozaiopen.js:279-292 | every candidate's key is represented among the kept materials |
| `KyozaiParse.CollectFirstPerKey` | features/kyozaiopen.js:279-292 | the loop with its seen-key set returns the first material per unique key in document order |
| `KyozaiParse.KeepFirstPerKey` | features/kyozaiopen.js:281-290 | the loop with its set of seen keys keeps, in order, every candidate whose key no earlier candidate had |
| `KyozaiParse.FirstPerKeyStep` | features/kyozaiopen.js:284-287 | the Map gains a candidate exactly when it is the first of its key |
| `KyozaiParse.ParseFromLinks` | features/kyozaiopen.js:277-293 | `parseFromHtml` keeps the first material per key among the page's links |
| `KyozaiParse.ExtractFromDetailRows` | features/kyozaiopen.js:295-308 | `extractFromDetailPage` keeps the first material per key among the table rows |
| `KyozaiState.BulkRoundTrip` | features/kyozaiopen.js:150-169 | what `setBulkOperation` stores `getBulkOperation` reads back, changing nothing |
| `KyozaiState.TriggeredAfterSet` | features/kyozaiopen.js:150-183 | right after storing at time t, the trigger holds exactly while less than the one-minute session timeout has passed |
| `KyozaiState.ClearedIsNotTriggered` | features/kyozaiopen.js:185-191 | after clearing, the trigger never holds, the bulk data is gone and the completion keys are untouched |
| `KyozaiState.CompletionReadOnce` | features/kyozaiopen.js:193-213 | completion data written once is read back once; the second read gives nothing |
| `KyozaiState.CompletionKeysRemoved` | features/kyozaiopen.js:198-213 | with the flag `'true'` both completion keys are removed whatever the data; without it nothing changes; data is returned iff the flag is set and the data parses |
| `KyozaiState.StateManager.constructor` | features/kyozaiopen.js:138-140 | a new manager has no processed IDs and sees the storage as it is |
| `KyozaiState.StateManager.MarkProcessed` | features/kyozaiopen.js:146-148 | the ID joins the processed set and storage is untouched |
| `KyozaiState.StateManager.SetBulkOperation` | features/kyozaiopen.js:150-157 | the data, both flags and both timestamps are written |
| `KyozaiState.StateManager.GetBulkOperation` | features/kyozaiopen.js:159-169 | parsed data is returned; unparsable data clears the bulk keys and gives nothing |
| `KyozaiState.StateManager.IsButtonTriggered` | features/kyozaiopen.js:171-183 | the answer is the trigger test on the current storage and changes nothing; by `KyozaiState.TriggeredAfterSet` and `KyozaiState.ClearedIsNotTriggered` it holds for under a minute after a store and never after a clear |
| `KyozaiState.StateManager.ClearBulkOperation` | features/kyozaiopen.js:185-191 | exactly the five bulk keys are removed |
| `KyozaiState.StateManager.SetCompletionData` | features/kyozaiopen.js:193-196 | the completion flag and data are written, nothing else |
| `KyozaiState.StateManager.GetCompletionData` | features/kyozaiopen.js:198-213 | the read-once completion read on the manager's session storage |
| `KyozaiState.DetectCases` | features/kyozaiopen.js:221-238 | detail iff all three detail markers; main iff not detail and both main markers; unknown otherwise |
| `KyozaiState.ProcessMaterialFails` | features/kyozaiopen.js:363-505 | opening fails exactly for a download or reference with no session ID whose page function is missing or throws; external links always open |
| `KyozaiState.ThrowingPageFunctionFallsBack` | features/kyozaiopen.js:384-408 | a page `downloadFile` or `openReference` that throws is caught and the material goes on exactly as if the function were missing: to the hidden form when there is a session ID |
| `KyozaiState.ProcessMaterialTargets` | features/kyozaiopen.js:430-485 | form submissions carry the session ID and the file ID; references go to `downloadOffice` iff `officeFlg`, else `downloadImage`, in a new tab; only externals open a window |
| `KyozaiState.ProcessInSequence` | features/kyozaiopen.js:671-679 | each material is processed once, in order |
| `KyozaiState.Downloadables` | features/kyozaiopen.js:525 | exactly the download and reference materials are kept |
| `KyozaiState.Externals` | features/kyozaiopen.js:526 | exactly the external materials are kept |
| `KyozaiState.Opens` | features/kyozaiopen.js:632 | one open per material, in order |
| `KyozaiState.SplitIsPartition` | features/kyozaiopen.js:525-526 | the downloadables and the externals together are the materials, as a multiset |
| `KyozaiState.MainPageClick` | features/kyozaiopen.js:513-538 | the main-page click: a failed fetch alerts and restores the button, an empty list alerts, and otherwise `KyozaiState.MainPageClickSplits` shows the externals opening first with the downloadables stored for the detail page, or all opening directly when none is downloadable |
| `KyozaiState.MainPageClickSplits` | features/kyozaiopen.js:525-531 | with some download or reference, the externals open first and only the downloadables are stored for the detail page; otherwise every material is external and all open directly |
| `KyozaiState.ExternalsOfAllExternal` | features/kyozaiopen.js:525-531 | a list without downloadables is all external links |
| `KyozaiState.DetailPageClick` | features/kyozaiopen.js:540-573 | the detail-page click: no materials alerts, a declined confirmation only restores the button, and otherwise `KyozaiState.DetailPageOpensEach` shows every material opened exactly once, externals first, with the alert counting all |
| `KyozaiState.DetailPageOpensEach` | features/kyozaiopen.js:540-573 | on the detail page every material is opened exactly once (externals first) and the alert counts all of them |
| `KyozaiState.OpenedOfOpens` | features/kyozaiopen.js:558 | the materials opened by the open effects are the list itself |
| `KyozaiState.OpenAll` | features/kyozaiopen.js:598 | the stored materials are processed one by one |
| `KyozaiState.StoredOperationRunsOnce` | features/kyozaiopen.js:582-621 | a stored operation runs on the detail page iff less than a minute has passed; it then opens the stored materials in order, calls the page's `link` exactly when the page defines it, leaves completion data counting them and goes back through `bacKyozai` or to the stored return URL; otherwise it opens nothing, calls nothing, stays and clears the stored operation |
| `KyozaiState.AutoDownloadNeedsTrigger` | features/kyozaiopen.js:583-587 | nothing opens, `link` is not called and the page does not go back unless the trigger holds, and without it the bulk keys are cleared |
| `KyozaiState.ExecuteAutoDownload` | features/kyozaiopen.js:582-621 | the method returns the opened materials, whether the page's `link` was called and where the page goes back, and leaves the storage, all as the automatic-download function gives them; the processed IDs are unchanged |
| `KyozaiState.CheckForCompletionOnMain` | features/kyozaiopen.js:773-785 | the completion data is read once and, if any, the bulk operation is cleared |
| `KyozaiState.CompletionReportedOnce` | features/kyozaiopen.js:773-785 | a second completion check reports nothing |
| `KyozaiState.CellKeys` | features/kyozaiopen.js:720-734 | one optional key per material cell |
| `KyozaiState.CellKeysAt` | features/kyozaiopen.js:720-734 | the i-th key is the key of the i-th cell |
| `KyozaiState.NewButtons` | features/kyozaiopen.js:735-745 | the keys `addBulkOpenButtons` adds buttons for; by `KyozaiState.NewButtonsFresh`, `KyozaiState.NewButtonsCover` and `KyozaiState.ButtonsAddedOnce` only unprocessed keys get one, never twice, every key ends processed, and a second pass adds none |
| `KyozaiState.NewButtonsCover` | features/kyozaiopen.js:735-745 | after the pass every cell key is processed: it was already, or a button was added for it |
| `KyozaiState.SetOf` | features/kyozaiopen.js:745 | the set of added keys has exactly the list's members |
| `KyozaiState.NewButtonsFresh` | features/kyozaiopen.js:735-745 | buttons are added only for keys not yet processed, and never twice for one key |
| `KyozaiState.NewButtonsIdempotent` | features/kyozaiopen.js:735 | when every key is processed the pass adds nothing |
| `KyozaiState.AddBulkOpenButtons` | features/kyozaiopen.js:719-750 | the pass adds the specified buttons and marks exactly their keys processed, leaving storage alone |
| `KyozaiState.ButtonsAddedOnce` | features/kyozaiopen.js:719-750 | running the pass a second time over the same cells adds no button |
| `KyozaiState.InitializeUI` | features/kyozaiopen.js:705-717 | the automatic download is scheduled only on the detail page, the completion check runs only on the main page, and an unknown page sets up nothing |
| `Homework.ParseHomeworkData` | features/homework.js:105-132 | the row loop pushes exactly the items of the kept rows, in row order |
| `Homework.ItemsFromKeptRows` | features/homework.js:109-131 | an item is in the list iff some kept row produces it |
| `Homework.ItemsWellFormed` | features/homework.js:116-128 | every item has a non-empty deadline, homework name and lesson name, its lesson does not mention 学習支援センター, and it has both IDs or neither |
| `Homework.ItemsAtMostRows` | features/homework.js:109-131 | there are never more items than rows |
| `Homework.RenderItem` | features/homework.js:150-177 | an item gets its data attributes iff it gets the hand cursor iff both IDs are non-empty; the deadline is red iff it is between now and seven days ahead |
| `Homework.RenderItems` | features/homework.js:150-178 | one view per item, in order |
| `Homework.RenderHomework` | features/homework.js:145-179 | an empty list renders the single message, otherwise one view per item |
| `Homework.ClickableIffIds` | features/homework.js:62-70 | a rendered item is clickable exactly when its row carried both IDs non-empty |
| `Homework.SendHomework` | features/homework.js:77-98 | nothing is sent for an empty list, and something is sent otherwise, whatever the webhook URL |
| `Homework.SendSortsCopy` | features/homework.js:90-97 | the message holds the same items, sorted ascending by deadline, with equal deadlines in list order |
| `Homework.LoadingIndicator.constructor` | features/homework.js:199-201 | the notice starts at phase 0 |
| `Homework.LoadingIndicator.Tick` | features/homework.js:203-206 | each tick moves to the next phase modulo 4 |
| `Homework.PhaseAfter` | features/homework.js:203-206 | the phase stays among the four phases |
| `Homework.PhasesCycle` | features/homework.js:199-206 | after k ticks from phase p the phase is (p + k) mod 4, so the phases cycle 0→1→2→3→0 |
| `Homework.MainStart` | features/homework.js:217-234 | `main` stops iff neither form nor header exists, the container already exists, or there is no SID; it shows the list iff the form exists |
| `Homework.AfterLoad` | features/homework.js:281-301 | after loading, the container is replaced iff shown, the HTML is always cached, and items are sent iff the webhook setting is on and the list is non-empty |
| `Sorting.Insert` | features/homework.js:91-95 | inserting adds exactly one element |
| `Sorting.SortBy` | features/homework.js:91-95 | the sorted copy is a permutation of the input |
| `Sorting.InsertSorted` | features/homework.js:91-95 | inserting into a sorted list keeps it sorted |
| `Sorting.SortBySorted` | features/homework.js:91-95 | the copy is sorted ascending by the key |
| `Sorting.WithKeyInsert` | features/homework.js:91-95 | insertion puts the new element before the elements with its key |
| `Sorting.SortByStable` | features/homework.js:91-95 | elements with equal keys keep their relative order |
| `CourseFilter.CollapseSpaces` | features/subject.js:50 | the result has no white space other than single spaces, is empty iff the input is, and keeps a leading non-space character |
| `CourseFilter.CollapseKeeps` | features/subject.js:50 | a text that is already single-spaced is unchanged by the collapse |
| `CourseFilter.LastTwo` | features/subject.js:52 | `('0'+d).slice(-2)` is exactly the last two characters of `"0"+d` for non-empty `d` |
| `CourseFilter.Lookup` | features/subject.js:59-61 | the code is that of an entry with that name, and `""` when no entry has the name |
| `CourseFilter.LookupAt` | features/subject.js:59-61 | the first entry with a name decides its code |
| `CourseFilter.ExtractCardInfo` | features/subject.js:49-64 | the period code is non-empty iff the collapsed info text contains digits followed by 限 |
| `CourseFilter.RestAfterPeriod` | features/subject.js:51 | on collapsed text, the semester part of the match is everything after 限 |
| `CourseFilter.CardPeriodCode` | features/subject.js:49-64 | a card reading "N限 rest" gets period code "0N" and the trimmed rest as its semester text |
| `CourseFilter.PeriodLineMatch` | features/subject.js:49-52 | the leftmost period match of "N限 rest" captures the digit and everything after 限 |
| `CourseFilter.Quarter` | features/subject.js:85 | every month maps to a quarter between 1 and 4 |
| `CourseFilter.QuarterOfMonths` | features/subject.js:85 | months 4–5 give quarter 1, 6–7 give 2, 8–10 give 3, and 11–3 give 4 |
| `CourseFilter.QuarterTerms` | features/subject.js:92 | each quarter's terms are its own quarter, the matching half-year, and the full year |
| `CourseFilter.EmptyFormShowsAll` | features/subject.js:73-108 | a manual form with nothing selected shows every card |
| `CourseFilter.AutoIgnoresCheckedTerms` | features/subject.js:91-99 | in automatic mode the checked semester codes do not affect visibility |
| `CourseFilter.DayFilterNarrows` | features/subject.js:101-102 | choosing a day only hides cards; a card that was shown stays shown iff its day code is the chosen one |
| `CourseFilter.ClearingFiltersWidens` | features/subject.js:101-106 | the day, period and name filters only narrow the term test: with them cleared, a card is shown iff it passes the term test |
| `CourseFilter.EmptyNameMatches` | features/subject.js:104-105 | an empty name filter excludes nothing |
| `CourseFilter.ContainedNameMatches` | features/subject.js:104-105 | a name holding the trimmed filter at some position, whatever the case of its letters there, passes the name test |
| `CourseFilter.FullWidthNameMatches` | features/subject.js:104 | the filter `ａｂｃ` finds the course `ＡＢＣ演習`: full-width letters are folded as `toLowerCase` folds them |
| `Text.ToLowerIdempotent` | features/subject.js:78 | lower-casing twice is lower-casing once, and the result has no upper-case letter left |
| `Text.ToLowerFoldsCase` | features/subject.js:104 | two strings whose characters lower-case alike lower-case to the same string |
| `CourseFilter.AutoTermsByMonth` | features/subject.js:91-96 | automatic mode always shows full-year courses, shows first-half courses in April–July and second-half courses in August–March |
| `CourseFilter.TodayCode` | features/subject.js:122 | each weekday has a one-character code |
| `CourseFilter.TodayMatchesDayBox` | features/subject.js:59 | today's code equals the code of the day box titled with today's label, so the two tables agree |
| `CourseFilter.ClockText` | features/subject.js:121 | the padded "HH:MM" text is a valid clock string that denotes exactly `hours*60+minutes` |
| `CourseFilter.ClockOrder` | features/subject.js:124 | on valid "HH:MM" strings, string order is the same as time order |
| `CourseFilter.CurrentPeriod` | features/subject.js:124 | the period found is in the timetable and contains the time; none is found only when no period contains it |
| `CourseFilter.CurrentIsOnly` | features/subject.js:124 | in a timetable whose periods are separated by gaps, the period containing a time is the one found |
| `CourseFilter.RemoveFirst` | features/subject.js:127 | removing the first occurrence of a character shortens the text by one when it occurs and leaves it unchanged otherwise |
| `CourseFilter.HighlightCode` | features/subject.js:125-127 | a period stands for a code iff its name contains 限 |
| `CourseFilter.HighlightCodesOfTimetable` | features/subject.js:125-127 | each class period "N限" of the normal timetable stands for "0N", and the lunch break stands for no code |
| `CourseFilter.ClassNameCode` | features/subject.js:127 | a name "d限" stands for the period code "0d" |
| `CourseFilter.HighlightedNowByTarget` | features/subject.js:116-135 | a card is highlighted iff it is shown, a class period is running, and its day and period codes are today's and that period's |
| `CourseFilter.PeriodCodeOfClass` | features/subject.js:127 | class period N stands for the period code "0N" |
| `CourseFilter.HighlightedNowIs` | features/subject.js:125-134 | during a class period, a card is highlighted iff it is shown and both its day code and period code match |
| `CourseFilter.NoHighlightOutsideClasses` | features/subject.js:124-125 | outside every class period, and during lunch, no card is highlighted |
| `CourseFilter.OnlyLunchOutsideClasses` | features/subject.js:124 | outside every class period of the normal timetable the only period `find` can return is the lunch break |
| `CourseFilter.HighlightDuringPeriod` | features/subject.js:116-135 | a shown card "N限 …" in today's day box is highlighted while period N is running |
| `CoursePage.CourseList.constructor` | features/subject.js:87-113 | every card and day box starts shown, and no card is highlighted |
| `CoursePage.CourseList.ApplyClientSideFilter` | features/subject.js:73-114 | each card is shown iff it passes the visibility test, each day box is shown iff one of its cards is shown, and highlights are unchanged |
| `CoursePage.AnyShownIn` | features/subject.js:111-112 | the result is true iff some card of that box is shown |
| `CoursePage.BoxesShown` | features/subject.js:110-113 | each day box is shown iff one of its cards is shown |
| `CoursePage.CourseList.HighlightCurrentClass` | features/subject.js:116-135 | after the call, a card is highlighted iff it is the highlighted-now card for that day and time; visibility is unchanged |
| `CoursePage.MarkCurrent` | features/subject.js:129-135 | a card is marked iff it is shown and carries today's day code and the current period code |
| `CoursePage.FilterCards` | features/subject.js:87-108 | each card's display flag is exactly its visibility under the form and month |
| `CoursePage.FilterInfos` | features/subject.js:87-108 | the loop over the extracted card information sets each display flag to the card's visibility under the form and month |
| `CoursePage.MarkMatching` | features/subject.js:129-135 | the loop marks exactly the shown cards whose day and period codes are today's and the running period's |
| `CoursePage.MarkTarget` | features/subject.js:125-135 | with no running class period nothing is marked; otherwise exactly the shown cards with today's code and that period's code |
| `CoursePage.HighlightedCards` | features/subject.js:116-135 | each card is marked iff the highlight test holds for it at that weekday and time |
| `CoursePage.HighlightAgrees` | features/subject.js:124-135 | marking against today's code and the running period's code is the highlight test, card by card |
| `DomUtils.SidAtSpec` | features/modules/dom-utils.js:83-86 | a match at a position is "SID=" followed by a maximal non-empty run of ASCII letters and digits; no match there means no "SID=" or no letter or digit after it |
| `DomUtils.GetSidSpec` | features/modules/dom-utils.js:83-86 | the SID is the run after the first "SID=" that has one; there is none iff no "SID=" is followed by a letter or digit |
| `DomUtils.SidOfLmsUrl` | features/modules/dom-utils.js:83-86 | a URL with one ";SID=" followed by an alphanumeric ID and a non-alphanumeric tail yields exactly that ID |
| `DomUtils.SelectorsAgree` | features/modules/dom-utils.js:55-77 | the single query finds something iff the list query is non-empty, and then it finds the list's first element |
| `DomUtils.ElementWaiter.constructor` | features/modules/dom-utils.js:15-21 | a present element resolves at once; otherwise the promise is pending with the observer and the timer both live |
| `DomUtils.ElementWaiter.OnMutation` | features/modules/dom-utils.js:25-32 | a mutation that shows the element clears the timer, stops the observer and resolves with the element; any other event changes nothing |
| `DomUtils.ElementWaiter.OnTimeout` | features/modules/dom-utils.js:35-39 | an armed timer stops the observer and resolves with null; a cleared timer does nothing |
| `DomUtils.NullIffTimeoutFirst` | features/modules/dom-utils.js:15-47 | the promise resolves with null iff the timeout comes before any mutation that shows the element |
| `DomUtils.RunWaiter` | features/modules/dom-utils.js:15-47 | feeding events to the waiter one at a time gives the outcome the specification function predicts |
| `AutoLogin.Dispatch` | features/AutoLogin.js:84-105 | without a non-empty user name and password no handler runs; otherwise the handler is the one for the first URL prefix `href` starts with, each case as an if-and-only-if |
| `AutoLogin.NotBothPrefixes` | features/AutoLogin.js:94-104 | two prefixes that differ at some index cannot both start one URL |
| `AutoLogin.PrefixesExclusive` | features/AutoLogin.js:94-104 | no URL starts with two of the five login-flow prefixes, so the order of the tests does not matter |
| `AutoLogin.MissingCredentialsDoNothing` | features/AutoLogin.js:87-90 | with a missing or empty credential, the page is left untouched |
| `AutoLogin.OneStepPerRun` | features/AutoLogin.js:26-105 | a run clicks, submits or navigates, never two of these; a submitted form carries exactly one credential, typed into an input that exists, and the user name goes only to the pre-login page and the password only to the login page |
| `AutoLogin.StartPageClicks` | features/AutoLogin.js:26-35 | the start page clicks the login button if there is one, otherwise the login link if there is one |
| `AutoLogin.SubmitNeedsInputAndForm` | features/AutoLogin.js:41-67 | the pre-login and login pages submit iff their input and `form#login` are both present |
| `AutoLogin.RecoveryPagesNavigate` | features/AutoLogin.js:70-78 | the timeout page goes to "/user/" and the error page to the LMS login path, with nothing else touched; that path is the LMS login URL's path |
| `AutoLogin.LoginDocument.constructor` | features/AutoLogin.js:84 | a freshly loaded page has had nothing done to it |
| `AutoLogin.LoginDocument.HandleLmsStartPage` | features/AutoLogin.js:26-35 | the page ends in the state the start-page effect describes |
| `AutoLogin.LoginDocument.HandlePreLogin` | features/AutoLogin.js:41-51 | the page ends in the state the pre-login effect describes |
| `AutoLogin.LoginDocument.HandleLogin` | features/AutoLogin.js:57-67 | the page ends in the state the login effect describes |
| `AutoLogin.LoginDocument.SsoTimeoutPage` | features/AutoLogin.js:70-72 | the window's path becomes "/user/" |
| `AutoLogin.LoginDocument.LmsErrorPage` | features/AutoLogin.js:76-78 | the window's path becomes the LMS login path |
| `AutoLogin.LoginDocument.Run` | features/AutoLogin.js:84-105 | one run leaves the page in exactly the state `MainEffect` predicts |
| `Meet.FlagsMonotone` | features/meet.js:19-64 | neither step, and no callback, ever clears a flag |
| `Meet.LeaveControlSetsBoth` | features/meet.js:22-27 | when the call is already joined, the camera step sets both flags and clicks nothing |
| `Meet.CameraMicNeedsAButton` | features/meet.js:29-45 | outside a call, the camera step completes iff a camera-off or microphone-off button is found; it clicks exactly the buttons found, camera first, and leaves the join flag alone |
| `Meet.JoinNeedsLeaveControl` | features/meet.js:52-64 | the join step clicks "join now" iff the button is there, and sets its flag iff the call is joined after the click |
| `Meet.DoneStepsIdle` | features/meet.js:20-53 | a step whose flag is set does nothing, and a callback after everything is done clicks nothing |
| `Meet.DisconnectWhenDone` | features/meet.js:67-81 | a callback disconnects iff both flags end up set and the call is joined; a callback that finds the call joined before and after disconnects unless the join flag is still unset and no join button is found |
| `Meet.MeetAutoJoin.constructor` | features/meet.js:11-92 | the script starts with both flags false, the observer connected and the timer armed |
| `Meet.MeetAutoJoin.DisableCameraAndMic` | features/meet.js:19-46 | the flags and clicks become those the camera step predicts; the observer and timer are untouched |
| `Meet.MeetAutoJoin.ClickJoinButton` | features/meet.js:52-64 | the flags and clicks become those the join step predicts; the observer and timer are untouched |
| `Meet.MeetAutoJoin.OnMutation` | features/meet.js:73-82 | a connected observer runs both steps and disconnects iff all tasks are complete; a disconnected one does nothing; flags never go back |
| `Meet.MeetAutoJoin.OnTimeout` | features/meet.js:90-92 | the timer disconnects the observer and changes nothing else |
| `GasReminder.UpdateHomeworkList` | gas/autosetup.js:321-354 | the method's filter passes, counters and pushes yield exactly the merge result the specification function defines |
| `GasReminder.SelectValid` | gas/autosetup.js:322-325 | the valid entries are those with a deadline other than ‐, and the key set is exactly their keys |
| `GasReminder.KeepCurrent` | gas/autosetup.js:329-336 | the stored entries whose key is listed are kept in order, and the count is how many were dropped |
| `GasReminder.AddNew` | gas/autosetup.js:338-351 | each valid entry whose key no kept entry has is appended with fresh reminders, and the count is how many were appended |
| `GasReminder.ValidMembers` | gas/autosetup.js:322 | an entry is in the valid list iff it is an incoming entry with a deadline that is non-empty and does not trim to '‐' |
| `GasReminder.IncomingKeyMembers` | gas/autosetup.js:325 | a key is an incoming key iff some valid incoming entry has it |
| `GasReminder.Merge` | gas/autosetup.js:322-353 | the `updateHomeworkList` merge; by `GasReminder.MergeKeeps`, `GasReminder.MergeAdds` and `GasReminder.MergeIdempotent` stored entries survive iff still listed, new valid entries are appended with reminders unset, and posting the same list twice changes nothing |
| `GasReminder.MergeKeeps` | gas/autosetup.js:322-353 | a stored entry survives iff some valid incoming entry has its key; survivors come first in stored order; ignored + valid = incoming, removed + kept = current, and the new length is current − removed + added |
| `GasReminder.MergeAdds` | gas/autosetup.js:338-351 | an entry is appended, with all reminders unset, for each valid incoming entry, duplicates included, whose key no survivor has |
| `GasReminder.MergedKeys` | gas/autosetup.js:321-354 | every key in the merged list is an incoming key, and every incoming key appears in it |
| `GasReminder.MergedEntryListed` | gas/autosetup.js:329-351 | each merged entry has an incoming key |
| `GasReminder.IncomingKeyKept` | gas/autosetup.js:329-351 | each incoming key is the key of some merged entry |
| `GasReminder.MergeIdempotent` | gas/autosetup.js:321-354 | posting the same list a second time adds nothing and removes nothing |
| `GasReminder.RemoveWeekday` | gas/autosetup.js:372 | the first weekday marker " (X)" is removed, or the text is unchanged |
| `GasReminder.Slashes` | gas/autosetup.js:373 | every 年 and 月 becomes '/', and the length is kept |
| `GasReminder.RemoveFirstDay` | gas/autosetup.js:373 | at most one character, the first 日, is removed |
| `GasReminder.DeadlineText` | gas/autosetup.js:372-373 | the text given to the date parser contains no 年 or 月 |
| `GasReminder.RemindSpec` | gas/autosetup.js:381-388 | after the checks each flag is set iff it was already set or its check is due; the entry changes iff some reminder newly falls due; only the flags change |
| `GasReminder.DueNested` | gas/autosetup.js:375-388 | the 1-hour check is due only if the 6-hour one is, and the 6-hour one only if the 18-hour one is |
| `GasReminder.RemindLater` | gas/autosetup.js:381-388 | flags are monotone: a run after an earlier run ends where the later run alone would, and a repeat at the same time sends nothing |
| `GasReminder.RemindAll` | gas/autosetup.js:371-389 | every entry is checked, and the list keeps its length |
| `GasReminder.RemindAllAt` | gas/autosetup.js:371-389 | each entry of the result is that entry after its own checks |
| `GasReminder.AnyDueStep` | gas/autosetup.js:386 | the "updated" flag grows by exactly the entries whose reminders newly fall due |
| `GasReminder.CheckDeadlines` | gas/autosetup.js:356-389 | the loop yields the checked list, the three queues as defined, and "updated" iff some reminder newly fell due |
| `GasReminder.QueueNext` | gas/autosetup.js:381-388 | one more homework joins a reminder queue exactly when that reminder newly fell due for it |
| `GasReminder.RewriteOnlyOnChange` | gas/autosetup.js:403-405 | the stored data is rewritten iff the run changed some entry |
| `GasReminder.OtherHomeworksSpec` | gas/autosetup.js:442-471 | the list holds exactly the entries outside the mail's group with a deadline still ahead, rearranging the filtered entries without adding or dropping any (the same multiset), sorted ascending by deadline; the section is empty iff the list is |
| `GasSetup.Step` | gas/autosetup.js:132-142 | one interval tick of the polling wait; by `GasSetup.FoundResolves`, `GasSetup.CancelRejects`, `GasSetup.MissesTimeOut` and `GasSetup.SettledStays` a find resolves, a cancel rejects, misses time out after `timeout` ms, and a settled wait stays settled |
| `GasSetup.SettledStays` | gas/autosetup.js:127-144 | once the promise has settled, further ticks do not change its value |
| `GasSetup.MissesTimeOut` | gas/autosetup.js:138-141 | fruitless ticks leave the wait pending while `n*500 <= timeout`, and the first tick past that rejects it and clears the interval |
| `GasSetup.DefaultGivesUpAt21` | gas/autosetup.js:127-144 | with the default 10 s timeout, the wait is pending after 20 fruitless ticks and rejected after 21 |
| `GasSetup.FoundResolves` | gas/autosetup.js:135-137 | a tick that finds the element while the wait is pending resolves it and clears the interval |
| `GasSetup.CancelRejects` | gas/autosetup.js:133 | a cancelled tick rejects a pending wait and leaves the interval running |
| `GasSetup.RunAppend` | gas/autosetup.js:132 | running two stretches of ticks equals running them one after the other |
| `GasSetup.FindButton` | gas/autosetup.js:232 | the index found is the first button whose trimmed text matches and which is visible and enabled; none is found iff no button matches |
| `GasSetup.Poller.constructor` | gas/autosetup.js:128-131 | a new wait starts with no attempts, the interval running and the promise pending |
| `GasSetup.Poller.OnTick` | gas/autosetup.js:132-142 | one interval callback moves the state exactly as the step function says |
| `ScriptsConfig.IdsUnique` | scripts.config.js:53-144 | no two entries of the content-script table and the set-up entry share an ID |
| `ScriptsConfig.StorageKeysUnique` | scripts.config.js:53-133 | no two entries share a storage key, so a key identifies at most one entry |
| `ScriptsConfig.DefaultPanelOrder` | scripts.config.js:53-133 | the default-on entries with an options panel are the login entry, then the homework entry |
| `ScriptsConfig.AttendBeforeMeet` | scripts.config.js:70-85 | the auto-attend entry comes before the Meet entry in the table |
| `ScriptsConfig.ModulesFeatureLast` | scripts.config.js:57-97 | each of the three `js` shapes ends with the feature script, after the shared modules in a fixed order |
| `ScriptsConfig.FeatureScriptLast` | scripts.config.js:53-133 | every entry injects its own feature script last |
| `ScriptsConfig.EntryFeatureLast` | scripts.config.js:53-133 | entry i injects its own feature script last |
| `Registry.AfterRegister` | background.js:10-22 | after registering, the ID is present and nothing else changed; a duplicate ID leaves the table as it was |
| `Registry.AfterUnregister` | background.js:28-38 | after unregistering, the ID is absent and nothing else changed; an absent ID is a no-op |
| `Registry.ReRegister` | background.js:119-120 | unregistering and then registering leaves exactly the old set plus the ID |
| `Registry.ScriptRegistry.constructor` | background.js:12 | the registry starts with the given IDs |
| `Registry.ScriptRegistry.Register` | background.js:10-22 | the set of IDs becomes the registration result |
| `Registry.ScriptRegistry.Unregister` | background.js:28-38 | the set of IDs becomes the unregistration result |
| `Background.FindIndex` | background.js:114 | the index found is the first entry with that storage key; none is found iff no entry has it |
| `Background.TableUnique` | scripts.config.js:53-133 | two different table entries differ in both ID and storage key |
| `Background.FindConfigOfKey` | background.js:114 | a storage key of the table finds its own entry |
| `Background.MeetConfigFound` | background.js:62-137 | the lookup of the Meet entry always succeeds |
| `Background.ApplyChange` | background.js:113-142 | one entry of the `onChanged` listener; by `Background.ApplyChangeEffect` a truthy value registers every script the key governs, Meet too for `autoAttend`, a falsy one unregisters them, and an unknown key does nothing |
| `Background.ApplyChangeEffect` | background.js:113-142 | a truthy value registers every script the key governs (the Meet script too for `autoAttend`), a falsy one unregisters them all, and nothing else changes; a key outside the table is ignored |
| `Background.GovernedOfEntry` | background.js:113-128 | a key of the table governs its entry's script, and `autoAttend` the Meet script too |
| `Background.GovernedOfUnknown` | background.js:114-115 | a key outside the table governs nothing |
| `Background.ChangesSettle` | background.js:110-143 | after a batch of changes, a script no changed key governs is as it was, and a script governed by exactly one changed key follows that key's value |
| `Background.ChangesAreEffects` | background.js:110-143 | applying the changes in order is applying their effects in order |
| `Background.EffectsSettle` | background.js:110-143 | a script no effect touches is as it was, and one that exactly one effect touches follows that effect |
| `Background.InitStepEffect` | background.js:53-68 | one pass unregisters the entry when its switch is off, and otherwise registers it (and the Meet script for `autoAttend`) |
| `Background.InitPrefix` | background.js:53-69 | after the first n entries, each visited entry is registered iff its own switch is on; an unvisited script is as it was, except the Meet script right after the auto-attend entry |
| `Background.InitializeSettles` | background.js:43-70 | after start-up, each table script is registered iff its own switch is on, so the Meet script follows `autoMeet`; scripts outside the table are untouched |
| `Background.DefaultFlagsMembers` | background.js:82-89 | the installed switches are exactly the keys of default-on entries, each set to true |
| `Background.DefaultsRegisterDefaultOn` | background.js:77-97 | starting up with the installed defaults registers exactly the default-on scripts, and the panel order is login, then homework |
| `Background.InjectMessages` | background.js:191-194 | `gassetup` registers the set-up script, `gassetupstop` unregisters it, and any other data does nothing |
| `Background.ReRegisterMeet` | background.js:124-128 | the Meet script ends registered exactly as the re-registration function says |
| `Background.OnChanged` | background.js:110-143 | in the sync area, the registry ends as the changes applied in order; any other area changes nothing |
| `Background.InitializeScripts` | background.js:43-70 | a storage error leaves the registry alone; otherwise it ends as the start-up pass over the table |
| `Background.OnInstalled` | background.js:77-97 | a fresh install saves the default switches and panel order and leaves the registry alone; an update runs the start-up pass |
| `Background.OnInjectMessage` | background.js:157-196 | only an `inject` message that is not an `openTab` action changes the registry, as the inject effect says |
| `LegacyInject.SwitchesUnique` | inject.js:69-116 | each of the nine keys, and each script ID, appears once |
| `LegacyInject.ToggleEffect` | inject.js:122-165 | a truthy value adds the script, plus the Meet script for auto-attend; a falsy one removes only the script |
| `LegacyInject.ChangesPrefix` | inject.js:69-117 | after the first n tests, each changed key decides its own script, unchanged scripts stay as they were, and the Meet script is as `MeetAfter` says |
| `LegacyInject.ChangesNext` | inject.js:69-117 | one more switch test: the script is removed, or added with the Meet script for auto-attend, or nothing when the key did not change |
| `LegacyInject.SwitchDecides` | inject.js:69-117 | a changed switch other than Meet decides its own script |
| `LegacyInject.OthersKept` | inject.js:69-117 | a script that no changed switch names, other than Meet, is as it was |
| `LegacyInject.MeetFollows` | inject.js:69-117 | the Meet script ends registered as the Meet rule over the tests says |
| `LegacyInject.ChangesSettle` | inject.js:69-118 | after the listener, every changed switch decides its own script; the Meet script follows `autoMeet` if it changed, and otherwise is registered if auto-attend was turned on or it already was |
| `LegacyInject.AttendAlone` | inject.js:83-156 | turning auto-attend on registers both its script and the Meet script; turning it off removes only its own script |
| `LegacyInject.InstallIsChangeOfAll` | inject.js:8-61 | installation does the same as changing every key to its stored value, with a missing key read as off |
| `LegacyInject.AllChangedAt` | inject.js:8-61 | in the change standing for installation, each switch key maps to its stored value, a missing key reading as off |
| `LegacyInject.EnableScript` | inject.js:128-210 | the registry ends as `Enable` says: registered without unregistering first, with the Meet script before auto-attend |
| `LegacyInject.DisableScript` | inject.js:122-126 | the script is removed only if it is registered |
| `LegacyInject.ToggleScript` | inject.js:72-75 | one switch test moves the registry as `Toggle` says |
| `LegacyInject.OnChangedKey` | inject.js:72-116 | an absent key does nothing, and a present key toggles its script by its new value |
| `LegacyInject.OnChanged` | inject.js:69-118 | in the sync area the registry ends as the nine tests applied in order; other areas change nothing |
| `LegacyInject.InstallKey` | inject.js:16-19 | one install callback toggles its script by the stored value, a missing key reading as off |
| `LegacyInject.OnInstalled` | inject.js:8-61 | the registry ends as the nine install callbacks applied in order |
| `Settings.SettingIdsUnique` | setting/modules/settings.js:14-41 | no two entries of the settings table share an element ID |
| `Settings.SettingKeysUnique` | setting/modules/settings.js:14-41 | no two entries share a storage key |
| `Settings.SettingAreas` | setting/modules/settings.js:14-41 | only the user name and password are kept in local storage; every entry names its area, and none uses the options-order key |
| `Settings.SavedSpec` | setting/modules/settings.js:53-59 | a key is saved in an area iff an entry of that area has it and its element is on the page; the value saved is that element's property |
| `Settings.CredentialsStayLocal` | setting/modules/settings.js:16-59 | the credentials are never written to synced storage |
| `Settings.KeyLists` | setting/modules/settings.js:81-84 | the sync list is the synced entries' keys followed by `optionsOrder`; the local list is the local entries' keys; each entry's key is in exactly one list |
| `Settings.KeyListMembers` | setting/modules/settings.js:81-84 | a key is in the sync list iff it is `optionsOrder` or a synced entry's key, in the local list iff a local entry's key, and the sync list ends with `optionsOrder` |
| `Settings.KeyAreasExclusive` | setting/modules/settings.js:81-84 | with unique keys, every entry's key is in exactly one of the two lists |
| `Settings.AppliedSpec` | setting/modules/settings.js:94-105 | each element of an entry holds the stored value when there is one, subject to the type check, and is otherwise untouched; elements of no entry are untouched |
| `Settings.AppliedEntry` | setting/modules/settings.js:94-105 | the element of entry i holds the stored value, subject to the type check, when the key was loaded, and is untouched otherwise |
| `Settings.AppliedOther` | setting/modules/settings.js:94-105 | an element that no entry names is untouched |
| `Settings.AppliedTypeCheck` | setting/modules/settings.js:96-103 | a value of the wrong type changes nothing; one of the right type replaces exactly the expected property |
| `Settings.ApplyReadKeeps` | setting/modules/settings.js:57-100 | writing back the value just read through a property changes nothing |
| `Settings.LoadFindsSaved` | setting/modules/settings.js:53-92 | for each entry whose element is present, loading finds exactly the value saving stored under its key |
| `Settings.SaveLoadRoundTrip` | setting/modules/settings.js:47-113 | loading exactly what saving stored leaves every element of the page as it was |
| `Settings.ListenersSpec` | setting/modules/settings.js:118-125 | a listener is added for each present element of the table: `input` for text fields, `change` for checkboxes |
| `Settings.SettingsPage.constructor` | setting/modules/settings.js:118 | the page starts with its elements, no listeners and no events |
| `Settings.SettingsPage.SaveSettings` | setting/modules/settings.js:47-74 | returns what the save function defines, then dispatches "saved", or an error when a write fails; the elements are untouched |
| `Settings.SettingsPage.CollectSettings` | setting/modules/settings.js:53-59 | the loop reads each entry with an element into its storage area, as the save function defines |
| `Settings.SettingsPage.LoadAndApplySettings` | setting/modules/settings.js:80-113 | a failed read dispatches an error and changes nothing; otherwise the elements become the loaded state and "loaded" is dispatched |
| `Settings.SettingsPage.ApplySettings` | setting/modules/settings.js:94-105 | the loop leaves the elements as the apply function defines, and events and listeners untouched |
| `Settings.SettingsPage.AddEventListenersToSettings` | setting/modules/settings.js:118-126 | the listeners added are exactly the ones `ListenersSpec` describes, in table order |
| `Settings.SettingsPage.AddListeners` | setting/modules/settings.js:119-125 | the loop appends one listener per entry with an element, in table order, and changes nothing else |
| `SettingsUi.Without` | setting/modules/ui.js:369 | filtering out IDs never lengthens the list |
| `SettingsUi.WithoutMembers` | setting/modules/ui.js:369 | an ID survives the filter iff it was in the list and not dropped |
| `SettingsUi.WithoutTwice` | setting/modules/ui.js:369 | filtering twice equals filtering once by both sets |
| `SettingsUi.WithoutDistinct` | setting/modules/ui.js:369 | filtering keeps a list free of repeats |
| `SettingsUi.NewOrder` | setting/modules/ui.js:367-375 | the new panel order; by `SettingsUi.NewOrderSpec`, `SettingsUi.NewOrderIdempotent` and `SettingsUi.NewOrderDistinct` a switched-on option occurs once, last, a switched-off one is absent, the others keep their order, and repeating the update changes nothing |
| `SettingsUi.NewOrderSpec` | setting/modules/ui.js:367-375 | after the update the option occurs exactly once, last, if it was switched on, and not at all otherwise; the other IDs keep their order |
| `SettingsUi.NewOrderIdempotent` | setting/modules/ui.js:367-375 | repeating the same update changes nothing |
| `SettingsUi.NewOrderDistinct` | setting/modules/ui.js:367-375 | an order without repeats stays without repeats |
| `SettingsUi.AppendAllSpec` | setting/modules/ui.js:355-357 | appending distinct elements one by one puts them at the end, in order, after the children left in place |
| `SettingsUi.AppendAllConcat` | setting/modules/ui.js:355-357 | two rounds of appends equal one round over the concatenated list |
| `SettingsUi.PanelOrder` | setting/modules/ui.js:322-359 | with a stored order free of repeats, the children end up as the unmoved ones, then the listed panels on the page in stored order, then the unlisted panels in default order; the unlisted panels are exactly the three panels not in the order |
| `SettingsUi.ShownPanelsSpec` | setting/modules/ui.js:335-341 | a panel has the `visible` class iff the stored order lists it; other elements keep their class |
| `SettingsUi.AttendNeedsMeet` | setting/modules/ui.js:128-133 | after the auto-attend handler, auto-attend on implies Meet on, only the Meet switch moves, and a `change` is fired iff it moved |
| `SettingsUi.ThemesExclusive` | setting/modules/ui.js:135-147 | neither theme handler leaves both themes checked, each keeps the switch just changed, and without a custom-theme checkbox neither does anything. The shipped page never caches that checkbox (the lookup at setting/modules/ui.js:58 is commented out), so there `customTheme` is `None` and this last case is the one that runs |
| `SettingsUi.NotificationNeedsScriptUrl` | setting/modules/ui.js:225-236 | the checkbox stays checked iff the URL is non-empty and starts with the Apps Script prefix; a refused check always shows a message, the set-up message for an empty URL |
| `SettingsUi.HighlightedSpec` | setting/modules/ui.js:262-274 | a container with both a checkbox and a label has the gradient iff its checkbox is checked; one missing either is untouched; the update is idempotent |
| `SettingsUi.OptionsPage.constructor` | setting/modules/ui.js:17-42 | the page starts with its children, switches and containers, no panel shown, and no modal or fired events |
| `SettingsUi.OptionsPage.ReorderAndShowPanels` | setting/modules/ui.js:322-359 | with the container and all three panels present, the visible set and child order become those the specification functions define; otherwise nothing changes |
| `SettingsUi.OptionsPage.ShowPanels` | setting/modules/ui.js:335-341 | the visible set becomes `ShownPanels` of the old one |
| `SettingsUi.OptionsPage.AppendChildren` | setting/modules/ui.js:355-357 | the children become the result of appending each element in turn |
| `SettingsUi.OptionsPage.UpdateOptionsOrder` | setting/modules/ui.js:367-377 | the stored order becomes `NewOrder` of the old one; when the container and the three panels are present, exactly the listed panels become visible and the children are rearranged by the new order, as `reorderAndShowPanels` does, and otherwise nothing moves; switches, checkbox, modal, containers and fired events are untouched |
| `SettingsUi.OptionsPage.OnAutoAttendChange` | setting/modules/ui.js:128-133 | the switches and fired events become those of the auto-attend handler; panels, containers, the notification checkbox and the modal are untouched |
| `SettingsUi.OptionsPage.OnDarkModeChange` | setting/modules/ui.js:135-140 | the switches and fired events become those of the dark-mode handler; panels, containers, the notification checkbox and the modal are untouched |
| `SettingsUi.OptionsPage.OnCustomThemeChange` | setting/modules/ui.js:142-147 | the switches and fired events become those of the custom-theme handler; panels, containers, the notification checkbox and the modal are untouched |
| `SettingsUi.OptionsPage.OnNotificationChange` | setting/modules/ui.js:225-253 | the checkbox and modal end as the notification handler says; the modal changes only when it is on the page; switches, panels, containers and fired events are untouched |
| `SettingsUi.OptionsPage.UpdateSwitchGradientLabels` | setting/modules/ui.js:262-274 | every container becomes its highlighted form; switches, panels, the notification checkbox, the modal and fired events are untouched |
| `Changelog.ReplaceCharMembers` | docs/script.js:277 | a one-character global replace only introduces the replacement's characters, and leaves a text without that character unchanged |
| `Changelog.EscapeSpec` | docs/script.js:277 | no raw `<` or `>` survives the escaping, and a body without them is unchanged |
| `Changelog.MarkerEnd` | docs/script.js:291-295 | the returned position ends the run of list-marker characters (white space, `*`, `・`, `-`) |
| `Changelog.StripMarkers` | docs/script.js:295 | the item text is a suffix of the trimmed line that does not start with a marker |
| `Changelog.RunEnd` | docs/script.js:302 | the returned position ends the run of `#` characters |
| `Changelog.HeadingText` | docs/script.js:302 | the heading text is a suffix of the trimmed line |
| `Changelog.Close` | docs/script.js:281-286 | after `finalizeLi` no item is open |
| `Changelog.ChangelogOf` | docs/script.js:275-276 | the placeholder is used exactly when the body is missing or empty |
| `Changelog.ParseLines` | docs/script.js:278-309 | the loop over the lines produces exactly the parts of the line-by-line specification, open item flushed at the end |
| `Changelog.ParseLine` | docs/script.js:288-307 | the loop body for line i takes the state after i lines to the state after i + 1 |
| `Changelog.Kinds` | docs/script.js:288-307 | each line is classified once, in order |
| `Changelog.CreateChangelog` | docs/script.js:275-309 | the card's changelog is the placeholder or the parsed parts of the escaped, split body |
| `Changelog.ListItemOpensItem` | docs/script.js:291-295 | a list-item line closes the open item and opens a new one whatever its indentation, since the list test comes first |
| `Changelog.IndentedLineContinuesItem` | docs/script.js:290-298 | an indented non-list line while an item is open emits nothing and strictly extends the open item |
| `Changelog.BlankLineCloses` | docs/script.js:299-306 | a line blank after trimming only closes the open item |
| `Changelog.HeadingTextOk` | docs/script.js:301-302 | a heading's text does not start with white space |
| `Changelog.CloseOk` | docs/script.js:281-286 | closing keeps every pushed part well formed |
| `Changelog.Step` | docs/script.js:288-307 | one line of the changelog parser; by `Changelog.StepOk`, `Changelog.StepCount` and `Changelog.StepSafe` it keeps pushed parts well formed, adds one item iff it opens an item with content, and adds no raw angle bracket to headings or paragraphs |
| `Changelog.StepOk` | docs/script.js:288-307 | each line keeps every pushed part well formed |
| `Changelog.RunOk` | docs/script.js:288-307 | after any number of lines every pushed part is well formed |
| `Changelog.ClassifyOk` | docs/script.js:289-306 | a list item's text never starts with a marker, and a heading or text line yields a well-formed part |
| `Changelog.StepKindOk` | docs/script.js:288-307 | each classified line keeps every pushed part well formed |
| `Changelog.RunKindsOk` | docs/script.js:288-307 | after any number of classified lines every pushed part is well formed |
| `Changelog.ParseShape` | docs/script.js:288-309 | every list item is non-empty and starts after its markers, every paragraph is a trimmed non-heading, non-item line, every heading starts after its hashes |
| `Changelog.LiCountPush` | docs/script.js:283 | pushing a part adds one item iff it is a list item |
| `Changelog.CloseCount` | docs/script.js:281-286 | closing moves the open item, if any, into the pushed items |
| `Changelog.StepCount` | docs/script.js:288-307 | each line adds one item, pushed or open, iff it opens an item with content |
| `Changelog.StepKindCount` | docs/script.js:288-307 | each classified line adds one item, pushed or open, iff it is a list item with text |
| `Changelog.RunKindsCount` | docs/script.js:288-307 | after n classified lines, pushed plus open items equal the lines that opened an item |
| `Changelog.OpensItemKind` | docs/script.js:289-297 | the classification of a line is a list item with text iff the line opens an item with content |
| `Changelog.ParseCountsItems` | docs/script.js:278-309 | one `<li>` per line that opens an item with content: none lost, none pushed twice |
| `Changelog.SplitMembers` | docs/script.js:277 | every character of a line produced by the split comes from the text split |
| `Changelog.StepSafe` | docs/script.js:288-307 | a line without angle brackets adds headings and paragraphs without them |
| `Changelog.RunSafe` | docs/script.js:288-307 | lines without angle brackets give headings and paragraphs without them |
| `Changelog.ClassifySafe` | docs/script.js:289-306 | a line without angle brackets classifies as a heading or text line whose text has none either |
| `Changelog.StepKindSafe` | docs/script.js:288-307 | such a classified line adds headings and paragraphs without angle brackets |
| `Changelog.RunKindsSafe` | docs/script.js:288-307 | classified lines without angle brackets give headings and paragraphs without them |
| `Changelog.CloseSafe` | docs/script.js:281-286 | closing the open item adds a list item, so headings and paragraphs stay free of angle brackets |
| `Changelog.BodyTextEscaped` | docs/script.js:277-309 | headings and paragraphs of a parsed body never contain a raw `<` or `>` |
| `Changelog.RunOfBlank` | docs/script.js:288-307 | blank lines leave the parser in its start state |
| `Changelog.SpacesHaveNoAngle` | docs/script.js:277 | white space contains no angle bracket, so escaping leaves it unchanged |
| `Changelog.SpacesTrimToEmpty` | docs/script.js:289 | a line of white space trims to nothing |
| `Changelog.BlankBodyIsEmpty` | docs/script.js:276-311 | a non-empty body of white space only yields an empty changelog, not the placeholder |
| `Changelog.EscapedArrowOpensItem` | docs/script.js:277-297 | a line starting with the escaped arrow `-&gt;` always opens a new item with text starting `&gt;`, so the `-&gt;` sub-item branch is unreachable |
| `Changelog.IntendedArrowContinuesItem` | docs/script.js:296-298 | with the corrected step an indented escaped arrow extends the open item with an arrow sub-item, and every other line is handled as before |
| `Changelog.EnqueueSpec` | docs/script.js:259-262 | queuing a counter keeps the queue free of repeats, is idempotent, and only adds that counter at the end |
| `Changelog.DocsPage.constructor` | docs/script.js:20-21 | the page starts unrevealed with no queued counters |
| `Changelog.DocsPage.UpdateStats` | docs/script.js:252-265 | the total is stored (`downloads \|\| 0`), animated now when revealed, otherwise queued once, and the queue stays free of repeats |
| `Changelog.DocsPage.RevealCounters` | docs/script.js:379-382 | every queued counter is animated once in queue order, then the page is revealed and the queue is empty |
| `Releases.BodyOf` | website/script.js:115-131 | the placeholder is used exactly when the trimmed body is empty |
| `Releases.Populate` | website/script.js:104-110 | no releases gives the "no releases" message only; otherwise between one and three cards |
| `Releases.LatestReleasesOnly` | website/script.js:109-110 | as many cards as releases up to three, the i-th from the i-th release, in order |
| `Releases.LineBlockSpec` | website/script.js:122-126 | a line is a heading iff its trimmed text starts with `#`, and then carries no `#` and is trimmed; a list item starts with a bullet and its text is trimmed; a paragraph is the trimmed line, starting with neither |
| `Releases.KeptBlocksLength` | website/script.js:120-121 | the kept blocks are as many as the non-blank lines |
| `Releases.BodyBlocksSpec` | website/script.js:118-127 | blank lines are dropped, each other line gives exactly one block, and no block is an empty paragraph |
| `Releases.BlankBodyHasPlaceholder` | website/script.js:115-131 | a missing body or one of white space only gives the placeholder |

## Left out

- Page structure is not modelled. The DOM, `querySelector` results and `DOMParser` output arrive as sequences of records. Styles, classes and inserted markup are kept only where a decision depends on them.
- Timers are not modelled as concurrency. `setInterval`, `setTimeout`, `MutationObserver` and `sleep` become one method call per callback, so there is no concurrency and no wall clock.
- Date and time parsing is not modelled. `new Date(...)`, `toLocaleDateString` and the Japanese deadline strings arrive already parsed as integers, through a `parseDate` or `deadlineMs` parameter. The seven-day test of `renderHomework` is exact on milliseconds, not floating-point days.
- The network is not modelled: `fetch`, `fetchAndParseMaterials`, the iframe and form submissions of the material opener, the send-homework POST in background.js, the keep-alive, `fetchDownloads` and `fetchDownloadsCount`. Responses are parameters where a decision depends on them.
- Sending mail and the script properties store (`GmailApp`, `PropertiesService`) are not modelled. The reminder model returns the reminders to send and the updated list.
- KyozaiParse.ExtractMaterial: the `URL` handling of features/kyozaiopen.js:343-346 (the redirect's `fileurl` parameter and its percent-decoding) is a function parameter, not a definition.
- The regex post-pass of docs/script.js:311-315 is not modelled. It covers bold, emphasis and merging `<ul>` blocks. Parts are kept as tagged values and `PartHtml` gives each part's markup before that pass.
- The UI macro of gas/autosetup.js is not modelled: `showOverlay`, `renameProject`, `deployWebApp`, `runAutomation` and the editor URL polling. gas/setupgas.js is not part of this model. Only the two polling waits are modelled.
- Presentation code is not modelled: darkmode.js, customtheme.js, setting/css.js, the particles, cursor, loading screen, `flipAnimate` and `showStatusMessage` of setting/modules/ui.js, `animateCounter`/`countUp` easing, and the anime.js timelines. setting/options.js and setting/main.js are not part of this model.
- `chrome.storage` and `chrome.scripting` errors other than a duplicate registration are not modelled. Their promises are taken to resolve.
- Text.ToLower: folds the upper-case letters of ASCII, Latin-1 (except `×`), basic Cyrillic and full-width Latin. Other cased letters, such as Greek with its context-dependent final sigma, Latin Extended, Armenian and the special cases of `İ` and `ẞ`, are left as they are, so the name test differs from `toLowerCase` on them.
- CourseFilter.NameMatches: inherits the case folding of `Text.ToLower`, so a course or instructor name written in letters outside the folded ranges may be hidden where the browser would show it.
- CoursePage.CourseList.ApplyClientSideFilter: its name test inherits the case folding of `Text.ToLower`, so letters outside the folded ranges compare case-sensitively.
- CoursePage.FilterCards: its name test inherits the case folding of `Text.ToLower`, so letters outside the folded ranges compare case-sensitively.
- CoursePage.FilterInfos: its name test inherits the case folding of `Text.ToLower`, so letters outside the folded ranges compare case-sensitively.
- KyozaiState.ProcessMaterial: a `#srcl_form` whose `submit` throws (the catch of features/kyozaiopen.js:457-460) is not modelled; the form is taken to submit. A page function that throws is modelled.
- Attend.AttendSequencer.Tick and Attend.LessonClicks: a `.lms-card` without `.courseCardInfo`, or whose info has no `.term`, makes features/attend.js:80-81 throw a `TypeError`. That ends the tick there: later cards and day boxes and the attend and OK steps of that tick are skipped. The model's `Card` always carries both, so the abort is not captured.
- LegacyInject.OnChanged and LegacyInject.OnInstalled: the `chrome.scripting` calls of inject.js are not awaited, and `disableScript` unregisters only inside the callback of `getRegisteredContentScripts` (inject.js:122-126). The model applies each registration and unregistration at once, in source order, so an interleaving of these callbacks, and the duplicate-ID error it can cause, is not captured.
- Background.OnChanged: Chrome does not await the async `storage.onChanged` listener, so runs for two separate events can interleave at the awaits of `unregisterContentScript` and `registerContentScript` (background.js:12, 30-33). The model applies each event's changes as one step, with events serialised, so an interleaving in which a script stays registered after its switch is turned off again is not captured; `Background.ChangesSettle` holds for serialised events only.
- Background.InitializeScripts: the same awaits let a start-up pass interleave with a storage event. The model runs the pass as one step, so `Background.InitializeSettles` holds only when no listener run overlaps it.
- Background.OnInstalled: it reaches `initializeScripts` on an update and inherits the serialisation assumption of `Background.InitializeScripts`.
- Characters are Unicode scalar values. Every character the extension handles is in the Basic Multilingual Plane, so one `char` is one UTF-16 code unit.

## Findings

| source | as written | input that shows it | evidently intended | confidence | as-written member | corrected member |
|---|---|---|---|---|---|---|
| features/attend.js:9 | the file's own schedule gives 5限 the start "19:36" (its end is "17:20") | auto-attend set to Tuesday, 5限: the tick fires at 19:33, long after the class | start "15:50", as in the shared `SCHEDULE` of features/modules/constants.js:42, so the tick fires at 15:47 | high, not executed | `Attend.FifthPeriodTriggersLateAsWritten` | `Attend.PeriodTriggersBeforeStart` |
| docs/script.js:291-297 | escaping turns `->` into `-&gt;`; a trimmed line starting with it passes the list-item test first (it starts with `-`) | an item line followed by the indented line `  -&gt; detail` opens a new item with the text `&gt; detail` | the indented arrow line becomes an arrow sub-item of the open item, which the `-&gt;` alternative of the sub-item pattern is written for | medium, not executed | `Changelog.EscapedArrowOpensItem` | `Changelog.IntendedArrowContinuesItem` |

The attendance sequencer takes its schedule as a parameter, so its properties hold for either
table. The timing property is proved for the shared `SCHEDULE`, the corrected table. The changelog parser (`Changelog.Parse`, `Changelog.ParseLines`)
follows the code as written, since the page renders that output. The corrected step
`Changelog.StepIntended` is defined beside it, and its property is proved.
