# Figmareminder in Dafny

A model of the core of Figmareminder, a React app for checklist reminders.
A reminder fires at a time, on arriving at or leaving a place, or both. The
model covers the parts of the app that decide things:

- **The geofence engine** (`geolocation.dfy`, `location_tracking.dfy`):
  - `isWithinRadius` with the distance function as a parameter.
  - The `useLocationTracking` hook as a `Tracker` class. Each method is
    proved equal to a pure step function (effect body, cleanup, position
    sample, position error).
  - Its edge-triggered firing: `arrive` fires on outside→inside and `leave`
    fires on inside→outside, against the containment remembered from the
    previous sample.
- **The store handlers of `App.tsx`** (`app_store.dfy`): the priority lists,
  checklist toggling with its completion statistics, adding and editing
  reminders, deleting a reminder, saving and deleting groups. A `Store`
  class holds the lists the handlers replace.
- **The form builders and validators**:
  - the reminder form (`add_reminder_dialog.dfy`, with the weekday toggle in
    `days.dfy`);
  - the JSON import dialog (`import_dialog.dfy` over the parsed values of
    `json.dfy`);
  - the saved-place dialog (`location_settings_view.dfy`);
  - the location picker (`location_picker.dfy`);
  - the group editing dialog and screen (`edit_group.dfy`).
- **The serialiser and formatters**: the share text and JSON export
  (`share_dialog.dfy`), the day label and badges of the reminder card
  (`reminder_card.dfy`), and the detail screen's "next reminder" line
  (`reminder_detail_view.dfy`).
- **The aggregates**: the group screen's membership, counters and sections
  (`group_detail_view.dfy`), and the group list's sections, badge and rate
  (`groups_view.dfy`).

Shared pieces:

- `types.dfy` holds the data model of `src/types/index.ts`.
- `js.dfy` states the JavaScript built-ins the components use:
  - `trim` over the ECMAScript whitespace set;
  - the decimal rendering of a number;
  - `split`/`join` on `", "`;
  - `Math.round` of a percentage.
- `seqs.dfy` holds filter, sum and count over sequences, with their lemmas.
- `wrappers.dfy` holds `Option` and `Result`.

Components that work by updating state become classes:

- each has the component's state variables as fields;
- each handler is a method whose `ensures` ties the new state to a pure
  function of the old state;
- the properties are proved as lemmas about those functions.

Pure computations become functions with lemmas.

Things outside the model are parameters: the clock, parsed numbers,
printed numbers and the distance function.

## Model

| member | source | states |
|---|---|---|
| Geolocation.OutsideWithoutCentre | src/utils/geolocation.ts:35-37 | a location whose latitude or longitude is missing or 0 never contains any point |
| Geolocation.WithinIffDistanceAtMostRadius | src/utils/geolocation.ts:39-46 | with a configured centre, a point is inside exactly when its distance is at most the radius (the boundary is inside) |
| Geolocation.MissingRadiusIs100 | src/utils/geolocation.ts:46 | a missing or zero radius behaves as 100 m |
| Geolocation.WithinMonotoneInRadius | src/utils/geolocation.ts:30-47 | a point inside at some radius is inside at every larger radius |
| Geolocation.CentreIsInside | src/utils/geolocation.ts:7-25 | when the distance from a point to itself is 0, a configured centre lies inside its own circle |
| Geolocation.EffectiveRadius | src/utils/geolocation.ts:46 | definition: the configured radius, or 100 m when it is missing or 0 |
| Geolocation.IsWithinRadius | src/utils/geolocation.ts:30-47 | definition: false without a truthy centre, otherwise whether the distance to the centre is at most the effective radius |
| Geolocation.ZeroOnSelf | src/utils/geolocation.ts:7-25 | definition: the assumption on the distance parameter that a point is at distance 0 from itself |
| LocationTracking.WatchedReminders | src/hooks/useLocationTracking.ts:31-36 | every watched reminder has a location trigger and truthy coordinates |
| LocationTracking.WatchedOnlyWithTruthyCoordinates | src/hooks/useLocationTracking.ts:31-36 | a watched reminder comes from the list, uses `location` or `both`, and has a latitude and a longitude that are present and non-zero |
| LocationTracking.NothingToWatch | src/hooks/useLocationTracking.ts:38-46 | with nothing to watch, an active watch is cleared and tracking is reported off; without an active watch the state is untouched |
| LocationTracking.FiresOnEdgesOnly | src/hooks/useLocationTracking.ts:74-87 | `arrive` fires exactly on an outside→inside change and `leave` exactly on inside→outside; an unchanged containment never fires |
| LocationTracking.FirstObservationReadsOutside | src/hooks/useLocationTracking.ts:74 | a reminder never seen before counts as having been outside: an `arrive` reminder already inside fires at once, and a `leave` reminder does not |
| LocationTracking.RecordedKeepsOtherEntries | src/hooks/useLocationTracking.ts:65-91 | a pass only adds or overwrites entries; every id not in the list keeps its stored containment |
| LocationTracking.RecordedIsCurrentContainment | src/hooks/useLocationTracking.ts:90 | after a pass, each watched reminder's stored state is its containment for this sample, whether or not it fired |
| LocationTracking.FiredIsFilter | src/hooks/useLocationTracking.ts:65-91 | with unique ids, the sequential pass fires exactly the reminders that fire against the states held before the sample, in list order |
| LocationTracking.FiredAtMostOnceEach | src/hooks/useLocationTracking.ts:65-91 | the fired reminders are a sub-multiset of the watched ones |
| LocationTracking.RepeatedSampleFiresNothing | src/hooks/useLocationTracking.ts:53-91 | an identical second sample fires nothing |
| LocationTracking.StatesSurviveListChangesAndCleanup | src/hooks/useLocationTracking.ts:26-27 | list changes, cleanups and position errors leave the remembered containment untouched |
| LocationTracking.RememberedIdsNeverDropped | src/hooks/useLocationTracking.ts:26-121 | for any sequence of events, no remembered id is ever removed |
| LocationTracking.StatusUpdates | src/hooks/useLocationTracking.ts:56-62 | a sample sets the coordinates and accuracy, turns tracking on and clears the error; an error turns tracking off with the message for its code and keeps the coordinates |
| LocationTracking.ApiUnavailableReported | src/hooks/useLocationTracking.ts:108-114 | when `watchPosition` throws, the API is reported unavailable and the previous watch is kept |
| LocationTracking.SinglePass | src/hooks/useLocationTracking.ts:65-91 | a pass over one reminder fires it exactly when it fires on its own, and records only its state |
| LocationTracking.ArriveScenario | src/hooks/useLocationTracking.ts:77-87 | an `arrive` reminder fires on the first inside sample, stays silent outside, and fires again on re-entry |
| LocationTracking.LeaveScenario | src/hooks/useLocationTracking.ts:77-87 | a `leave` reminder is silent inside, fires once on leaving, and is silent while outside and on return |
| LocationTracking.MemorySurvivesRestart | src/hooks/useLocationTracking.ts:26-27 | after a cleanup and a new list, an `arrive` reminder that was inside does not fire again for an inside sample |
| LocationTracking.StaleTrackingAfterLastLocationReminderRemoved | src/hooks/useLocationTracking.ts:38-46 | as written: removing the last location reminder leaves `isTracking` true after the cleanup-then-effect re-run |
| LocationTracking.CorrectedRerunStopsTracking | src/hooks/useLocationTracking.ts:38-46 | corrected: a re-run with nothing to watch always reports tracking off with no watch, and otherwise matches the code as written |
| LocationTracking.Tracker.constructor | src/hooks/useLocationTracking.ts:18-27 | no coordinates, not tracking, no error, no watch, no remembered states |
| LocationTracking.Tracker.OnRemindersChanged | src/hooks/useLocationTracking.ts:29-114 | the new state is the effect step of the old one for the new reminder list |
| LocationTracking.Tracker.Cleanup | src/hooks/useLocationTracking.ts:116-121 | the active watch is cleared and nothing else changes |
| LocationTracking.Tracker.OnPosition | src/hooks/useLocationTracking.ts:53-91 | the loop's new state and fired list equal the sample step and the pass's fired list |
| LocationTracking.Tracker.CheckReminder | src/hooks/useLocationTracking.ts:65-89 | one reminder fires exactly when it crosses its circle in its trigger direction, its remembered inside-state becomes the new one, and tracking status and watch are untouched |
| LocationTracking.Tracker.OnPositionError | src/hooks/useLocationTracking.ts:93-106 | the new state is the error step for the code |
| LocationTracking.IsWatched | src/hooks/useLocationTracking.ts:31-36 | definition: a location or both trigger with a truthy latitude and longitude |
| LocationTracking.WasInside | src/hooks/useLocationTracking.ts:74 | definition: the remembered containment, outside when nothing is remembered |
| LocationTracking.ShouldTrigger | src/hooks/useLocationTracking.ts:76-82 | definition: arrive on outside to inside, leave on inside to outside |
| LocationTracking.Inside | src/hooks/useLocationTracking.ts:68-72 | definition: the reminder's circle contains the sample |
| LocationTracking.Fires | src/hooks/useLocationTracking.ts:66-87 | definition: one reminder's fire decision against the remembered states |
| LocationTracking.Record | src/hooks/useLocationTracking.ts:90 | definition: the remembered states with this reminder's current containment stored |
| LocationTracking.Fired | src/hooks/useLocationTracking.ts:65-91 | definition: the reminders handed to the callback by one pass, in list order |
| LocationTracking.Recorded | src/hooks/useLocationTracking.ts:65-91 | definition: the remembered states after one pass |
| LocationTracking.EffectStep | src/hooks/useLocationTracking.ts:29-114 | definition: the effect body for a new reminder list: stop when nothing is watched, otherwise start a watch or report the API missing |
| LocationTracking.CleanupStep | src/hooks/useLocationTracking.ts:116-121 | definition: the cleanup clears an active watch |
| LocationTracking.SampleStep | src/hooks/useLocationTracking.ts:53-91 | definition: a position sample sets the status and runs one pass |
| LocationTracking.SampleFired | src/hooks/useLocationTracking.ts:53-91 | definition: the reminders a sample fires |
| LocationTracking.ErrorMessage | src/hooks/useLocationTracking.ts:95-102 | definition: the message chosen by error code |
| LocationTracking.ErrorStep | src/hooks/useLocationTracking.ts:93-106 | definition: a position error stops tracking with that message and keeps the coordinates |
| LocationTracking.Step | src/hooks/useLocationTracking.ts:29-121 | definition: one event of the hook's life: list change, cleanup, sample or error |
| LocationTracking.Replay | src/hooks/useLocationTracking.ts:29-121 | definition: a sequence of events applied in order |
| LocationTracking.Rerun | src/hooks/useLocationTracking.ts:38-46 | definition: a list change as React performs it, the previous cleanup and then the effect body |
| LocationTracking.EffectStepCorrected | src/hooks/useLocationTracking.ts:38-46 | definition: the effect body with tracking reported off whenever nothing is watched |
| LocationTracking.RerunCorrected | src/hooks/useLocationTracking.ts:38-46 | definition: the cleanup and then the corrected effect body |
| AppStore.PriorityListsPartition | src/App.tsx:64-72 | the urgent, week and routine lists together hold every reminder exactly as often as the list does |
| AppStore.ToggleItems | src/App.tsx:93-98 | exactly the items with the id flip `completed`; ids and texts are kept |
| AppStore.ToggleItemsTwice | src/App.tsx:93-98 | toggling the same item twice restores the checklist |
| AppStore.ToggleChangesOnlyTheItem | src/App.tsx:86-145 | only the matching item of the matching reminder flips; other reminders are unchanged, and the matching one keeps everything but its checklist, `lastCompleted` and `completionCount` |
| AppStore.CompletionCountOnEdgeOnly | src/App.tsx:100-122 | `completionCount` rises by one exactly when the toggle completes a non-empty checklist that was not complete before |
| AppStore.GainedMatchesCounters | src/App.tsx:105-122 | the completions added to the user's statistics equal those added to the reminders' counters |
| AppStore.AddAppends | src/App.tsx:167-176 | a new reminder is appended with the draft's fields, zero counters and the id `r-<now>` |
| AppStore.NewIdsDistinct | src/App.tsx:167-176 | ids created at different times differ |
| AppStore.EditOverwritesFormFields | src/App.tsx:153-165 | the edited reminder takes every form field of the draft and keeps its id, creation time and counters; other reminders are unchanged |
| AppStore.EditWithOwnDraftIsIdentity | src/App.tsx:153-165 | saving a reminder's own form fields back changes nothing |
| AppStore.DeleteReminderKeepsOthers | src/App.tsx:206-217 | deletion removes every reminder with the id and keeps all others in order |
| AppStore.SaveGroupMembership | src/App.tsx:249-261 | after saving, a reminder is in the group exactly when its id is listed; a former member no longer listed has no group at all; one neither listed nor in the group keeps its group; only `groupId` changes |
| AppStore.SaveGroupChangesOnlyTarget | src/App.tsx:240-246 | only the target group's name, icon and ids change |
| AppStore.FindGroup | src/App.tsx:269-270 | a found group is in the list with that id; when none is found, no group has the id |
| AppStore.DeleteGroupEffect | src/App.tsx:268-295 | deleting an unknown or preset group changes nothing; otherwise the group is gone and exactly its former members are left with no group |
| AppStore.PresetGroupSurvives | src/App.tsx:272-277 | a preset group is never deleted |
| AppStore.Store.constructor | src/App.tsx:45-56 | the store starts from the given lists and statistics, with nothing being edited |
| AppStore.Store.ToggleChecklistItem | src/App.tsx:86-145 | the reminder list and the statistics become their toggled versions; groups are unchanged |
| AppStore.Store.StartEditing | src/App.tsx:198-204 | the reminder is recorded as being edited; the lists are unchanged |
| AppStore.Store.AddReminder | src/App.tsx:147-181 | it edits the reminder being edited and clears the editing state, otherwise it appends a new reminder |
| AppStore.Store.DeleteSelected | src/App.tsx:206-217 | the selected reminder's id is removed from the list; without a selection nothing changes |
| AppStore.Store.SaveGroup | src/App.tsx:232-266 | the groups and reminders become their saved versions |
| AppStore.Store.DeleteGroup | src/App.tsx:268-295 | the groups and reminders become their deleted versions, or are unchanged for an unknown or preset group |
| AppStore.WithPriority | src/App.tsx:64-72 | definition: the reminders of one priority, in list order |
| AppStore.CompletesChecklist | src/App.tsx:100-110 | definition: a toggle that takes a non-empty checklist from not all done to all done |
| AppStore.ToggledReminder | src/App.tsx:92-140 | definition: the reminder after a toggle, with its checklist, last completion date and completion count |
| AppStore.ToggleInList | src/App.tsx:90-144 | definition: the reminder list after a toggle, only the reminder with the id changed |
| AppStore.CompletionsGained | src/App.tsx:105-122 | definition: how many reminders the toggle completes |
| AppStore.AfterToggleStats | src/App.tsx:116-121 | definition: the statistics with that many completions added |
| AppStore.NewReminder | src/App.tsx:168-174 | definition: a new reminder from the draft, with the id `r-<now>` and zero counters |
| AppStore.ApplyDraft | src/App.tsx:158 | definition: the draft spread over the edited reminder |
| AppStore.EditInList | src/App.tsx:155-161 | definition: the list with the edited reminder overwritten by the draft |
| AppStore.DeleteReminder | src/App.tsx:206-217 | definition: the list without the reminders with the id |
| AppStore.SaveGroupGroups | src/App.tsx:240-246 | definition: the group list with the target group's name, icon and ids replaced |
| AppStore.Reassign | src/App.tsx:249-261 | definition: one reminder after the save: a dropped member has no group, a listed one joins |
| AppStore.SaveGroupReminders | src/App.tsx:249-261 | definition: every reminder reassigned |
| AppStore.MayDeleteGroup | src/App.tsx:269-277 | definition: the group exists and is not a preset |
| AppStore.DeleteGroupGroups | src/App.tsx:279-281 | definition: the group list without the group, when it may be deleted |
| AppStore.ClearGroup | src/App.tsx:283-287 | definition: a member of the deleted group is left without a group |
| AppStore.DeleteGroupReminders | src/App.tsx:283-287 | definition: every reminder cleared of the deleted group, when it may be deleted |
| Days.Sort | src/components/AddReminderDialog.tsx:71 | the result is sorted and is a permutation of the input |
| Days.ToggleDayMembership | src/components/AddReminderDialog.tsx:67-73 | the toggled day's membership flips and every other day's stays the same |
| Days.ToggleDayKeepsSorted | src/components/AddReminderDialog.tsx:67-73 | adding a day gives a sorted list, and removing one keeps a sorted list sorted |
| Days.ToggleDayKeepsNoDuplicates | src/components/AddReminderDialog.tsx:67-73 | a list without duplicates stays without duplicates |
| Days.ToggleDayTwice | src/components/AddReminderDialog.tsx:67-73 | on the form's own lists (sorted, no duplicates), toggling a day twice gives the list back |
| Days.ToggleDay | src/components/AddReminderDialog.tsx:67-73 | definition: a selected day is removed, another is appended and the list sorted |
| ReminderForm.RemoveAt | src/components/AddReminderDialog.tsx:63-65 | the checklist without the item at the index, others in order |
| ReminderForm.SaveConditionalFields | src/components/AddReminderDialog.tsx:75-92 | a blank title saves nothing; otherwise the record has the trimmed title, the form's time exactly for time triggers, the form's location for location triggers and none otherwise, the selected days unless none are selected, the selected group unless it is `none`, and the trimmed description unless it is blank |
| ReminderForm.SaveChecklistIds | src/components/AddReminderDialog.tsx:86-91 | saved items keep the form's texts and flags in order; each reuses the edited reminder's non-empty id at its position, or else gets a `temp-` id |
| ReminderForm.TempIdsDistinct | src/components/AddReminderDialog.tsx:88-91 | the temporary ids of a new reminder's items are pairwise distinct, whatever the clock reads |
| ReminderForm.AddChecklistItemEffect | src/components/AddReminderDialog.tsx:56-61 | a non-blank input is appended trimmed and unchecked and the input is cleared; a blank input changes nothing |
| ReminderForm.RemoveAtKeepsOrder | src/components/AddReminderDialog.tsx:63-65 | removing by index drops exactly that position and keeps the rest in order |
| ReminderForm.LoadThenSave | src/components/AddReminderDialog.tsx:39-99 | loading a reminder the form could have produced and saving it unchanged gives back its own form fields |
| ReminderForm.ReminderDialog.constructor | src/components/AddReminderDialog.tsx:26-36 | the form starts blank |
| ReminderForm.ReminderDialog.Reset | src/components/AddReminderDialog.tsx:101-113 | every field returns to its default |
| ReminderForm.ReminderDialog.OnOpen | src/components/AddReminderDialog.tsx:39-54 | the fields become the loaded reminder's, or the defaults |
| ReminderForm.ReminderDialog.LoadFields | src/components/AddReminderDialog.tsx:41-50 | the fields take the edited reminder's values with the documented fallbacks, and the pending item text is kept |
| ReminderForm.ReminderDialog.AddChecklistItem | src/components/AddReminderDialog.tsx:56-61 | the state becomes the state with the item added |
| ReminderForm.ReminderDialog.RemoveChecklistItem | src/components/AddReminderDialog.tsx:63-65 | the state becomes the state with the item removed |
| ReminderForm.ReminderDialog.ToggleDay | src/components/AddReminderDialog.tsx:67-73 | the state becomes the state with the day toggled |
| ReminderForm.ReminderDialog.Save | src/components/AddReminderDialog.tsx:75-99 | returns the draft built from the form (or none for a blank title), and resets a new-reminder form after a save |
| ReminderForm.Load | src/components/AddReminderDialog.tsx:39-54 | definition: the load effect, the edited reminder's fields with their fallbacks, or the blank form |
| ReminderForm.FormItems | src/components/AddReminderDialog.tsx:50 | definition: the edited checklist as texts and flags without ids |
| ReminderForm.WithItemAdded | src/components/AddReminderDialog.tsx:56-61 | definition: the form after adding the pending item text |
| ReminderForm.WithItemRemoved | src/components/AddReminderDialog.tsx:63-65 | definition: the form without the item at the index |
| ReminderForm.WithDayToggled | src/components/AddReminderDialog.tsx:67-73 | definition: the form with one day toggled |
| ReminderForm.ItemId | src/components/AddReminderDialog.tsx:88-91 | definition: the edited item's non-empty id at the same position, or `temp-<clock>-<index>` |
| ReminderForm.BuildDraft | src/components/AddReminderDialog.tsx:75-92 | definition: the record the save hands on, or nothing for a blank title |
| ReminderForm.SavedItems | src/components/AddReminderDialog.tsx:86-91 | definition: the form's items with their ids |
| ReminderForm.AfterSave | src/components/AddReminderDialog.tsx:93-98 | definition: a new-reminder form is reset after a save, an edit form kept |
| ImportDialog.ErrorText | src/components/ImportDialog.tsx:93-98 | the error shown is the thrown message, or the fallback text when the message is empty |
| ImportDialog.ValidateAcceptsExactly | src/components/ImportDialog.tsx:70-88 | the checks accept exactly the acceptable values and return them unchanged |
| ImportDialog.FirstFailureReported | src/components/ImportDialog.tsx:70-88 | only the first failing check is reported, in the code's order |
| ImportDialog.NonObjectsRejected | src/components/ImportDialog.tsx:70-72 | arrays, strings, numbers and booleans fail the title check; `null` fails with the property-read error |
| ImportDialog.ImportItems | src/components/ImportDialog.tsx:122-126 | without a `null` item, one imported item per input item, in order |
| ImportDialog.ImportItemsShape | src/components/ImportDialog.tsx:122-126 | each imported item takes the input's text, is not completed and has the id `imported-<clock>-<index>` |
| ImportDialog.ImportCopiesFields | src/components/ImportDialog.tsx:112-127 | an accepted value without `null` items imports with its title, icon, priority and trigger, and its description, time, days and location present exactly when given and then equal to the preview's, no group, and the same item texts, all unchecked |
| ImportDialog.ImportedIdsDistinct | src/components/ImportDialog.tsx:122-126 | imported item ids are pairwise distinct, whatever the clock reads |
| ImportDialog.NullChecklistItemAcceptedThenThrows | src/components/ImportDialog.tsx:86-88 | as written: a checklist holding `null` passes the checks, and the import then throws |
| ImportDialog.CorrectedAcceptedImports | src/components/ImportDialog.tsx:86-88 | corrected: whatever the corrected checks accept imports without throwing |
| ImportDialog.ImportForm.constructor | src/components/ImportDialog.tsx:52-56 | empty input, no preview, no error, not busy |
| ImportDialog.ImportForm.Reset | src/components/ImportDialog.tsx:147-153 | back to the empty, idle dialog |
| ImportDialog.ImportForm.HandleParse | src/components/ImportDialog.tsx:59-102 | an accepted value becomes the preview with no error; a rejected or unparsable one clears the preview and shows its message; parsing ends either way |
| ImportDialog.ImportForm.HandleImport | src/components/ImportDialog.tsx:104-133 | without a preview nothing happens; a successful import returns the record and resets the dialog; a throwing import leaves it busy |
| ImportDialog.ParsePriority | src/components/ImportDialog.tsx:78 | definition: the priority a known name stands for |
| ImportDialog.ParseTrigger | src/components/ImportDialog.tsx:82 | definition: the trigger a known name stands for |
| ImportDialog.Validate | src/components/ImportDialog.tsx:70-88 | definition: the checks in order, the first failure giving its message |
| ImportDialog.Acceptable | src/components/ImportDialog.tsx:70-88 | definition: the independent description of what the checks accept |
| ImportDialog.ImportedId | src/components/ImportDialog.tsx:123 | definition: `imported-<clock>-<index>` |
| ImportDialog.ImportRecord | src/components/ImportDialog.tsx:112-127 | definition: the record built from the preview, or the error thrown by a `null` item |
| ImportDialog.ValidateCorrected | src/components/ImportDialog.tsx:86-88 | definition: the checks with every checklist item required to be an object |
| ShareDialog.PriorityTextPassesUnknown | src/components/ShareDialog.tsx:45-56 | a name is returned unchanged exactly when it is not one of the three priorities |
| ShareDialog.PriorityTextDistinguishes | src/components/ShareDialog.tsx:45-56 | the three priority labels differ from one another |
| ShareDialog.GenerateTextFormat | src/components/ShareDialog.tsx:67-103 | the text built step by step is the block-by-block share text |
| ShareDialog.TextStartsWithTitle | src/components/ShareDialog.tsx:68 | the text opens with the pin, the title and a line break |
| ShareDialog.TextEndsWithCounts | src/components/ShareDialog.tsx:99-100 | the text closes with `(completed/shown)`, and reads `0%` when nothing was shown |
| ShareDialog.DescriptionOnlyWhenPresent | src/components/ShareDialog.tsx:70-72 | a non-empty description sits right after the title line; an empty or missing one leaves no trace |
| ShareDialog.TimeLineOnlyForTimeTriggers | src/components/ShareDialog.tsx:76-82 | for a location-only reminder, the time and days do not affect the text |
| ShareDialog.LocationLineOnlyForLocationTriggers | src/components/ShareDialog.tsx:84-90 | for a time-only reminder, the location does not affect the text |
| ShareDialog.TimeLineContents | src/components/ShareDialog.tsx:76-82 | the time line shows the time or "not set", and the day label in parentheses exactly when days are selected |
| ShareDialog.LocationLineContents | src/components/ShareDialog.tsx:84-90 | the location line shows the place name or "not set", and the direction `arrive` or `leave` when there is a location |
| ShareDialog.ItemLineAt | src/components/ShareDialog.tsx:92-97 | item `k`'s line, numbered `k+1`, follows the lines of the items before it |
| ShareDialog.ItemLineShape | src/components/ShareDialog.tsx:94-96 | an item line is its number, a dot, its text, and a check mark exactly when the item is completed |
| ShareDialog.OneLinePerItem | src/components/ShareDialog.tsx:92-97 | with texts free of line breaks, the checklist takes exactly one line per item |
| ShareDialog.With | src/components/ShareDialog.tsx:106-123 | an `undefined` field is left out of the JSON and a defined one is added; other keys are untouched |
| ShareDialog.ExportFields | src/components/ShareDialog.tsx:106-123 | the export holds the title, icon, priority, trigger and checklist, and holds the description, time, days and location (encoded) exactly when they are defined |
| ShareDialog.ExportOmitsIdentityAndProgress | src/components/ShareDialog.tsx:106-123 | the export has no id, group, counters or dates, and every exported item is reset to not completed |
| ShareDialog.ExportThenImport | src/components/ShareDialog.tsx:106-123 | the import dialog accepts an export exactly when its title and icon are non-empty, and then recovers its title, icon, priority, trigger, description, time and item texts (all unchecked), holds its days and location as exported, and has no group |
| ShareDialog.ExportAccepted | src/components/ShareDialog.tsx:106-123 | an export passes every import check exactly when its title and icon are non-empty |
| ShareDialog.ImportOfExport | src/components/ShareDialog.tsx:106-123 | an acceptable export imports into a record with the same title, icon, priority, trigger, description, time and item texts, the days and location as exported, no group, and every item unchecked |
| ShareDialog.PriorityText | src/components/ShareDialog.tsx:45-56 | definition: the label of a priority name, any other name as is |
| ShareDialog.TextFormat | src/components/ShareDialog.tsx:67-103 | definition: the shared text, block by block |
| ShareDialog.TimeLine | src/components/ShareDialog.tsx:76-82 | definition: the time line for time triggers |
| ShareDialog.LocationLine | src/components/ShareDialog.tsx:84-90 | definition: the place line for location triggers |
| ShareDialog.ItemLine | src/components/ShareDialog.tsx:95 | definition: one numbered checklist line |
| ShareDialog.ItemLines | src/components/ShareDialog.tsx:92-97 | definition: the checklist lines in order |
| ShareDialog.ExportJson | src/components/ShareDialog.tsx:106-123 | definition: the object the export stringifies |
| ShareDialog.ItemJson | src/components/ShareDialog.tsx:116-119 | definition: an exported item, its text and never completed |
| ReminderCard.DaysTextListsEachDay | src/components/ReminderCard.tsx:118-124 | outside the three special cases, splitting the label at `, ` and reading the names back gives the days again |
| ReminderCard.NameOfDay | src/components/ReminderCard.tsx:118-124 | each day name is free of commas and reads back as its day |
| ReminderCard.DaysTextOrderFree | src/components/ReminderCard.tsx:118-124 | every day, weekdays and weekend are recognised whatever the order of the days |
| ReminderCard.CompletedCountFullIffAllCompleted | src/components/ReminderCard.tsx:15-16 | the completed count equals the item count exactly when every item is completed |
| ReminderCard.CompletionRate | src/components/ReminderCard.tsx:17-19 | 0 when nothing was shown, otherwise the percentage rounded to the nearest integer, at most 100 when completions do not exceed showings |
| ReminderCard.DaysBadgeOnlyForNonEmptyDays | src/components/ReminderCard.tsx:72 | the day badge is present exactly when days are selected, and is the last badge |
| ReminderCard.DaysText | src/components/ReminderCard.tsx:118-124 | definition: every day, weekdays, weekend, or the day names joined by commas |
| ReminderCard.Badges | src/components/ReminderCard.tsx:60-76 | definition: the card's time, place and day badges in order |
| ReminderDetailView.DaysTextDefaultsToEveryday | src/components/ReminderDetailView.tsx:58-65 | a missing or empty day list reads as every day; otherwise the card's label is used |
| ReminderDetailView.NextReminderForPlace | src/components/ReminderDetailView.tsx:67-75 | a location-only reminder with a location names the place and then the direction |
| ReminderDetailView.NextReminderForTime | src/components/ReminderDetailView.tsx:67-75 | otherwise a set time gives the day label, a space and the time |
| ReminderDetailView.NextReminderNotSet | src/components/ReminderDetailView.tsx:67-75 | without a usable place or time the line reads "not set" |
| ReminderDetailView.DaysText | src/components/ReminderDetailView.tsx:58-65 | definition: no days reads as every day, otherwise the card's label |
| ReminderDetailView.NextReminderText | src/components/ReminderDetailView.tsx:67-75 | definition: the place and direction, the days and time, or not set |
| LocationSettings.Opened | src/components/LocationSettingsView.tsx:39-58 | an existing place fills every field, with its coordinates as text; a new one starts blank with the pin icon and 100 m |
| LocationSettings.RejectionsInOrder | src/components/LocationSettingsView.tsx:96-113 | a blank name, then an unreadable coordinate, then an out-of-range one are reported, and only the first failure is shown |
| LocationSettings.AcceptedExactly | src/components/LocationSettingsView.tsx:96-113 | a save succeeds exactly when the name is not blank and both coordinates read as numbers within the inclusive ranges |
| LocationSettings.SavedRecord | src/components/LocationSettingsView.tsx:115-122 | the saved record has the trimmed name, the coordinates as read, the form's icon and radius, and a trimmed address (none when blank) |
| LocationSettings.OneCallback | src/components/LocationSettingsView.tsx:124-130 | exactly one callback runs: the update with the edited place's id, or the add |
| LocationSettings.BlankDialogRejected | src/components/LocationSettingsView.tsx:39-58 | a freshly opened add dialog cannot be saved as it is |
| LocationSettings.ReopenAndSave | src/components/LocationSettingsView.tsx:39-133 | reopening a well-formed place and saving without edits updates it with its own values |
| LocationSettings.LocationDialog.constructor | src/components/LocationSettingsView.tsx:29-36 | closed, with the blank form |
| LocationSettings.LocationDialog.OpenDialog | src/components/LocationSettingsView.tsx:39-58 | the fields become those of the opened place, and the dialog opens |
| LocationSettings.LocationDialog.Save | src/components/LocationSettingsView.tsx:96-133 | returns the decided outcome; the fields are unchanged and the dialog closes only when a callback ran |
| LocationSettings.InRange | src/components/LocationSettingsView.tsx:110 | definition: latitude within -90..90 and longitude within -180..180, inclusive |
| LocationSettings.TrimmedAddress | src/components/LocationSettingsView.tsx:121 | definition: the trimmed address, or nothing when it is blank |
| LocationSettings.Decide | src/components/LocationSettingsView.tsx:96-133 | definition: the first failed check, or the record and the callback it goes to |
| LocationPicker.SavedPlaceGeofence | src/components/LocationPicker.tsx:44-55 | choosing a saved place makes the reminder's geofence that place's circle |
| LocationPicker.RenameKeepsGeofence | src/components/LocationPicker.tsx:98-107 | renaming keeps the centre and direction, and keeps which points are inside |
| LocationPicker.RenameTwice | src/components/LocationPicker.tsx:155-161 | renaming twice is the same as renaming once with the last name |
| LocationPicker.FreshDefaults | src/components/LocationPicker.tsx:98-107 | without a location, controls start at no centre, 100 m and `arrive` |
| LocationPicker.GpsFixContainsItself | src/components/LocationPicker.tsx:64-77 | a GPS fix keeps a non-empty name and the radius, and its own non-zero position is inside the new geofence |
| LocationPicker.EditsChangeOneField | src/components/LocationPicker.tsx:255-277 | the slider changes only the radius and the select only the direction, and the select leaves containment unchanged |
| LocationPicker.Picker.constructor | src/components/LocationPicker.tsx:38-42 | the picker holds the given location, with the advanced panel open for a configured centre |
| LocationPicker.Picker.SelectSavedLocation | src/components/LocationPicker.tsx:44-55 | the location becomes the saved place, and the panel opens |
| LocationPicker.Picker.SelectPresetLocation | src/components/LocationPicker.tsx:98-107 | the location is renamed to the preset |
| LocationPicker.Picker.EditName | src/components/LocationPicker.tsx:155-161 | the location is renamed to the typed name |
| LocationPicker.Picker.OnGpsFix | src/components/LocationPicker.tsx:64-77 | the location becomes the GPS fix, and the panel opens |
| LocationPicker.Picker.SetRadius | src/components/LocationPicker.tsx:255-258 | the radius becomes the slider value |
| LocationPicker.Picker.SetTriggerType | src/components/LocationPicker.tsx:273-277 | the direction becomes the selected one |
| LocationPicker.Picker.RemoveLocation | src/components/LocationPicker.tsx:109-112 | the location is removed and the panel closes |
| LocationPicker.KeptRadius | src/components/LocationPicker.tsx:70 | definition: the current radius, or 100 |
| LocationPicker.KeptTriggerType | src/components/LocationPicker.tsx:50 | definition: the current trigger type, or arrive |
| LocationPicker.FromSaved | src/components/LocationPicker.tsx:44-55 | definition: the saved place's name, centre and radius with the current trigger type |
| LocationPicker.Renamed | src/components/LocationPicker.tsx:98-107 | definition: a new name over the current centre with the defaulted radius and trigger type |
| LocationPicker.FromGps | src/components/LocationPicker.tsx:64-77 | definition: the fix's coordinates with the current or default name, radius and trigger type |
| LocationPicker.WithRadius | src/components/LocationPicker.tsx:255-258 | definition: the location with the slider's radius |
| LocationPicker.WithTriggerType | src/components/LocationPicker.tsx:273-277 | definition: the location with the selected trigger type |
| LocationPicker.Settled | src/components/LocationPicker.tsx:38-42 | definition: the advanced-panel flag after the location changes |
| GroupEditing.ToggleFlipsMembership | src/components/EditGroupDialog.tsx:92-98 | after a toggle the id is selected exactly when it was not, and every other id keeps its membership |
| GroupEditing.ToggleAbsentTwice | src/components/EditGroupDialog.tsx:92-98 | toggling an unselected id twice gives the list back |
| GroupEditing.TogglePresentTwiceMovesToEnd | src/components/EditGroupDialog.tsx:92-98 | toggling a selected id that is not last, twice, moves it to the end |
| GroupEditing.ToggleKeepsDistinct | src/components/EditGroupDialog.tsx:92-98 | a toggle keeps the selection free of duplicates |
| GroupEditing.LockedRowsIgnored | src/components/EditGroupDialog.tsx:219-230 | a reminder in another group is locked and clicking it changes nothing; a free reminder or a member toggles |
| GroupEditing.ClicksNeverSelectLocked | src/components/EditGroupDialog.tsx:219-230 | no sequence of clicks selects a locked reminder that was not selected before |
| GroupEditing.RequestShape | src/components/EditGroupDialog.tsx:80-90 | a save goes through exactly with a group and a non-blank name, and carries the group's id, the trimmed name, the icon and the selection |
| GroupEditing.SaveUnchangedGroup | src/components/EditGroupDialog.tsx:68-90 | saving straight after opening a group with a trimmed, non-empty name asks for the group as it is |
| GroupEditing.GroupDialog.constructor | src/components/EditGroupDialog.tsx:64-66 | an empty name, the default icon, no selection, closed |
| GroupEditing.GroupDialog.Init | src/components/EditGroupDialog.tsx:68-78 | the fields become the group's, or blank without a group |
| GroupEditing.GroupDialog.ClickReminder | src/components/EditGroupDialog.tsx:226-230 | the selection becomes the clicked selection; the name and icon are unchanged |
| GroupEditing.GroupDialog.RemoveAll | src/components/EditGroupDialog.tsx:195-198 | the selection is emptied and nothing else changes |
| GroupEditing.GroupDialog.Save | src/components/EditGroupDialog.tsx:80-90 | returns the request for the current fields, and closes the dialog exactly when there is one |
| GroupEditing.GroupView.constructor | src/components/EditGroupView.tsx:53-57 | the fields start as the group's |
| GroupEditing.GroupView.OnGroupChanged | src/components/EditGroupView.tsx:59-63 | the fields are reset from the group |
| GroupEditing.GroupView.ClickReminder | src/components/EditGroupView.tsx:227-238 | the selection becomes the clicked selection |
| GroupEditing.GroupView.RemoveAll | src/components/EditGroupView.tsx:208 | the selection is emptied |
| GroupEditing.GroupView.Save | src/components/EditGroupView.tsx:65-75 | returns the request for the current fields, and goes back exactly when there is one |
| GroupEditing.ToggleId | src/components/EditGroupDialog.tsx:92-98 | definition: a selected id is removed, another appended |
| GroupEditing.InOtherGroup | src/components/EditGroupDialog.tsx:219-230 | definition: the reminder belongs to a different group |
| GroupEditing.Clicked | src/components/EditGroupDialog.tsx:219-230 | definition: a click toggles the row unless it is locked |
| GroupEditing.Request | src/components/EditGroupDialog.tsx:80-90 | definition: nothing without a group or with a blank name, otherwise the trimmed name, icon and selection |
| GroupEditing.ClickAll | src/components/EditGroupDialog.tsx:219-230 | definition: the selection after a series of clicks |
| GroupDetail.GroupMembership | src/components/GroupDetailView.tsx:39-41 | a reminder of the list is shown in the group exactly when the group lists its id, and nothing else is shown |
| GroupDetail.GroupKeepsListOrder | src/components/GroupDetailView.tsx:39-41 | the group's reminders follow the reminder list's order |
| GroupDetail.StatsAdd | src/components/GroupDetailView.tsx:44-49 | count, shown and completed totals add up over a reminder list split in two |
| GroupDetail.GroupRate | src/components/GroupDetailView.tsx:50-51 | 0 when nothing was shown, otherwise the rounded percentage, at most 100 when no reminder was completed more often than shown |
| GroupDetail.ActiveAndDone | src/components/GroupDetailView.tsx:53-61 | in progress means some item is open, done means items exist and all are complete; no reminder is both, and one without items is neither |
| GroupDetail.SectionsSplitGroup | src/components/GroupDetailView.tsx:53-61 | the two sections are disjoint, hold only group reminders with items, and together hold all of them |
| GroupDetail.GroupReminders | src/components/GroupDetailView.tsx:39-41 | definition: the reminders whose id the group lists, in list order |
| GroupDetail.GroupStats | src/components/GroupDetailView.tsx:44-51 | definition: the count, showings, completions and rounded rate of the group's reminders |
| GroupDetail.IsActive | src/components/GroupDetailView.tsx:53-57 | definition: not every checklist item is completed |
| GroupDetail.IsDone | src/components/GroupDetailView.tsx:58-61 | definition: every item is completed and there is at least one |
| GroupDetail.ActiveReminders | src/components/GroupDetailView.tsx:53-57 | definition: the group's reminders in progress |
| GroupDetail.DoneReminders | src/components/GroupDetailView.tsx:58-61 | definition: the group's completed reminders |
| GroupsList.SectionsPartition | src/components/GroupsView.tsx:15-16 | preset and custom sections together hold every group exactly once, each on the right side |
| GroupsList.NewGroupGoesLast | src/components/GroupsView.tsx:15-16 | an appended group goes to the end of its own section, and the other section is unchanged |
| GroupsList.RateMatchesDetail | src/components/GroupsView.tsx:22-30 | the list's rate equals the group screen's rate |
| GroupsList.RateCases | src/components/GroupsView.tsx:22-30 | 0 when no reminder matches, otherwise the rounded percentage, at most 100 when completions do not exceed showings |
| GroupsList.CountAtLeastShown | src/components/GroupsView.tsx:18-20 | with unique reminder ids, the count badge is never below the number of reminders the group screen lists |
| GroupsList.DanglingIdCounted | src/components/GroupsView.tsx:18-20 | an id with no reminder still counts: one dangling id gives a badge of 1 over an empty group with rate 0 |
| GroupsList.PresetGroups | src/components/GroupsView.tsx:15 | definition: the preset groups in order |
| GroupsList.CustomGroups | src/components/GroupsView.tsx:16 | definition: the custom groups in order |
| GroupsList.ReminderCount | src/components/GroupsView.tsx:18-20 | definition: the number of listed ids |
| GroupsList.CompletionRate | src/components/GroupsView.tsx:22-30 | definition: 0 without matches or showings, otherwise the rounded percentage |
| Js.TrimBlankIff | src/components/AddReminderDialog.tsx:76 | a string trims to empty exactly when it is all whitespace |
| Js.TrimIdempotent | src/components/LocationSettingsView.tsx:97 | trimming twice is trimming once |
| Js.ParseNatToString | src/components/ImportDialog.tsx:122-126 | reading back a number's decimal text gives the number |
| Js.SplitJoin | src/components/ReminderCard.tsx:118-124 | splitting a comma-free list joined with `, ` gives the list back |
| Js.RoundPercent | src/components/ReminderCard.tsx:17-19 | the rounded percentage of `c` in `t`, 0 when `t` is 0, at most 100 when `c <= t` |

## Left out

- Floating point: coordinates, radii and accuracies are reals.
  `parseFloat` is a parameter returning a number or nothing. NaN, Infinity
  and rounding are not modelled.
- `calculateDistance` (the Haversine formula, `src/utils/geolocation.ts:7-25`)
  is a parameter. The model only assumes, where a lemma says so, that a point
  is at distance 0 from itself.
- Browser services are left out: toasts, the 300 ms timers, the clipboard,
  Web Share, file download, `FileReader`, notifications and
  `getCurrentPosition`. The GPS callback is a method that takes the fix.
- The geolocation error toasts of the location picker and the saved-place
  dialog are only messages, so they are left out.
- `JSON.parse` and `JSON.stringify` are left out. The import dialog takes
  the parsed value, or the text of what the parse threw. The export is
  modelled as the object that would be stringified.
- The message of the `TypeError` thrown on reading a property of `null` is
  engine text and is not modelled. The model keeps only that it is thrown.
- `toFixed(6)` and the printing of numbers in text fields are a parameter
  `show`.
- `parseInt` of the radius slider: the slider is modelled as giving an
  integer.
- `Date.now()`: the clock is a parameter.
- React: StrictMode double effects and render timing are not modelled.
  Effect ordering is modelled only where it matters: cleanup before a
  re-run, in the finding below.
- Days.Sort: `Array.prototype.sort` compares by string. On days 0–6 this
  agrees with numeric order, which the model uses.
- The `getDaysText` of `ShareDialog.tsx:58-64` is the same as the card's and
  is modelled by `ReminderCard.DaysText`.
- The import preview's priority label (`ImportDialog.tsx`) is a rendering
  of the same names and is not modelled.
- Plain field setters (title, icon, address and similar text inputs), badge
  colours, icons and the preset group's disabled name field are rendering
  only.
- The screen navigation handlers, the selected-reminder sync and the
  settings and statistics screens of `App.tsx` are outside this model.
- LocationTracking.Tracker.OnPosition and OnPositionError require an
  active watch, because the browser calls them only while a watch is
  registered.
- ImportDialog.ImportForm and LocationTracking.Tracker keep the code as
  written, so the findings below can be observed on them. The corrected
  definitions sit beside them.

## Findings

| source | as written | input that shows it | evidently intended | confidence | as-written member | corrected member |
|---|---|---|---|---|---|---|
| src/hooks/useLocationTracking.ts:38-46 | when no reminder needs location, tracking stops only if `watchIdRef.current` is set, but the previous effect's cleanup has already cleared it | one watched reminder, a first sample, then the list without it: `isTracking` stays true with no watch | report tracking off whenever nothing is watched | high (not executed) | LocationTracking.StaleTrackingAfterLastLocationReminderRemoved | LocationTracking.CorrectedRerunStopsTracking |
| src/components/ImportDialog.tsx:86-88 | the checklist check accepts any array, and the import then reads `item.text` of every element | `{"title":"a","icon":"b","priority":"urgent","trigger":"time","checklist":[null]}`: the preview is accepted, the import throws, and the dialog stays busy | reject a checklist whose items are not objects | high (not executed) | ImportDialog.NullChecklistItemAcceptedThenThrows | ImportDialog.CorrectedAcceptedImports |
