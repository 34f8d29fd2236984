# eCare-PD prototype: navigation and list logic

This project models the state logic of the eCare-PD prototype, a React web app that helps people with Parkinson's disease set self-care goals, keep a diary and move between feature pages. The model covers four components:

- **Goal-setting flow** (`GoalSettingFlow`). A dialogue driven by a taxonomy document.
  - The person picks top-level areas in an initial dialogue.
  - Each area leads to a flow of steps. A step can show an after-selection message. A choice on step 0 can branch to detail steps.
  - Finished flows are remembered as completed. When no selected area is left, a summary lists the collected goal choices.
  - The model covers selection toggling, Next and Back, the progress percentage, and the accumulator that turns selections into goal records.
- **Diary** (`DiaryEntries`). Saving a draft as a new entry, bookmarking, a filtered and sorted view, clearing the filters, and the bookmark count.
- **Goal editor** (`UpdateGoalsPage`).
  - It lists goal-eligible options per flow, in a fixed flow order.
  - It toggles the set of selected ids.
  - It maps the selected ids back to goal records.
- **App shell** (`App`). The welcome, goal-flow and page flags, the `cameFromWelcome` routing, and the render priority between them.

Layout:

- Each component is a `class` whose fields are the component's state cells. Its handlers are methods that update the fields.
- Every handler is proved against a specification function on a value of the state (`AfterNext`, `AfterBack`, `Saved`, `Toggled`, …), in the form `State() == AfterX(old(State()))`.
- Lemmas state what those functions promise: invariants they keep, round trips, undo pairs, membership and order.
- Loops that build lists in the source (`collectFinalSelections`, `getFlowOptions`, `handleSaveChanges`) are methods with loop invariants, proved equal to recursive reference functions.

Modules:

- `Common`: optional fields, JavaScript truthiness, and plain objects as insertion-ordered maps.
- `Taxonomy`: the taxonomy document.
- `StepKeys`: the step keys `"<flow>_<index>"` and how they are parsed.
- `FinalSelections`: the accumulator.
- `GoalFlow`: the goal-setting dialogue.
- `Diary`: the diary list.
- `UpdateGoals`: the goal editor.
- `App`: the page shell.

## Model

| member | source | states |
|---|---|---|
| Common.Get | src/components/features/GoalSettingFlow/GoalSettingFlow.js:79-85 | reading a property gives a value exactly when the object has that key, and the value is the one stored under it |
| Common.Put | src/components/features/GoalSettingFlow/GoalSettingFlow.js:79-91 | `{...m, [k]: v}` makes `k` read `v` and leaves every other key's value alone; an existing key keeps its position, a new key is appended at the end |
| Common.PutDistinct | src/components/features/GoalSettingFlow/GoalSettingFlow.js:79-91 | spreading a property into an object keeps its keys distinct |
| Common.Distinct | src/pages/UpdateGoalsPage/UpdateGoalsPage.js:68 | `new Set(ids)` holds exactly the ids of the list, without duplicates |
| Common.Remove | src/pages/UpdateGoalsPage/UpdateGoalsPage.js:75-76 | `Set.delete` removes exactly that id and keeps the set duplicate-free |
| Taxonomy.FlowIds | src/components/features/GoalSettingFlow/GoalSettingFlow.js:56 | the keys of `flows` are exactly the ids of the flows |
| Taxonomy.LookupFlow | src/components/features/GoalSettingFlow/GoalSettingFlow.js:121-122 | `flows[id]` finds a flow exactly when one has that id, and the flow found has that id |
| Taxonomy.FlowIdsCount | src/components/features/GoalSettingFlow/GoalSettingFlow.js:56 | `Object.keys(flows).length` is the number of flows |
| Taxonomy.OptionIndex | src/components/features/GoalSettingFlow/GoalSettingFlow.js:284-286 | `options.find(o => o.id === id)` returns the first option with that id, or reports that there is none |
| StepKeys.LastIndexOf | src/components/features/GoalSettingFlow/GoalSettingFlow.js:267-270 | the position of the last underscore, or -1 when the key has none |
| StepKeys.StepKeyRoundTrip | src/components/features/GoalSettingFlow/GoalSettingFlow.js:266-271 | splitting `"<flow>_<index>"` at its last underscore and parsing the tail gives back exactly the flow and the index, even when the flow id contains underscores |
| StepKeys.StepKeyDistinct | src/components/features/GoalSettingFlow/GoalSettingFlow.js:65-68 | two steps share a key only when flow and index are equal, and no step key is `initial` or `summary` |
| FinalSelections.SelectionOf | src/components/features/GoalSettingFlow/GoalSettingFlow.js:295-302 | a collected record keeps the option id; its name falls back from `name` to `text` to the id, and its short description from `short_description` to `definition` to a fixed text, so neither is empty for a non-empty id |
| FinalSelections.EntryCandidate | src/components/features/GoalSettingFlow/GoalSettingFlow.js:277-305 | a selected option contributes at most one record, and that record carries the option's id |
| FinalSelections.EntryCandidateAtStep | src/components/features/GoalSettingFlow/GoalSettingFlow.js:277-305 | under a synthesized key, an option is kept exactly when it is selected, found in that step of that flow, and on a detail step or goal-eligible; its record takes the name and description fallbacks |
| FinalSelections.CandidateIds | src/components/features/GoalSettingFlow/GoalSettingFlow.js:258-317 | before de-duplication an id is collected exactly when some key other than `initial` or `summary` records it as a kept selection |
| FinalSelections.DedupIds | src/components/features/GoalSettingFlow/GoalSettingFlow.js:307-309 | de-duplication loses no id and adds none |
| FinalSelections.DedupUnique | src/components/features/GoalSettingFlow/GoalSettingFlow.js:307-309 | the de-duplicated list has no two records with the same id |
| FinalSelections.DedupFirstWins | src/components/features/GoalSettingFlow/GoalSettingFlow.js:307-309 | every kept record is the first occurrence of its id, and kept records keep the order of those first occurrences |
| FinalSelections.LookUpEntry | src/components/features/GoalSettingFlow/GoalSettingFlow.js:281-305 | the body of the inner loop for one option produces that option's candidate record (or none) |
| FinalSelections.CollectEntries | src/components/features/GoalSettingFlow/GoalSettingFlow.js:276-317 | the loop over one key's options extends the list exactly as de-duplicating the candidates appended so far |
| FinalSelections.Collect | src/components/features/GoalSettingFlow/GoalSettingFlow.js:251-327 | `collectFinalSelections` returns the de-duplicated candidates, with distinct ids, holding exactly the ids that some step recorded as kept |
| GoalFlow.SelectSingle | src/components/features/GoalSettingFlow/GoalSettingFlow.js:87-92 | in single-choice mode exactly the clicked option is selected at the step's key |
| GoalFlow.SelectMultiple | src/components/features/GoalSettingFlow/GoalSettingFlow.js:79-86 | in multi-choice mode the clicked option's membership flips and every other option at that key is unchanged |
| GoalFlow.SelectTwice | src/components/features/GoalSettingFlow/GoalSettingFlow.js:79-86 | toggling the same option twice in multi-choice mode restores the selected set of every key |
| GoalFlow.SelectOtherKeys | src/components/features/GoalSettingFlow/GoalSettingFlow.js:78-92 | selecting changes nothing under any other step key and keeps the selections well formed |
| GoalFlow.FindOption | src/components/features/GoalSettingFlow/GoalSettingFlow.js:107-109 | `find` returns the first position whose option passes the test, or reports that none does |
| GoalFlow.FindLastOption | src/components/features/GoalSettingFlow/GoalSettingFlow.js:349-351 | the last selected top-level option: the last position that passes the test, or none |
| GoalFlow.Filter | src/components/features/GoalSettingFlow/GoalSettingFlow.js:177-179 | `filter` keeps exactly the options that pass the test |
| GoalFlow.StepIndexOf | src/components/features/GoalSettingFlow/GoalSettingFlow.js:141-143 | `findIndex` on step ids returns the first step with that id, or -1 when none has it |
| GoalFlow.SelectedBranches | src/components/features/GoalSettingFlow/GoalSettingFlow.js:175-179 | the selected step-0 options that name a next step |
| GoalFlow.StartValid | src/components/features/GoalSettingFlow/GoalSettingFlow.js:9-16 | the initial state cells satisfy the flow invariant |
| GoalFlow.SelectPreservesValid | src/components/features/GoalSettingFlow/GoalSettingFlow.js:64-93 | selecting keeps the invariant |
| GoalFlow.FlowDonePreservesValid | src/components/features/GoalSettingFlow/GoalSettingFlow.js:219-249 | finishing a flow keeps the invariant and leads only to another flow or the summary |
| GoalFlow.NextPreservesValid | src/components/features/GoalSettingFlow/GoalSettingFlow.js:95-217 | Next keeps the invariant: a flow is current exactly outside the initial dialogue, only existing flows are completed, the selections are well formed, and the collected list has distinct ids |
| GoalFlow.BackPreservesValid | src/components/features/GoalSettingFlow/GoalSettingFlow.js:329-363 | Back keeps the invariant |
| GoalFlow.NextFromInitial | src/components/features/GoalSettingFlow/GoalSettingFlow.js:98-119 | with no top-level option selected, Next changes nothing; otherwise it enters the flow of the first selected option in dialogue order at step 0 with the confirmation cleared, or stays when that option names no flow |
| GoalFlow.ConfirmationOnlyFlag | src/components/features/GoalSettingFlow/GoalSettingFlow.js:161-166 | on step 0 of a step with an after-selection message, Next only raises the confirmation flag and Back only lowers it (lines 331-334), so Back undoes Next |
| GoalFlow.NextThenBack | src/components/features/GoalSettingFlow/GoalSettingFlow.js:208-211 | a default move from step 0 to step 1 is undone by Back (lines 336-337) |
| GoalFlow.BackThenNext | src/components/features/GoalSettingFlow/GoalSettingFlow.js:338-341 | Back from step 0 of the first selected flow returns to the initial dialogue, and Next from there re-enters exactly the same state |
| GoalFlow.ConfirmationTargets | src/components/features/GoalSettingFlow/GoalSettingFlow.js:126-159 | leaving the confirmation jumps to the step named by the first selected branch option when that step exists; when it names no existing step, or no branch is selected, it moves to the following step, or finishes the flow from the last step |
| GoalFlow.DetailTargets | src/components/features/GoalSettingFlow/GoalSettingFlow.js:169-203 | on a detail step the next step is that of the next selected branch after the current one, in step-0 option order |
| GoalFlow.DetailFromLastBranch | src/components/features/GoalSettingFlow/GoalSettingFlow.js:169-206 | from the step of the last selected branch, the detail transition finishes the flow |
| GoalFlow.NextOnDetail | src/components/features/GoalSettingFlow/GoalSettingFlow.js:168-206 | Next on a detail step follows `DetailTargets` and `DetailFromLastBranch`, and finishes the flow when the following branch names no existing step |
| GoalFlow.NextStaysOnExistingStep | src/components/features/GoalSettingFlow/GoalSettingFlow.js:120-213 | when Next stays in the current flow, the new step index is a step of that flow |
| GoalFlow.LaterStepsOnlyByBranch | src/components/features/GoalSettingFlow/GoalSettingFlow.js:126-206 | when Next lands on step 2 or later of the same flow, that step is the one a selected step-0 branch names, so a flow without branches never shows those steps |
| GoalFlow.NextInFlowShape | src/components/features/GoalSettingFlow/GoalSettingFlow.js:120-213 | in a flow, Next either stays in the flow with the same completed set or is `navigateToNextFlow` |
| GoalFlow.FlowDoneLeaves | src/components/features/GoalSettingFlow/GoalSettingFlow.js:229-248 | finishing a flow shows the summary or enters a different flow |
| GoalFlow.FlowDone | src/components/features/GoalSettingFlow/GoalSettingFlow.js:219-249 | the current flow joins the completed set and the selections are kept; the first selected top-level option, in dialogue order, whose flow is neither completed nor current decides: its flow is entered at step 0 with the confirmation cleared; when there is none the summary is shown, holding the de-duplicated kept candidates, with distinct ids |
| GoalFlow.SummaryOnlyWhenAllDone | src/components/features/GoalSettingFlow/GoalSettingFlow.js:224-248 | when every selected top-level option names a flow, the summary is reached only once all those flows are completed |
| GoalFlow.SummaryMoves | src/components/features/GoalSettingFlow/GoalSettingFlow.js:214-216 | from the summary, Next completes; Back (lines 342-362) re-enters the last step of the last selected option's flow |
| GoalFlow.OneFlowEnter | src/components/features/GoalSettingFlow/GoalSettingFlow.js:64-119 | in a one-flow taxonomy, selecting the top-level option makes Next clickable (lines 480, 543), and Next enters the flow at step 0 in a valid state |
| GoalFlow.OneFlowPick | src/components/features/GoalSettingFlow/GoalSettingFlow.js:64-93 | on that flow's only step, clicking its option selects it alongside the top-level choice and keeps the invariant |
| GoalFlow.DetailFallThrough | src/components/features/GoalSettingFlow/GoalSettingFlow.js:180-206 | when the branch after the current one names no existing step, or there is none, the detail transition finishes the flow |
| GoalFlow.OneFlowSummary | src/components/features/GoalSettingFlow/GoalSettingFlow.js:208-249 | with both options selected, Next is clickable on the flow's only step and shows the summary with the flow completed and the selections kept |
| GoalFlow.OneFlowBack | src/components/features/GoalSettingFlow/GoalSettingFlow.js:342-362 | Back is offered on that summary and re-enters the completed flow at its only step, keeping the invariant |
| GoalFlow.OneFlowWalk | src/components/features/GoalSettingFlow/GoalSettingFlow.js:64-362 | the whole trace select, Next, select, Next, Back is clickable at every step and ends in the completed flow with both options still selected, in a valid state |
| GoalFlow.ProgressAsWrittenOverflows | src/components/features/GoalSettingFlow/GoalSettingFlow.js:52-62 | in the state that trace reaches, `calculateProgress` as written returns 150 while counting the flow once gives 80; Next is still clickable there and leads to the summary, where the formula gives 90, so it exceeds 100 and then falls |
| GoalFlow.ProgressBounds | src/components/features/GoalSettingFlow/GoalSettingFlow.js:52-62 | progress counted once is a number between 10 and 100 in every valid state, and at most 80 inside a flow |
| GoalFlow.FlowDoneProgress | src/components/features/GoalSettingFlow/GoalSettingFlow.js:219-249 | finishing a flow never lowers the corrected progress |
| GoalFlow.ProgressMonotone | src/components/features/GoalSettingFlow/GoalSettingFlow.js:52-62 | Next never lowers the corrected progress |
| GoalFlow.ClickedSelection | src/components/features/GoalSettingFlow/GoalSettingFlow.js:518 | a click is single-choice exactly on a step whose `allow_multiple` is false; in the initial dialogue (line 468) and on every other step it flips the option |
| GoalFlow.GoalSettingFlow.constructor | src/components/features/GoalSettingFlow/GoalSettingFlow.js:9-16 | the component starts in the initial dialogue with nothing selected, and satisfies the invariant |
| GoalFlow.GoalSettingFlow.HandleOptionSelect | src/components/features/GoalSettingFlow/GoalSettingFlow.js:64-93 | `handleOptionSelect` updates the selections as `AfterSelect` and keeps the invariant |
| GoalFlow.GoalSettingFlow.ClickOption | src/components/features/GoalSettingFlow/GoalSettingFlow.js:413-416 | an option box's click calls `handleOptionSelect` with the box's `isMultiple` |
| GoalFlow.GoalSettingFlow.NavigateToNextFlow | src/components/features/GoalSettingFlow/GoalSettingFlow.js:219-249 | `navigateToNextFlow` moves the state as `AfterFlowDone` and keeps the invariant |
| GoalFlow.GoalSettingFlow.HandleNext | src/components/features/GoalSettingFlow/GoalSettingFlow.js:95-217 | `handleNext` moves the state as `AfterNext` and keeps the invariant |
| GoalFlow.GoalSettingFlow.LeaveConfirmation | src/components/features/GoalSettingFlow/GoalSettingFlow.js:126-159 | the confirmation branch of `handleNext` moves the state as `AfterConfirmation` |
| GoalFlow.GoalSettingFlow.NextDetailStep | src/components/features/GoalSettingFlow/GoalSettingFlow.js:168-206 | the detail-step branch of `handleNext` moves the state as `AfterDetail` |
| GoalFlow.GoalSettingFlow.HandleBack | src/components/features/GoalSettingFlow/GoalSettingFlow.js:329-363 | `handleBack` moves the state as `AfterBack` and keeps the invariant |
| Diary.Trim | src/components/features/DiaryEntries/DiaryEntries.js:110-113 | `trim()` yields the draft without its leading and trailing white space: what it drops at each end is all white space, and the piece kept neither starts nor ends with white space |
| Diary.TrimBlank | src/components/features/DiaryEntries/DiaryEntries.js:110 | the trimmed draft is empty exactly when the draft is all white space |
| Diary.LowerString | src/components/features/DiaryEntries/DiaryEntries.js:155-157 | lower-casing keeps the length and maps each character |
| Diary.FilterEntries | src/components/features/DiaryEntries/DiaryEntries.js:153-172 | the filter keeps exactly the entries that pass the search, date-range and bookmark tests, each as often as in the list |
| Diary.FilterConcat | src/components/features/DiaryEntries/DiaryEntries.js:153-172 | the filter keeps the list's order: filtering a concatenation filters each part in turn |
| Diary.SortByDate | src/components/features/DiaryEntries/DiaryEntries.js:175-179 | the sort is a permutation ordered by date, newest or oldest first |
| Diary.InsertSorted | src/components/features/DiaryEntries/DiaryEntries.js:175-179 | inserting into a sorted list keeps it sorted |
| Diary.VisibleSpec | src/components/features/DiaryEntries/DiaryEntries.js:152-189 | the view is a permutation of the filtered list: each matching entry as often as in the list and no other, sorted by the chosen order |
| Diary.InactiveFiltersListAll | src/components/features/DiaryEntries/DiaryEntries.js:204-218 | with no active filter the view is the whole list, newest first |
| Diary.WithBookmarkToggled | src/components/features/DiaryEntries/DiaryEntries.js:133-141 | entries with that id have their bookmark flipped; all others, the length, the order and every other field stay the same |
| Diary.ToggleTwice | src/components/features/DiaryEntries/DiaryEntries.js:133-141 | toggling the same id twice restores the list |
| Diary.CountBookmarked | src/components/features/DiaryEntries/DiaryEntries.js:221-223 | the count is the number of bookmarked positions of the list |
| Diary.Saved | src/components/features/DiaryEntries/DiaryEntries.js:109-130 | a blank draft leaves the list alone; otherwise exactly one entry is prepended, with id and date `now`, the trimmed text, source `journey`, no goal name and no bookmark, and the rest is unchanged |
| Diary.SavedKeepsBookmarks | src/components/features/DiaryEntries/DiaryEntries.js:109-130 | saving never changes the bookmark count (line 221-223) |
| Diary.DiaryEntries.constructor | src/components/features/DiaryEntries/DiaryEntries.js:20-33 | an empty draft, lowered flags and cleared filters over the given entries |
| Diary.DiaryEntries.FilteredAndSortedEntries | src/components/features/DiaryEntries/DiaryEntries.js:152-189 | the view is a permutation of the filtered list, sorted by the chosen order |
| Diary.DiaryEntries.BookmarkedCount | src/components/features/DiaryEntries/DiaryEntries.js:221-223 | the number of bookmarked entries |
| Diary.DiaryEntries.HandleSave | src/components/features/DiaryEntries/DiaryEntries.js:109-130 | the list becomes `Saved`; a blank draft changes nothing else; otherwise the draft is cleared and both saved flags are raised |
| Diary.DiaryEntries.ToggleBookmark | src/components/features/DiaryEntries/DiaryEntries.js:133-141 | only the list changes, as `WithBookmarkToggled` |
| Diary.DiaryEntries.EditDraft | src/components/features/DiaryEntries/DiaryEntries.js:144-149 | a new non-empty draft lowers both saved flags; any other edit leaves them alone |
| Diary.DiaryEntries.ClearFilters | src/components/features/DiaryEntries/DiaryEntries.js:204-210 | afterwards no filter is active (lines 213-218) and the view is the whole list, newest first |
| UpdateGoals.StepGoalOptionsMembers | src/pages/UpdateGoalsPage/UpdateGoalsPage.js:40-49 | a step lists exactly its goal-eligible options |
| UpdateGoals.FlowGoalOptionsMembers | src/pages/UpdateGoalsPage/UpdateGoalsPage.js:38-50 | a flow lists exactly the goal-eligible options of its steps |
| UpdateGoals.Group | src/pages/UpdateGoalsPage/UpdateGoalsPage.js:33-57 | a flow gets a section exactly when it exists and has a goal-eligible option, and the section lists those options |
| UpdateGoals.FlowOptionsContents | src/pages/UpdateGoalsPage/UpdateGoalsPage.js:32-59 | the result has a section under a key only for listed flows, and it is that flow's group |
| UpdateGoals.FlowOptionsOrder | src/pages/UpdateGoalsPage/UpdateGoalsPage.js:32-59 | sections appear in the listed flow order, omitting flows that are missing or have no eligible option |
| UpdateGoals.EditorSections | src/pages/UpdateGoalsPage/UpdateGoalsPage.js:24-61 | both facts for the fixed five-flow order |
| UpdateGoals.GoalIds | src/pages/UpdateGoalsPage/UpdateGoalsPage.js:68 | exactly the ids of the current goals |
| UpdateGoals.Toggled | src/pages/UpdateGoalsPage/UpdateGoalsPage.js:72-80 | toggling flips the membership of that id only and keeps the set duplicate-free |
| UpdateGoals.ToggleTwice | src/pages/UpdateGoalsPage/UpdateGoalsPage.js:72-80 | toggling twice restores the set's members, and restores the list when the id was absent |
| UpdateGoals.GoalOf | src/pages/UpdateGoalsPage/UpdateGoalsPage.js:95-105 | a goal record copies the option's id, name and text; smart-watch is true only when the option says true; the description falls back to the definition and then a fixed text, which it is exactly when neither is set, and is never empty; the short description falls back to the text |
| UpdateGoals.StepGoal | src/pages/UpdateGoalsPage/UpdateGoalsPage.js:92-106 | a step yields a goal exactly when the first option with that id is goal-eligible, and then it is that option's goal; none when no option has the id |
| UpdateGoals.FlowGoalNone | src/pages/UpdateGoalsPage/UpdateGoalsPage.js:91-108 | a flow yields no goal exactly when none of its steps does |
| UpdateGoals.FlowGoalFirst | src/pages/UpdateGoalsPage/UpdateGoalsPage.js:91-108 | `break` stops at the first step that yields a goal |
| UpdateGoals.FlowGoalId | src/pages/UpdateGoalsPage/UpdateGoalsPage.js:93-96 | a flow's goal carries the id searched for |
| UpdateGoals.GoalsForId | src/pages/UpdateGoalsPage/UpdateGoalsPage.js:89-110 | one id yields at most one goal per flow |
| UpdateGoals.GoalsForIdMembers | src/pages/UpdateGoalsPage/UpdateGoalsPage.js:89-110 | one id's goals are exactly the goals its flows yield |
| UpdateGoals.GoalsForIdSound | src/pages/UpdateGoalsPage/UpdateGoalsPage.js:89-110 | each of those goals has that id and is built from a goal-eligible option with that id in a step of one of the flows |
| UpdateGoals.SavedGoalsExactly | src/pages/UpdateGoalsPage/UpdateGoalsPage.js:82-114 | the saved goals are exactly those some flow yields for some selected id |
| UpdateGoals.SavedGoalsSound | src/pages/UpdateGoalsPage/UpdateGoalsPage.js:82-114 | every saved goal has a selected id and is built from a goal-eligible option with that id in a step of a listed flow |
| UpdateGoals.DroppedIds | src/pages/UpdateGoalsPage/UpdateGoalsPage.js:93-94 | an id that no goal-eligible option of the taxonomy carries yields no saved goal |
| UpdateGoals.EligibleIdSaved | src/pages/UpdateGoalsPage/UpdateGoalsPage.js:89-110 | a selected id that is the first match of its step and goal-eligible there is saved with some goal |
| UpdateGoals.SavedGoalsBound | src/pages/UpdateGoalsPage/UpdateGoalsPage.js:87-111 | at most one goal per selected id and flow |
| UpdateGoals.SameIdInTwoFlows | src/pages/UpdateGoalsPage/UpdateGoalsPage.js:89-107 | an id offered by two flows is saved twice, since `break` leaves only the step loop |
| UpdateGoals.UpdateGoalsPage.constructor | src/pages/UpdateGoalsPage/UpdateGoalsPage.js:9 | the page starts with the set of the current goals' ids (the effect at lines 67-70) |
| UpdateGoals.UpdateGoalsPage.SelectCurrentGoals | src/pages/UpdateGoalsPage/UpdateGoalsPage.js:67-70 | the selected set becomes exactly the ids of the current goals |
| UpdateGoals.UpdateGoalsPage.HandleToggleOption | src/pages/UpdateGoalsPage/UpdateGoalsPage.js:72-80 | the selected set becomes `Toggled` and stays duplicate-free |
| UpdateGoals.UpdateGoalsPage.GetFlowOptions | src/pages/UpdateGoalsPage/UpdateGoalsPage.js:12-62 | the loops build exactly the sections of `FlowOptionsOf` for the fixed order |
| UpdateGoals.UpdateGoalsPage.HandleSaveChanges | src/pages/UpdateGoalsPage/UpdateGoalsPage.js:82-114 | the loops build exactly `SavedGoals` for the selected ids |
| UpdateGoals.CollectGoalOptions | src/pages/UpdateGoalsPage/UpdateGoalsPage.js:38-50 | the step and option loops build exactly a flow's eligible options |
| UpdateGoals.FindFlowGoal | src/pages/UpdateGoalsPage/UpdateGoalsPage.js:91-108 | the step loop with `break` finds exactly a flow's goal for the id |
| App.PageFor | src/App.js:108-134 | each known page id selects its own page and only it; the goals page is passed exactly the stored goals and the completed flag; the introduction is passed a cancel callback exactly when it was reached from the welcome screen; any unknown page id gives the introduction without cancel |
| App.Render | src/App.js:87-140 | the welcome screen wins over the goal flow, which wins over the navigation layout, and that layout holds the page `PageFor` selects |
| App.StartConsistent | src/App.js:14-19 | the start state satisfies the shell invariant and shows the welcome screen |
| App.ActionKeepsConsistent | src/App.js:21-85 | every handler keeps the shell invariant |
| App.CancelOnlyFromWelcome | src/App.js:52-62 | a cancel callback is passed only with `cameFromWelcome`, and calling it leads back to the welcome screen |
| App.GoalsThenCancel | src/App.js:36-62 | the goals card renders the introduction and passes it a cancel callback, and calling it restores the previous state |
| App.StartThenCancelFlow | src/App.js:65-85 | starting the goal flow shows it, and cancelling it (line 102) restores the previous state |
| App.CompleteShows | src/App.js:71-85 | completing with selections stores them and renders the goals page with them; otherwise the introduction is rendered and the stored goals are kept; the flow is hidden either way |
| App.AppShell.constructor | src/App.js:14-19 | the shell starts on the welcome screen |
| App.AppShell.HandleGetStarted | src/App.js:22-26 | the shell moves as `AfterGetStarted` |
| App.AppShell.HandleNavigate | src/App.js:29-33 | the shell moves as `AfterNavigate` |
| App.AppShell.HandleFeatureClick | src/App.js:36-49 | the shell moves as `AfterFeatureClick` |
| App.AppShell.HandleCafyCancel | src/App.js:52-62 | the shell moves as `AfterCafyCancel` |
| App.AppShell.HandleStartGoalSetting | src/App.js:65-68 | the shell moves as `AfterStartGoalSetting` |
| App.AppShell.HandleGoalSettingComplete | src/App.js:71-85 | the shell moves as `AfterGoalSettingComplete` |

## Left out

- Timers. Two of them:
  - the `setTimeout` that hides the save confirmation after three seconds;
  - the `setTimeout` that collects the final selections in `navigateToNextFlow`, which is modelled as a synchronous call on the same selections.
- `console.log` calls, JSX and CSS, scrolling, the tooltip state, and the `[selected_areas_name]` text splice.
- The clock. `Date.now()` and `new Date()` become the parameter `now`, which is both the new entry's id and its date. Dates are millisecond instants.
- Time zones. A date filter field is the instant its day begins, and the end bound is that instant plus 23:59:59. The model takes the local zone to be UTC.
- `toLocaleDateString` formatting.
- JavaScript's ordering of integer-like object keys. Objects keep plain insertion order. A flow or option id that looks like an array index would be listed first by JavaScript.
- Diary.LowerString: lower-cases only the ASCII letters A-Z. `toLowerCase` also maps other Unicode letters.
- StepKeys.ParseStepKey: reads keys without leading blanks or a sign. Every key the component builds has that form, so `parseInt`'s handling of those is not modelled.
- The taxonomy JSON. It is a parameter, and nothing is assumed about which `next_step` or `next_flow` ids resolve. A step without an `options` array is modelled as a step with no options.
- The sample diary entries, which are a parameter of the constructor.
- The filter panel's setters and its show/hide toggle. They set one field each.
- GoalFlow.GoalSettingFlow.HandleNext: does not require that the current key has a selection. The button is `disabled` without one (lines 480 and 543); the predicate `NextClickable` states that condition, and the Findings trace checks it at every click, but the transition functions are defined for every state.
- GoalFlow.GoalSettingFlow.HandleNext: requires the current flow and step to exist, because the buttons are only rendered then (lines 493-505). The same holds for `HandleBack`, and for Back from the summary, which the source would let throw on a missing flow.
- The helpers `LeaveConfirmation`, `NextDetailStep`, `CollectEntries`, `LookUpEntry`, `CollectGoalOptions` and `FindFlowGoal` are pieces of single source functions, split out to keep each proof small. A `return` in the source ends the helper.
- The callbacks.
  - `onUpdateGoals` in the goal editor becomes the return value of `HandleSaveChanges`.
  - `onComplete` of the goal flow is modelled on the App side (`HandleGoalSettingComplete`).
  - The flow's own `handleCancel` and `handleComplete` wrappers (GoalSettingFlow.js:365-375) only forward to that callback.
- `UpdateGoals.GoalOf`: `smart_watch` is an optional boolean. A truthy non-boolean value, which `|| false` would pass through, is not modelled.
- The progress percentage is a real number rather than a floating-point one. The formula's values (10 plus a share of 70) are exact at the precision shown.
- App.Offered: over-approximates what the user can do. It lists the callbacks the shell passes to the rendered page, not the buttons the page draws for them.
  - `CafyIntroPage` (src/pages/CafyIntroPage/CafyIntroPage.js:8) reads only `onStartGoals`, so the cancel callback the shell passes is never drawn as a button.
  - `GoalsPage` (src/pages/GoalsPage/GoalsPage.js:9-18) reads a `goals` list, not the `goalData`, `hasCompletedGoalSetting` and `onStartGoalSetting` props the shell passes, so it lists its default empty `goals` rather than the stored goals. The model states what the shell passes, not what the page shows.
- Files outside the four components are not part of this model:
  - the tracking data generator and chart;
  - colour helpers;
  - presentational components and pages;
  - the feature constants.

## Findings

| source | as written | input that shows it | evidently intended | confidence | as-written member | corrected member |
|---|---|---|---|---|---|---|
| src/components/features/GoalSettingFlow/GoalSettingFlow.js:52-62 | `calculateProgress` adds 1 for the current flow on top of `completedFlows.size`, even when the current flow is already completed, which happens after Back from the summary (or Back to the initial dialogue and re-entry) | one flow `f` whose only step has one option `p`, reached from top-level option `o`: select `o`, Next, select `p`, Next (summary), Back gives 10 + 2/1·70 = 150 %, and Next then gives 90 %; Next has a selection at every press (the trace is `GoalFlow.OneFlowWalk`) | count the current flow once, so progress stays between 10 and 80 % inside a flow and never decreases | not executed | GoalFlow.ProgressAsWrittenOverflows | GoalFlow.ProgressMonotone |
