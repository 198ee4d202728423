# Task manager: client-side logic

A Dafny model of the pure logic in a single-page task list backed by a hosted
`tasks` table. The page lists tasks, filters them by status, shows counts,
creates tasks through a collapsible form, and edits, toggles and deletes them
through per-task cards. The store and the query library are treated as
abstract: each store call is represented by the response it returned.

Modules, one per source concern:

- `Opt`: an optional value, standing for JavaScript's `undefined` and `null`.
- `Text`: ECMAScript `String.prototype.trim` and the white-space set it strips, and the
  `s || null` / `s || undefined` rule that turns an empty string into an absent value.
- `TaskTypes` (`src/types/task.ts`): the two-valued status, the stored task, and the
  create and update inputs. Every optional field is an `Option`.
- `Validation` (the `taskSchema` in `TaskCard.tsx` and `TaskForm.tsx`): trim-then-length
  rules with one message per failing field. The two components declare the same
  schema, so it is modelled once and both components use it.
- `Gateway` (`src/hooks/useTasks.ts`): how a store error becomes a thrown error, the insert
  row and update patch each mutation builds, and what an update patch does to a stored row.
  It also covers how a settled mutation marks the cached collection stale (success only)
  and which notice it shows, and how a list query fills the cache.
- `TaskView` (`src/pages/Index.tsx`): the filtered list and the per-filter counts. The page
  opens on the `All` filter (`TaskView.InitialFilter`).
- `TaskStats` (`src/components/tasks/TaskStats.tsx`): the three stat tiles.
- `TaskCard` and `TaskForm`: each component is an explicit state machine. An event yields
  the next state and, at most, one request to a mutation. A mutation's outcome comes
  back as a separate settle event. Disabled or hidden controls are modelled as events
  that change nothing.

Two behaviours of the code are pinned down as lemmas:

- `max(200)` and `max(1000)` are inclusive. A title of exactly 200 characters and a
  description of exactly 1000 are accepted, although the messages say "less than"
  (`Validation.TitleOf200Accepted`, `Validation.DescriptionOf1000Accepted`).
- Clearing the description in a card's editor does not clear the stored description.
  The card sends a blank description as `undefined`. The update hook then omits the
  key, so the store keeps the old value (`TaskCard.ClearedDescriptionIsKept`).

## Model

| member | source | states |
|---|---|---|
| Text.Trim | src/components/tasks/TaskCard.tsx:26-27 | the trimmed string is `s` with a white-space prefix and suffix removed; it has no white space left at either end; it is empty iff `s` is all white space |
| Text.NullIfEmpty | src/hooks/useTasks.ts:35 | `s \|\| null` on a string: the result is absent iff the string is empty, and is the string itself otherwise. The same rule applies to the update patch at line 65 |
| Text.UndefinedIfEmpty | src/components/tasks/TaskCard.tsx:68 | `description \|\| undefined` as in TaskForm.tsx:42: a description is passed on iff it is defined and not empty, and then unchanged |
| Text.TrimIdempotent | src/hooks/useTasks.ts:34-35 | trimming a value the schema already trimmed changes nothing, so the hook's second trim is harmless |
| TaskTypes.Toggled | src/components/tasks/TaskCard.tsx:44 | the toggle always moves to the other of the two statuses |
| TaskTypes.ToggleInvolution | src/components/tasks/TaskCard.tsx:44 | toggling twice restores the status |
| Validation.Validate | src/components/tasks/TaskCard.tsx:25-28 | the same schema as TaskForm.tsx:10-13. Input is valid iff the trimmed title has 1 to 200 characters and the description is absent or trims to at most 1000. Valid input yields the trimmed values. Invalid input flags each failing field independently, with "Title is required", "Title must be less than 200 characters" or "Description must be less than 1000 characters" |
| Validation.TitleOf200Accepted | src/components/tasks/TaskCard.tsx:26 | a 200-character title passes despite the "less than 200" message |
| Validation.TitleOf201Refused | src/components/tasks/TaskCard.tsx:26 | a 201-character title is refused with exactly the title-too-long message and nothing else |
| Validation.DescriptionOf1000Accepted | src/components/tasks/TaskCard.tsx:27 | a 1000-character description passes |
| Validation.DescriptionOf1001Refused | src/components/tasks/TaskCard.tsx:27 | a 1001-character description is refused with only the description message |
| Validation.ValidateIdempotent | src/components/tasks/TaskForm.tsx:10-13 | the values the schema yields validate again to themselves |
| Gateway.Unwrap | src/hooks/useTasks.ts:41-45 | a store error is rethrown with the same message and no data; otherwise the data is returned |
| Gateway.CreatePayload | src/hooks/useTasks.ts:33-37 | the insert row holds the trimmed title. Its description is the trimmed description, or null when absent or blank. Its status is the supplied one, or pending when none is supplied |
| Gateway.CreatePayloadNormalised | src/hooks/useTasks.ts:34-35 | whatever the input, the row never carries a blank description and both strings are trimmed |
| Gateway.UpdatePatch | src/hooks/useTasks.ts:62-66 | the patch has a key exactly for each defined input field. The title is trimmed. The description is trimmed, and blank becomes null. The status is copied |
| Gateway.ApplyPatch | src/hooks/useTasks.ts:68-73 | the store's update overwrites the columns whose keys are present and keeps every other column and the id |
| Gateway.UpdateChangesOnlySuppliedFields | src/hooks/useTasks.ts:62-73 | after an update, undefined fields keep their stored values and defined fields take the normalised input |
| Gateway.EmptyUpdateIsIdentity | src/types/task.ts:18-22 | an update input with no field defined is allowed and leaves the task unchanged |
| Gateway.SettledStatus | src/hooks/useTasks.ts:41-53 | a mutation reports success exactly when its function returned without throwing, and a thrown error leaves it failed with that error's message. Either way it is no longer pending |
| Gateway.Settle | src/hooks/useTasks.ts:47-53 | a successful mutation marks the tasks key stale and shows the success notice. A failed one shows only "Failed to … task: " plus the message and leaves the cache untouched. Cached tasks are never edited in place. The same holds for update (81-87) and delete (105-111) |
| Gateway.Load | src/hooks/useTasks.ts:11-22 | a successful list query replaces the cached collection and clears staleness. A failed one records the message and keeps what was cached |
| TaskView.WithStatus | src/pages/Index.tsx:20 | a task is in the filtered list iff it is in the collection and has the requested status |
| TaskView.FilterIsOrderedSelection | src/pages/Index.tsx:20 | the filtered list is the collection read at an increasing run of positions, and those positions are exactly the matching ones. It is the subsequence of matching tasks in their original order |
| TaskView.FilteredTasks | src/pages/Index.tsx:17-21 | with no data the list is empty; `all` returns the collection unchanged; a status returns exactly the tasks with that status |
| TaskView.StatusesPartition | src/pages/Index.tsx:24-26 | the pending and completed lists together are as long as the collection |
| TaskView.CountsOf | src/pages/Index.tsx:23-27 | `all` is the collection length, or 0 with no data, and `pending + completed == all` |
| TaskView.FilteredLengthIsCount | src/pages/Index.tsx:17-27 | for every filter the list shown is as long as the count on its button |
| TaskStats.Stats | src/components/tasks/TaskStats.tsx:9-32 | the tiles are Total, Pending and Completed in that order. Total is the number of tasks; the other two count each status, add up to the total, and equal the page's filter counts |
| TaskCard.Init | src/components/tasks/TaskCard.tsx:35-38 | a card starts in viewing mode, with the editor primed from the task (description or ""), no errors and nothing pending |
| TaskCard.StatusToggle | src/components/tasks/TaskCard.tsx:43-46 | the toggle sends an update for this task whose input defines only a status, and a different one. Applied to the stored task, it changes the status to the other value and nothing else. The update is marked pending |
| TaskCard.ToggleTwiceRestoresTask | src/components/tasks/TaskCard.tsx:43-46 | applying the toggle's patch changes only the status, and toggling the result restores the original task |
| TaskCard.SaveEdit | src/components/tasks/TaskCard.tsx:48-70 | a save validates the editor. On failure the card's messages are exactly the schema's, so each failing field gets its own message and the others none. It then sends nothing and stays in editing. On success it clears errors and sends the trimmed title. It sends the description only when it is not blank, and never a status |
| TaskCard.SettleUpdate | src/components/tasks/TaskCard.tsx:63-74 | an awaited save leaves editing on success and stays in editing on failure. A toggle's settle changes only the status |
| TaskCard.Cancel | src/components/tasks/TaskCard.tsx:77-82 | cancel returns the card to its initial state for the task (title, description or "", no errors, viewing); only mutation statuses are kept |
| TaskCard.Dispatch | src/components/tasks/TaskCard.tsx:84-244 | while an update or delete is pending, no user event changes the card or sends anything; Save is also blocked by a blank title and delete needs the confirmation. In the other direction, each enabled control does its job: Edit opens the editor, typing changes the edited field, an enabled Save runs the save handler, Cancel resets the editor, the toggle sends the flipped status and a confirmed delete sends a delete for this task's id; settle events always record their outcome. Every request starts from a non-pending card and makes it pending |
| TaskCard.EnabledSaveNeverTitleRequired | src/components/tasks/TaskCard.tsx:132-135 | with Save enabled, the only possible title message is the upper bound |
| TaskCard.ClearedDescriptionIsKept | src/components/tasks/TaskCard.tsx:64-70 | saving a blank description omits it from the update, so the stored description stays as it was |
| TaskCard.SaveStoresTrimmedEdits | src/components/tasks/TaskCard.tsx:64-70 | a save that reaches the store sets the trimmed title and, when the description is not blank, the trimmed description; the id and status stay as they were |
| TaskCard.SaveThenSettle | src/components/tasks/TaskCard.tsx:63-74 | a valid save sends an update; when it succeeds the editor closes, when it fails the editor stays open and the card records the failure message |
| TaskForm.HandleSubmit | src/components/tasks/TaskForm.tsx:23-43 | a submit drops the old messages and validates. On failure the form's messages are exactly the schema's, so each failing field gets its own message and the others none. No create is sent. On success it sends the trimmed title, the trimmed description only when it is not blank, and no status |
| TaskForm.SettleCreate | src/components/tasks/TaskForm.tsx:39-49 | a successful create empties both inputs and collapses the form; a failed one keeps what was typed |
| TaskForm.Cancel | src/components/tasks/TaskForm.tsx:90-95 | cancel collapses the form and clears title, description and messages |
| TaskForm.Dispatch | src/components/tasks/TaskForm.tsx:55-103 | while a create is pending, no user event changes the form or sends anything, and submit is blocked by a blank title. In the other direction, focus expands an idle form, typing changes the field, an enabled submit on an expanded form runs the submit handler, Cancel on an expanded idle form resets it, and the create's settling is always recorded. A create is sent only from an expanded, idle form and makes it pending |
| TaskForm.SubmittedRowIsWellFormed | src/components/tasks/TaskForm.tsx:40-43 | any create the form sends becomes a pending row with a trimmed, non-empty title of at most 200 characters. Its description is absent or trimmed, non-empty and at most 1000 characters |
| TaskForm.EnabledSubmitNeverTitleRequired | src/components/tasks/TaskForm.tsx:103 | with submit enabled, the only possible title message is the upper bound |
| TaskForm.SuccessfulCreateResetsForm | src/components/tasks/TaskForm.tsx:44-46 | a submit that succeeds returns the form to its mounted state |

## Left out

- Rendering: JSX, CSS classes, icons, animations, the struck-through title, `TaskFilter.tsx` and `TaskList.tsx`, and the loading and error panels of the page. The "Try again" button is simply another `Gateway.Load`.
- The store itself. It assigns ids and timestamps and orders the list by `created_at` descending. An update of an unknown id comes back as an error, because the update asks for a single row (src/hooks/useTasks.ts:73). A delete of an unknown id does not: it matches no row, returns no error and is reported as a successful delete (src/hooks/useTasks.ts:96-107). All of this is remote, so a store call is represented only by its response.
- Gateway.ApplyPatch: does not model the store's `updated_at` maintenance; both timestamps are left as they were.
- The query library's scheduling: refetch on mount and after invalidation, retries, and `isLoading`. Invalidation is a single stale flag, and `Gateway.Load` is one run of the list query.
- Asynchrony and racing mutations. Each mutation settles through its own event, and concurrent edits at the store are last-write-wins.
- Notifications are modelled only as their text; how they are displayed is not modelled, and neither is date formatting.
- Text.IsWhitespace: the Space_Separator list is fixed at the code points listed. Lengths count Unicode scalar values, not the UTF-16 code units JavaScript counts, so a title with characters outside the Basic Multilingual Plane can differ at the 200 and 1000 bounds.
- The card disappearing once its task is deleted and the list refetched. The card's `editTitle` and `editDescription` are primed once and not re-primed when the task changes; the model reproduces this.
- Implicit form submission by Enter is modelled as pressing the submit button, which exists only while the form is expanded.
