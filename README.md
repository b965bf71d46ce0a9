# Campaign-strategy wizard: navigation, progress, uploads and personas

This project models, in Dafny, the client-side state bookkeeping of a multi-step
campaign-strategy wizard written in React. The wizard walks the user through four
steps (Brief, Strategy, Concept, Execution) of three sections each, tracks which
sections are completed, shows progress in a sidebar, accepts reference documents
through an upload box, and edits target-audience "persona" records in a dialog
opened from an audience dropdown.

The model has one module per component:

- `Seqs` (`seqs.dfy`): the JavaScript array operations the components use
  (`indexOf`, `filter` by value) plus facts about duplicates and subsequences.
- `Options` (`options.dfy`): an optional value, for `null` and absent fields.
- `Sections` (`sections.dfy`): the fixed list of twelve section keys and the title
  and description lookups with their fallbacks (`components/StrategyApp.tsx`).
- `Wizard` (`wizard.dfy`): the `activeSection` / `completedSections` state as a
  class whose methods are Back, Next and a sidebar jump. Each method is tied to a
  pure transition function. The transitions take the section order as a parameter,
  and the class passes the twelve keys. Lemmas hold for any non-empty,
  duplicate-free order. They state how each transition moves, the invariant all
  reachable states keep, and the walk through all sections. Instances for the
  twelve keys follow.
- `Navigation` (`navigation.dfy`): the sidebar's own grouping of the keys into
  steps, the step of a section, the progress ratio, the step-card and sub-item
  completion marks, and the header's "Import Brief" button
  (`components/SectionNavigation.tsx`).
- `Upload` (`file_upload.dfy`): the per-file type and size checks, the batch loop
  (a method proved against filter functions), the all-or-nothing merge, and
  removal by index (`components/FileUpload.tsx`).
- `Personas` (`persona_dialog.dfy`): the persona record, the default record, the
  form's field edits, checklist toggles and document replacement (pure functions
  applied by a class), the remount key, the title and the order of calls on Save
  (`types/index.ts`, `components/PersonaDialog.tsx`).
- `Audience` (`audience_dropdown.dfy`): the five audience items, the toggle by id,
  the selected count and its label, and the requests that open the persona dialog
  (`components/TargetAudienceDropdown.tsx`).

The model follows the code as written, including where it is lenient:

- `handleSectionChange` accepts any key. A jump to an unknown key is not an error.
- `removeFile` with an index outside the list returns an equal list. It raises no error.
- `getStepFromSection` sends an unknown key to step 1.
- A step card is completed by position: its id is below the current step, or it
  is step 4 and the completed list has twelve entries. Having its three sections
  completed plays no part.
- Progress counts entries of the completed list. Next can record an unknown key
  there, so only reachable states with known jumps are bounded by 100 %.

## Model

| member | source | states |
|---|---|---|
| `Seqs.IndexOf` | components/StrategyApp.tsx:93 | `indexOf` gives -1 exactly when the key is absent, and otherwise the first position holding it |
| `Seqs.RemoveAll` | components/PersonaDialog.tsx:93 | filtering out a value removes every occurrence of it, keeps every other element, and never adds one |
| `Sections.SectionListShape` | components/StrategyApp.tsx:73-90 | the section list has twelve distinct keys, from "campaign-basics" to "timeline-management" |
| `Sections.SectionTitle` | components/StrategyApp.tsx:24-40 | each of the twelve keys gets its mapped title; any other key gets "Section" |
| `Sections.SectionDescription` | components/StrategyApp.tsx:42-70 | each of the twelve keys gets its mapped description; any other key gets "Complete this section to move forward." |
| `Sections.DefaultsOnlyForUnknownKeys` | components/StrategyApp.tsx:24-70 | the default title and the default description appear if and only if the key is not one of the twelve |
| `Wizard.AllSectionsWellFormed` | components/StrategyApp.tsx:73-90 | the wizard's order is non-empty and duplicate-free, starts at "campaign-basics" and ends at "timeline-management", and the initial state is its first section with nothing completed |
| `Wizard.Back` | components/StrategyApp.tsx:92-97 | Back never changes the completed list |
| `Wizard.BackMoves` | components/StrategyApp.tsx:92-97 | in a duplicate-free order, Back moves from position i > 0 to position i - 1; at the first section or a key outside the order the state is unchanged |
| `Wizard.Next` | components/StrategyApp.tsx:99-105 | Next appends the active section to the completed list only when it is not there yet |
| `Wizard.NextMoves` | components/StrategyApp.tsx:107-110 | in a duplicate-free order, Next moves from any position but the last to the next one, stays on the last section, and sends a key outside the order to the first section |
| `Wizard.SectionChange` | components/StrategyApp.tsx:20-22 | a jump sets the active section to the given key, known or not, and leaves the completed list alone |
| `Wizard.StrategyApp.constructor` | components/StrategyApp.tsx:13-18 | the wizard starts on "campaign-basics" with nothing completed |
| `Wizard.StrategyApp.HandleSectionChange` | components/StrategyApp.tsx:20-22 | the state after a jump is the jump transition of the state before |
| `Wizard.StrategyApp.HandleBack` | components/StrategyApp.tsx:92-97 | the state after Back is the Back transition of the state before |
| `Wizard.StrategyApp.HandleNext` | components/StrategyApp.tsx:99-111 | the state after Next is the Next transition of the state before |
| `Wizard.CompletedBounded` | components/StrategyApp.tsx:102-105 | a duplicate-free completed list of known sections has at most as many entries as the order |
| `Wizard.TransitionsPreserveValid` | components/StrategyApp.tsx:92-111 | Back, Next and jumps to known keys keep the active section known and the completed list a duplicate-free list of known sections |
| `Wizard.ReachableStatesValid` | components/StrategyApp.tsx:12-111 | every state reached from the initial one by Back, Next and known jumps is valid, with at most twelve completed sections |
| `Wizard.BackAfterNext` | components/StrategyApp.tsx:92-110 | Back after Next from any known section except the last returns to that section |
| `Wizard.NextClampsAtEnd` | components/StrategyApp.tsx:102-110 | Next on the last section stays there but records it as completed, and a second Next changes nothing |
| `Wizard.NextFromUnknown` | components/StrategyApp.tsx:100-110 | Next from an unknown key goes to the first section and records the unknown key; Back from it changes nothing |
| `Wizard.AdvanceFromStart` | components/StrategyApp.tsx:99-111 | in a duplicate-free order of m sections, n presses of Next from the first section leave position min(n, m - 1) active with exactly the first min(n, m) sections completed, in order |
| `Wizard.NextAt` | components/StrategyApp.tsx:99-110 | in a duplicate-free order, Next from position i goes to position min(i + 1, last) and records the section at i |
| `Wizard.NextInWizard` | components/StrategyApp.tsx:99-110 | in the wizard, Next from position i goes to position min(i + 1, 11) and records the section at i |
| `Wizard.WalkThroughWizard` | components/StrategyApp.tsx:99-111 | in the wizard, n presses of Next from the start leave section min(n, 11) active with the first min(n, 12) sections completed; from twelve presses on, all twelve are completed and "timeline-management" stays active |
| `Navigation.Keys` | components/SectionNavigation.tsx:85-88 | the key list of a step has one key per sub-item, in sub-item order |
| `Navigation.StepFromSection` | components/SectionNavigation.tsx:90-96 | the step of any key lies in 1..4 |
| `Navigation.TotalSubItems` | components/SectionNavigation.tsx:99-102 | definition of `totalSubItems`, the reduce over the steps' sub-item counts; `SumIsFlattenedLength` and `StepsMatchSections` show it is 12 |
| `Navigation.SumIsFlattenedLength` | components/SectionNavigation.tsx:99-102 | the reduce over the steps counts exactly the keys of all steps together |
| `Navigation.StepKeysAreSlices` | components/SectionNavigation.tsx:34-88 | step k + 1 lists exactly the keys at positions 3k to 3k + 2 of the wizard's section list |
| `Navigation.StepsMatchSections` | components/SectionNavigation.tsx:34-82 | the steps' keys read in step order are the wizard's section list; steps have ids 1..4 and three sub-items each, twelve in all |
| `Navigation.StepOfEachSection` | components/SectionNavigation.tsx:90-96 | the section at position i is in step i / 3 + 1 |
| `Navigation.LabelsAreTitles` | components/SectionNavigation.tsx:41-80 | each sub-item label equals the page title the wizard shows for that key |
| `Navigation.UnknownSectionIsStepOne` | components/SectionNavigation.tsx:95 | a key in no step is treated as step 1 |
| `Navigation.ProgressPercent` | components/SectionNavigation.tsx:103 | definition of the progress percentage as an exact ratio; `ProgressFacts` states its value, growth and bounds |
| `Navigation.ProgressFacts` | components/SectionNavigation.tsx:103 | progress is 100 k / 12 for k completed entries, grows with the list, and lies in 0..100 for a duplicate-free list of known sections |
| `Navigation.IsCurrentStep` | components/SectionNavigation.tsx:212 | definition of `isCurrentStep`; `CurrentExcludesCompleted`, `LastStepCanBeBoth` and `NextShowsLeftRow` describe it |
| `Navigation.IsStepCompleted` | components/SectionNavigation.tsx:213-215 | definition of a step card's `isCompleted`; `StepCompletion`, `CurrentExcludesCompleted` and `LastStepCanBeBoth` describe it |
| `Navigation.StepCompletion` | components/SectionNavigation.tsx:213-215 | steps 1 to 3 are completed if and only if they precede the current step; step 4 if and only if twelve entries are completed |
| `Navigation.CurrentExcludesCompleted` | components/SectionNavigation.tsx:212-215 | steps 1 to 3 are never both current and completed |
| `Navigation.LastStepCanBeBoth` | components/SectionNavigation.tsx:212-215 | step 4 is both current and completed on the last section with all sections done |
| `Navigation.ViewSubItem` | components/SectionNavigation.tsx:251-262 | definition of a sub-item row: drawn in the current step only, highlighted when active, checked when completed; `CheckMarkIgnoresActive`, `NextChecksLeftSection` and `NextShowsLeftRow` describe it |
| `Navigation.CheckMarkIgnoresActive` | components/SectionNavigation.tsx:251-262 | a sub-item's check predicate holds if and only if its key is completed, whatever section is active; its row is drawn if and only if its key's step is the active section's step |
| `Navigation.NextChecksLeftSection` | components/SectionNavigation.tsx:260-262 | after Next, the key of the section just left satisfies the check predicate |
| `Navigation.NextShowsLeftRow` | components/SectionNavigation.tsx:251-262 | after Next from position i, the row of the section just left is checked, and it is drawn if and only if i is not the third of its step or is the last section; when i is the third section of a step other than the last, that step is afterwards completed and no longer current, so it shows its preview card |
| `Navigation.ShowsImportBrief` | components/SectionNavigation.tsx:308 | definition of the header's "Import Brief" condition; `ImportBriefOnFirstSectionOnly` describes it |
| `Navigation.ImportBriefOnFirstSectionOnly` | components/SectionNavigation.tsx:308 | the header shows "Import Brief" if and only if the first section is active, as it is at the start |
| `Upload.FileError` | components/FileUpload.tsx:42-51 | definition of the per-file check, type first and size second; `FileErrorCases` describes it |
| `Upload.FileErrorCases` | components/FileUpload.tsx:35-51 | a file passes if and only if its type is one of the four and its size is at most 5242880; a bad type gives the type message and skips the size check; an allowed oversize file gives the size message |
| `Upload.CheckBatch` | components/FileUpload.tsx:30-54 | the loop leaves the passing files and the error messages of the others, each in input order |
| `Upload.BatchPartition` | components/FileUpload.tsx:33-54 | the passing and the rejected files together are exactly the batch |
| `Upload.BatchPartsSorted` | components/FileUpload.tsx:42-53 | the passing part holds only files that pass, the rejected part only files that fail |
| `Upload.ErrorsMatchRejected` | components/FileUpload.tsx:42-51 | there is one message per rejected file, and the k-th message is the error of the k-th rejected file |
| `Upload.ValidFilesInOrder` | components/FileUpload.tsx:53 | the passing files are a subsequence of the batch |
| `Upload.RejectedFilesInOrder` | components/FileUpload.tsx:33-54 | the rejected files are a subsequence of the batch, so their messages follow input order |
| `Upload.NoErrorsKeepsAll` | components/FileUpload.tsx:58-60 | a batch with no error passes whole |
| `Upload.Join` | components/FileUpload.tsx:57 | definition of `errors.join(", ")`; `JoinedErrorsEmptyIff` and `UploadBatch` describe it |
| `Upload.JoinedErrorsEmptyIff` | components/FileUpload.tsx:56-57 | the joined error text is empty if and only if there are no errors |
| `Upload.UploadBatch` | components/FileUpload.tsx:56-61 | with errors the list is unchanged and the error text is the messages joined by ", "; without errors the list gains the batch and the error text is cleared |
| `Upload.AllOrNothing` | components/FileUpload.tsx:56-61 | the error text is cleared if and only if every file of the batch passes; then the list gains the whole batch, otherwise the list is unchanged |
| `Upload.RemoveAt` | components/FileUpload.tsx:82-85 | an index inside the list removes that one entry and keeps the others in order; any other index returns the list unchanged |
| `Upload.RemoveAtExamples` | components/FileUpload.tsx:83 | removing index 1 from [a, b, c] gives [a, c]; indexes 5 and -1 on [a] give [a] |
| `Upload.UploadOneValidPdf` | components/FileUpload.tsx:56-61 | a 1 MB PDF uploaded into an empty list is accepted and the error text is cleared |
| `Upload.UploadMixedBatch` | components/FileUpload.tsx:56-57 | a 1 MB PDF next to a 6 MB PDF leaves the list unchanged and reports only the oversize file |
| `Upload.UploadTextFile` | components/FileUpload.tsx:42-45 | a text file is refused with the type message and the list is unchanged |
| `Upload.SizeLimitBoundary` | components/FileUpload.tsx:48 | a PDF of exactly 5242880 bytes passes and one of 5242881 bytes does not |
| `Upload.FileUpload.constructor` | components/FileUpload.tsx:23 | the upload box starts with the given list and an empty error text |
| `Upload.FileUpload.HandleFileUpload` | components/FileUpload.tsx:26-61 | a missing file list changes nothing; otherwise the new list and error text are the batch outcome |
| `Upload.FileUpload.RemoveFile` | components/FileUpload.tsx:82-85 | the list becomes the old list without the entry at the index, and the error text is kept |
| `Personas.SetField` | components/PersonaDialog.tsx:85-87 | editing a field gives it the new value and leaves the three lists unchanged |
| `Personas.SetFieldKeepsOthers` | components/PersonaDialog.tsx:85-87 | editing a field leaves every other text field unchanged |
| `Personas.Toggle` | components/PersonaDialog.tsx:89-96 | toggling flips whether the value is in the list and keeps every other value that was there without adding any |
| `Personas.ToggleKeepsOrder` | components/PersonaDialog.tsx:92-94 | removal leaves the other values in their order; adding puts the value after the unchanged list |
| `Personas.ToggleTwiceRestores` | components/PersonaDialog.tsx:89-96 | toggling an absent value twice gives back the original list |
| `Personas.ToggleGoal` | components/PersonaDialog.tsx:89-96 | a goal toggle changes only the goals and flips membership of the goal |
| `Personas.ToggleMotivation` | components/PersonaDialog.tsx:98-105 | a motivation toggle changes only the motivations and flips membership of the motivation |
| `Personas.ToggleRecordTwice` | components/PersonaDialog.tsx:89-105 | toggling an absent goal or motivation twice gives back the record |
| `Personas.ReplaceDocuments` | components/PersonaDialog.tsx:112-114 | replacing documents sets them to the given files and changes nothing else |
| `Personas.InitialFormData` | components/PersonaDialog.tsx:73-75 | the form starts as the given persona, or the default without one |
| `Personas.DefaultPersonaIsBlank` | components/PersonaDialog.tsx:28-47 | the default record has every required text field empty, no id or image, and empty lists |
| `Personas.PersonaKey` | components/PersonaDialog.tsx:70 | the key is "new" without a persona, its name when that is non-empty, and "edit" otherwise |
| `Personas.DialogTitle` | components/PersonaDialog.tsx:121 | the title is "Edit Persona" if and only if a persona is given, and "Create New Audience" otherwise |
| `Personas.PersonaDialog.constructor` | components/PersonaDialog.tsx:73-77 | the form data starts as the initial form data for the given persona |
| `Personas.PersonaDialog.HandleInputChange` | components/PersonaDialog.tsx:85-87 | the form data after an edit is the field update of the form data before |
| `Personas.PersonaDialog.HandleGoalToggle` | components/PersonaDialog.tsx:89-96 | the form data after a goal toggle is the goal toggle of the form data before |
| `Personas.PersonaDialog.HandleMotivationToggle` | components/PersonaDialog.tsx:98-105 | the form data after a motivation toggle is the motivation toggle of the form data before |
| `Personas.PersonaDialog.HandleDocumentsChange` | components/PersonaDialog.tsx:112-114 | the form data after a document change carries the new documents |
| `Personas.PersonaDialog.HandleSave` | components/PersonaDialog.tsx:107-110 | Save calls `onSave` with the current form data, then `onClose`, and nothing else |
| `Audience.TogglePersona` | components/TargetAudienceDropdown.tsx:42-50 | the toggle keeps length and order and flips `selected` exactly on the items with that id; ids, names and categories are untouched |
| `Audience.ToggleTwiceRestores` | components/TargetAudienceDropdown.tsx:42-50 | toggling the same id twice gives back the list |
| `Audience.ToggleUnknownId` | components/TargetAudienceDropdown.tsx:42-50 | toggling an id no item carries leaves the list unchanged |
| `Audience.SelectedCount` | components/TargetAudienceDropdown.tsx:82 | the count is at most the list length, is 0 if and only if nothing is selected, and equals the length if and only if everything is |
| `Audience.ToggleUniqueIdCount` | components/TargetAudienceDropdown.tsx:42-82 | toggling an id that one item carries moves the count by one, down if it was selected and up otherwise |
| `Audience.NatToString` | components/TargetAudienceDropdown.tsx:93 | a count prints as a non-empty string of decimal digits without a leading zero |
| `Audience.NatToStringRoundTrip` | components/TargetAudienceDropdown.tsx:93 | the printed count reads back as the count |
| `Audience.TriggerLabel` | components/TargetAudienceDropdown.tsx:92-96 | definition of the trigger text; `TriggerLabelCases` gives its three cases |
| `Audience.TriggerLabelCases` | components/TargetAudienceDropdown.tsx:92-96 | the label is "Select Target Audience" for 0, "1 audience selected" for 1, and "N audiences selected" for N > 1 |
| `Audience.ToPersona` | components/TargetAudienceDropdown.tsx:52-74 | an item becomes the default persona with the item's id, name and category |
| `Audience.EditRequest` | components/TargetAudienceDropdown.tsx:52-76 | editing an item hands the dialog that persona |
| `Audience.CreateNewRequest` | components/TargetAudienceDropdown.tsx:78-80 | "Create New Audience" hands the dialog no persona |
| `Audience.RequestsOpenTheRightDialog` | components/TargetAudienceDropdown.tsx:52-80 | for a create request the dialog's title is "Create New Audience", its key is "new" and its initial form data is the blank record; for an edit request the title is "Edit Persona", the key is the name, or "edit", and the initial form data carries the item's id |
| `Audience.TargetAudienceDropdown.constructor` | components/TargetAudienceDropdown.tsx:29-40 | the dropdown starts with the five built-in items |
| `Audience.TargetAudienceDropdown.HandlePersonaToggle` | components/TargetAudienceDropdown.tsx:42-50 | the list after a toggle is the toggle of the list before |
| `Audience.InitialList` | components/TargetAudienceDropdown.tsx:29-40 | the built-in list has five items with ids "1" to "5", none selected, so the label starts as "Select Target Audience" |

## Left out

- ContentRenderer.tsx is not part of this model. It is a switch over section keys returning static marketing copy.
- All markup, CSS classes, icons and colours are left out, including the step preview cards and the smart-tip flag. They are presentation only.
- React hook mechanics are left out: `useMemo`, the `useEffect` resync of the form data, `key` remounting, and batching of state updates. Each handler is one synchronous transition.
- Browser plumbing is left out: the file input reference, `handleDrop` and `handleDragOver`, `preventDefault`, and `File` objects. A file is a record of name, MIME type and size. A non-empty drop calls the same upload handler that is modelled. An empty drop is ignored, whereas an empty batch from the file picker clears the error text.
- The uploaded list is owned by the parent component and replaced through `onFilesChange`. The model keeps it as a field of the upload box.
- StrategyApp.tsx's dialog handlers are left out as state. `handlePersonaEdit` stores the persona it is given, or none, and opens the dialog. `handlePersonaSave` logs the data and closes the dialog. `handlePersonaDialogClose` closes it. In both cases the stored persona is cleared. The hand-off itself is modelled: the persona the dropdown passes is the one the dialog opens with (`Audience.RequestsOpenTheRightDialog`). The open flag, the log, the `activeTab` toggle and the Remove button (which has no handler) are left out.
- The selected-audience chips under the dropdown are left out. They are a rendering of the selected items, and their remove button is the toggle already modelled.
- `Personas.SetField`: only text-valued fields are modelled as targets of `handleInputChange`. That is how the dialog calls it, although the TypeScript signature also admits the list fields.
- `Sections.SectionTitle`: a key that names an inherited JavaScript object property (such as "constructor") would find that property instead of the fallback. The model treats only the twelve keys as mapped.
- `Sections.SectionDescription`: the description lookup has the same gap. An inherited JavaScript object property such as "toString" would be returned instead of the default text. The model treats only the twelve keys as mapped.
- `Sections.DefaultsOnlyForUnknownKeys`: it holds for every key except the inherited JavaScript object property names, which the model does not give their inherited values.
- `Navigation.ProgressFacts`: progress is an exact rational number, not an IEEE double, and the CSS percentage string is left out.
- `Audience.RequestsOpenTheRightDialog`: it states the initial form data the dialog computes from the persona it is given, not what the form shows. The dialog is mounted once, and its form is reset only when that persona changes. Two consecutive "Create New Audience" sessions both pass no persona, so the second one opens with the entries left by the first. The model does not track form data across dialog sessions.
- `Upload.FileErrorCases`: sizes are unbounded naturals. JavaScript numbers above 2^53 are not modelled.
