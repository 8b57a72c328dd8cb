# ZenFlow session core in Dafny

ZenFlow is a single-page Streamlit study assistant (`app.py`). A student enters a name and
uploads a syllabus. On the dashboard ("the Sanctuary") they add previous-year question papers
(PYQs) and ask Gemini for either a roadmap or a 20-card mock exam, which they then step through.
Every click reruns the whole script against `st.session_state`. A few keys of that state are
saved to `.zenflow_state.json` and restored from it. Each generated roadmap is also prepended
to `.zenflow_history.json`.

This project models the logic beneath the widgets:

- `State`: the session record, with the wizard step as a datatype. Steps 0, 1, 4, 5, 6 and 7
  are `Entry`, `SyllabusInput`, `Dashboard`, `RoadmapResult`, `MockRunner` and `MockComplete`.
- `Artifacts`: the two filename → text dicts, kept as sequences of pairs with unique keys so
  that insertion order is kept. Also the merged `"\n".join(values)` text.
- `Text`: the Python string operations the script relies on: `strip`, `upper`, `find`/`rfind`,
  `split`, slicing and `str(n)`.
- `Extraction`: the extraction loops and the upload loops that insert only absent names.
- `Gateway`: the credential precedence and the two request payloads.
- `Parsers`: the code-fence clean-up of a roadmap and the `[`…`]` slice of a mock-exam reply.
- `History`: the strategy log and its summary line.
- `Persistence`: the raw session dict, `load_state`'s merge, `save_state` and the start-up
  defaults.
- `Wizard`: one run of the script as a function from the session and disk to their new values.
  The sequence is the `load_state` prologue, the credential modal guard, the sidebar, then the
  current step's screen.
- `WizardProperties`: what the runs promise.
- `Runtime`: the same run performed imperatively. `Session` is a class whose fields are the
  session keys and whose methods update them in place. `Disk` is a class holding the two JSON
  files. Each method is proved to produce exactly the state the `Wizard` function describes,
  and `Handle` is proved to keep the invariant.

Gemini, the PDF reader, OCR, JSON decoding, the environment variable and the clock are
parameters (`World`). They are not modelled.

## Model

| member | source | states |
|---|---|---|
| Text.StripStart | app.py:546 | `lstrip` leaves a suffix of the input; only whitespace was removed, and the result does not start with whitespace |
| Text.StripEnd | app.py:546 | `rstrip` leaves a prefix of the input; only whitespace was removed, and the result does not end with whitespace |
| Text.Strip | app.py:546 | `strip`; its promise is stated by Text.StripSpec, Text.StripEmptyIffBlank and Text.StripIdempotent |
| Text.StripSpec | app.py:742 | `strip` returns a slice of the input with only whitespace on either side, and the slice neither starts nor ends with whitespace |
| Text.StripEmptyIffBlank | app.py:546 | a text strips to "" exactly when it is all whitespace, which is the "Manual Entry" test |
| Text.StripIdempotent | app.py:742 | stripping twice equals stripping once |
| Text.Upper | app.py:470 | `upper` keeps the length and maps each character through the ASCII case mapping |
| Text.UpperIdempotent | app.py:470 | an upper-cased name is a fixed point of `upper` and has no lower-case ASCII letter |
| Text.IndexFrom | app.py:739-741 | `find` from a start index returns the first occurrence at or after that index, or -1 when there is none |
| Text.IndexOf | app.py:780 | `find` returns -1 exactly when the pattern does not occur, else the first occurrence |
| Text.LastIndexFrom | app.py:781 | backwards search returns the last occurrence at or before the start index, or -1 |
| Text.LastIndexOf | app.py:781 | `rfind` returns -1 exactly when the pattern does not occur, else the last occurrence |
| Text.IndexOfPrefix | app.py:739-741 | searching a prefix finds the first occurrence only if it fits inside the prefix |
| Text.FindChar | app.py:780 | `find('[')` is -1 iff '[' is absent; otherwise it is an index holding '[' with none before it |
| Text.RFindChar | app.py:781 | `rfind(']')` is -1 iff ']' is absent; otherwise it is an index holding ']' with none after it |
| Text.Before | app.py:739-741 | the text before the first separator is a prefix of the input |
| Text.BeforeHasNoSep | app.py:739-741 | the text before the first separator contains no separator |
| Text.Split | app.py:739-741 | `split` gives at least one piece, and at least two exactly when the separator occurs |
| Text.SplitSpec | app.py:739-741 | piece 0 is the text before the first separator; piece 1 is the text between the first and second separators |
| Text.SplitJoin | app.py:739-741 | joining the pieces of a split with the same separator restores the text |
| Text.Take | app.py:700-702 | `s[:n]` is a prefix of `s` of length `min(|s|, n)` |
| Text.NatToString | app.py:66 | `str(n)` is a non-empty run of decimal digits |
| Text.ParseNatToString | app.py:66 | reading back the decimal form of `n` gives `n` |
| Text.LeadingDigits | app.py:66 | the leading digit run is a prefix made only of digits |
| Text.LeadingDigitsOfConcat | app.py:66 | digits followed by a non-digit read back as exactly those digits |
| Artifacts.AsMapDomain | app.py:386 | a name is in the dict view exactly when it is one of the stored keys |
| Artifacts.KeyIndex | app.py:412 | a present key has a position in insertion order, and the pair at that position has that key |
| Artifacts.AsMapAt | app.py:412 | with unique keys, each stored pair is what the dict returns for its key |
| Artifacts.AsMapReplace | app.py:412 | overwriting the pair at a key's position is the dict update at that key |
| Artifacts.AsMapDrop | app.py:417 | dropping the pair at a key's position is the dict deletion of that key |
| Artifacts.AppendUnique | app.py:388 | appending a pair whose key is new keeps the keys unique |
| Artifacts.Put | app.py:412 | `d[k] = v` keeps the keys unique and grows the dict by one exactly when `k` was absent |
| Artifacts.PutSpec | app.py:412 | after `d[k] = v`, `k` maps to `v` and every other key is unchanged; a new key goes last and an existing one keeps its place |
| Artifacts.AddIfAbsent | app.py:386-392 | an absent name is appended with its text; a present one leaves the dict unchanged |
| Artifacts.Remove | app.py:417 | `del d[k]` removes exactly `k`, closes the gap in insertion order, and keeps the keys unique |
| Artifacts.MergedText | app.py:698 | `"\n".join(d.values())` in insertion order; its promise is stated by Artifacts.MergedTextAppend and Artifacts.PutKeepsOrder |
| Artifacts.MergedTextAppend | app.py:698 | a newly added artifact's text lands at the end of the merged text, after a "\n" |
| Artifacts.PutKeepsOrder | app.py:412 | overwriting an artifact changes its text in place in the value order |
| Extraction.ExtractText | app.py:39-48 | the loop over the batch returns the concatenation of the per-file PDF texts and never fails |
| Extraction.ExtractTextFromImages | app.py:50-59 | the loop over the batch returns the per-image OCR texts, each followed by "\n"; an image that fails is skipped |
| Extraction.PdfTextConcat | app.py:39-48 | extracting a batch equals extracting its two parts one after the other |
| Extraction.ImageTextConcat | app.py:50-59 | the same for images |
| Extraction.PdfText | app.py:39-48 | the texts of the PDF files in upload order; Extraction.ExtractText is proved to compute it and Extraction.PdfTextConcat to split over batches |
| Extraction.ImageText | app.py:50-59 | the OCR texts in upload order, each followed by "\n", a failed image adding nothing; Extraction.ExtractTextFromImages is proved to compute it |
| Extraction.OfType | app.py:526-527 | the filter keeps exactly the files whose type is in the list |
| Extraction.OfTypeOne | app.py:526-527 | a single file is kept exactly when its type is listed |
| Extraction.OfTypeConcat | app.py:526-527 | filtering a concatenation is concatenating the filtered parts, so the filter keeps the upload order |
| Extraction.SidebarReader | app.py:387-392 | a PDF is read as a PDF, a PNG/JPEG/JPG through OCR, anything else is skipped; its use is stated by WizardProperties.SidebarUploadSpec and WizardProperties.JpgOnlyInSidebar |
| Extraction.PyqReader | app.py:675-677 | every PYQ file is read as a PDF; its use is stated by WizardProperties.PyqUploadSpec |
| Extraction.AddUpload | app.py:386-392 | one loop iteration keeps the keys unique |
| Extraction.AddUploadMap | app.py:386-392 | one iteration is the dict update that adds a readable file under a new name, last in order, and otherwise changes nothing |
| Extraction.AddUploads | app.py:384-392 | the whole upload loop keeps the keys unique |
| Extraction.AddUploadsExtends | app.py:384-392 | uploads only append: the old pairs are a prefix of the result |
| Extraction.AddUploadsCovers | app.py:384-392 | after the loop, every readable uploaded file has its name as a key |
| Extraction.AddUploadsNoop | app.py:384-392 | a loop whose names are all present, or whose files are all unreadable, changes nothing |
| Extraction.AddUploadsIdempotent | app.py:384-392 | repeating the loop over the same files, as the next rerun does, changes nothing |
| Extraction.AddUploadsKeepsText | app.py:384-392 | an upload never changes the text of a name that was already a key |
| Extraction.FirstRead | app.py:384-392 | the text of the first readable file of a given name: present exactly when such a file exists, and no earlier file of that name is readable |
| Extraction.AddUploadsMap | app.py:384-392 | after the loop a name is a key exactly when it was one before or some uploaded file of that name is readable; an old name keeps its text, a new one holds the text of the first readable file of that name |
| Gateway.EffectiveKey | app.py:27 | the key is the override if truthy, else the session key if non-empty, else the environment value |
| Gateway.FirstTruthy | app.py:27 | a Python `or` chain over optional strings; its promise is stated by Gateway.FirstTruthyIsFirst |
| Gateway.FirstTruthyIsFirst | app.py:27 | a Python `or` chain yields its first truthy operand, or its last operand when none is truthy |
| Gateway.EffectiveKeyIsOrChain | app.py:27 | the credential is exactly the three-operand `or` chain |
| Gateway.RoadmapRequest | app.py:698-708 | the roadmap context is a prefix of the merged syllabus of length min(length, 15000); PYQs are sent exactly when loaded, as a prefix of the merged PYQs of length min(length, 15000) |
| Gateway.MockExamRequest | app.py:756-763 | the mock-exam data is a prefix of the merged PYQs of length min(length, 25000) |
| Parsers.StripFencesCases | app.py:737-742 | with "```json", the result is the stripped text up to the next "```" inside the piece after the first "```json"; else with "```", the stripped text between the first two fences; else the stripped input |
| Parsers.JsonFenceHasFence | app.py:737-740 | every "```json" is also a "```" |
| Parsers.StripFencesJsonBody | app.py:737-739 | unless a second "```json" overlaps the closing fence, the result is the stripped text between the first "```json" and the next "```" |
| Parsers.StripFences | app.py:737-742 | the roadmap clean-up by `split`; its promise is stated by Parsers.StripFencesCases and Parsers.StripFencesJsonBody |
| Parsers.BracketSlice | app.py:780-784 | the cut from `find('[')` through `rfind(']')`; its promise is stated by Parsers.BracketSliceSpec |
| Parsers.BracketSliceSpec | app.py:780-784 | a slice exists iff some '[' precedes some ']'; it starts at the first '[' and ends at the last ']' |
| Parsers.ParseDeck | app.py:780-785 | there is no array exactly when no '[' precedes a ']'; otherwise the text decoded runs from the first '[' (none before it) to the last ']' (none after it), and a deck results exactly when that text decodes, holding the decoded cards |
| History.LoadHistory | app.py:82-89 | a missing or unreadable log reads as the empty list; its promise is the save-then-load round trip stated by History.SaveHistory |
| History.Summary | app.py:66 | the line `f"{days} Days • {hours} Hrs/Day"`; its promise is stated by History.ParseSummaryOfSummary and History.SummaryInjective |
| History.ParseSummaryOfSummary | app.py:66 | the summary "{days} Days • {hours} Hrs/Day" reads back as the days and hours it was written for |
| History.SummaryInjective | app.py:66 | different settings never produce the same summary |
| History.SaveHistory | app.py:61-89 | loading the saved log gives the new entry first, with the roadmap, the timestamp and a summary that reads back as the settings, then exactly the entries loaded before; a missing or unreadable log becomes a one-entry log |
| History.RoadmapsAfterSave | app.py:61-89 | one save puts its roadmap in front of the roadmaps already logged |
| History.SaveAllLast | app.py:77 | the last of several saves is at the front |
| History.SavesKeepOld | app.py:77 | after several saves the old entries are the tail, in their order |
| History.SavesNewestFirst | app.py:77 | after several saves the log lists the new roadmaps newest first, ahead of the old ones |
| State.StepOf | app.py:457-983 | an integer denotes a step exactly when it is 0, 1, 4, 5, 6 or 7 |
| State.StepNumbering | app.py:457-983 | step numbers and steps correspond one to one |
| State.SidebarShownPastEntry | app.py:359 | the test `step >= 1` holds on every step except name entry |
| Persistence.FillAbsentSpec | app.py:111-113 | the merge holds the union of keys; a key already in the session keeps its value, and any other snapshot key gets the snapshot's value |
| Persistence.FillAbsent | app.py:111-113 | the merge of `load_state`; its promise is stated by Persistence.FillAbsentSpec |
| Persistence.FillAbsentIdempotent | app.py:111-113 | merging the same snapshot again changes nothing |
| Persistence.FillAbsentCovered | app.py:111-113 | a session that already holds every snapshot key is unchanged |
| Persistence.FillAbsentWellTyped | app.py:111-113 | merging well-typed dicts gives a well-typed dict |
| Persistence.MergeStep | app.py:112-113 | one iteration of the restore loop keeps the merge invariant |
| Persistence.MergeComplete | app.py:111-113 | after all snapshot keys are visited, the loop has built the merge |
| Persistence.LoadState | app.py:106-114 | the restore loop's result is the merge of the session with the snapshot; without a snapshot, or with an unreadable one, the session is unchanged |
| Persistence.LoadInto | app.py:106-114 | `load_state` on the session dict; Persistence.LoadState is proved to compute it, and Persistence.LoadIntoKeeps states that it never overwrites a present key |
| Persistence.FieldsRoundTrip | app.py:117-127 | reading the record back from its dict view gives the record |
| Persistence.ToFieldsWellTyped | app.py:117-127 | every value the session holds has its key's type |
| Persistence.FromFieldsWellFormed | app.py:117-127 | a session restored from a typed dict has dict stores |
| Persistence.SaveState | app.py:91-104 | the snapshot holds exactly the nine saved keys |
| Persistence.SavedRoadmap | app.py:99 | the saved roadmap value, `.get("roadmap", "")`; its promise is stated by Persistence.RestartRestores (an unset roadmap comes back as "", a failed one as None) |
| Persistence.Startup | app.py:117-127 | a new browser session, built by `load_state` into an empty dict followed by the defaults, has dict stores |
| Persistence.StartupWithoutSnapshot | app.py:117-127 | without a snapshot, a new session is the defaults: step 0, empty name and stores, cursor 0, flags off |
| Persistence.ReloadOnlyRoadmap | app.py:117 | the `load_state` at the top of a rerun can change only the roadmap |
| Persistence.Reload | app.py:117 | the rerun prologue; its promise is stated by Persistence.ReloadOnlyRoadmap and Persistence.ReloadUnchanged |
| Persistence.ReloadUnchanged | app.py:106-117 | when the session has a roadmap, or the snapshot has none, the rerun's `load_state` changes nothing |
| Persistence.SessionFromFields | app.py:111-113 | a typed dict that agrees with the session on every key except the roadmap reads back as the session, up to the roadmap |
| Persistence.LoadIntoKeeps | app.py:112-113 | `load_state` never overwrites a key the session already holds |
| Persistence.LoadIntoKeepsAll | app.py:111-113 | with a roadmap in the session, or none in the file, `load_state` adds nothing |
| Persistence.SaveStateWellTyped | app.py:91-104 | a saved snapshot is well typed, so it can be restored |
| Persistence.RestartRestores | app.py:91-127 | restarting from a saved snapshot restores every saved field; an unset roadmap comes back as "", and the unsaved modal flags come back off |
| Wizard.SavedOk | app.py:91-104 | saving a session that keeps the invariant leaves a restorable snapshot |
| Wizard.Saved | app.py:91-104 | `save_state()`: the session is the one given, the snapshot is replaced and the history log is untouched; Persistence.RestartRestores states what a later session restores |
| Wizard.Modal | app.py:317-353 | only the key and the two modal flags can change; the key changes only to the non-empty text saved; the modal closes only on Cancel or on Save with a key; the history log is untouched |
| Wizard.StartNewSession | app.py:362-368 | New Session; its promise is stated by WizardProperties.NewSessionSpec |
| Wizard.Sidebar | app.py:359-448 | no sidebar control acts at name entry, and none writes the history log; the effect of each control is stated by the sidebar lemmas of WizardProperties |
| Wizard.EnterName | app.py:466-473 | name entry; its promise is stated by WizardProperties.EnterNameSpec |
| Wizard.Confirm | app.py:542-555 | the syllabus confirm; its promise is stated by WizardProperties.ConfirmSpec |
| Wizard.UploadPyqs | app.py:671-680 | the dashboard PYQ upload; its promise is stated by WizardProperties.PyqUploadSpec |
| Wizard.Generate | app.py:695-749 | Start Analysis; its promise is stated by WizardProperties.GenerateSpec |
| Wizard.StartMock | app.py:754-795 | the mock-exam button; its promise is stated by WizardProperties.StartMockSpec |
| Wizard.Runner | app.py:903-961 | the card runner; its promise is stated by WizardProperties.NavigationSpec, WizardProperties.EmptyDeckReturns and WizardProperties.FullDeckNeverOverruns |
| Wizard.Screen | app.py:457-983 | the current step's screen; its promise is stated by WizardProperties.ScreenPreservesInv |
| Wizard.Run | app.py:117-983 | one run; its promise is stated by WizardProperties.RunPreservesInv, WizardProperties.RunModal and WizardProperties.RunSidebar |
| Wizard.ConfirmedStore | app.py:522-547 | the confirmed syllabus keeps unique keys and never shrinks |
| WizardProperties.Live | app.py:117 | the session a run sees after its prologue differs from the stored one at most in the roadmap |
| WizardProperties.RunPreservesInv | app.py:117-983 | every run keeps the stores as dicts, the cursor in 0..19 and the snapshot restorable |
| WizardProperties.ModalPreservesInv | app.py:317-353 | the modal's buttons keep the invariant |
| WizardProperties.SidebarPreservesInv | app.py:359-448 | every sidebar control keeps the invariant |
| WizardProperties.ScreenPreservesInv | app.py:457-983 | every step's screen keeps the invariant |
| WizardProperties.ConfirmPreservesInv | app.py:542-555 | the syllabus confirm keeps the invariant |
| WizardProperties.RunnerPreservesInv | app.py:903-961 | the card runner keeps the cursor in 0..19 |
| WizardProperties.DashboardPreservesInv | app.py:558-795 | the dashboard keeps the invariant |
| WizardProperties.GeneratePreservesInv | app.py:695-749 | roadmap generation keeps the invariant |
| WizardProperties.StartMockPreservesInv | app.py:754-795 | the mock-exam commit keeps the invariant, because the cursor restarts at 0 |
| WizardProperties.ModalBlocksWizard | app.py:317-353 | while the modal is open, any event other than Cancel or Save leaves the session and the disk as they were |
| WizardProperties.RunModal | app.py:317-353 | with the modal open, the run is the modal's handler alone |
| WizardProperties.ModalCancel | app.py:337-340 | Cancel closes the modal, clears the error flag and saves nothing |
| WizardProperties.ModalSaveKey | app.py:342-350 | Save with an empty key does nothing; with a key, it stores and saves the key and closes the modal |
| WizardProperties.SaveKeyRestores | app.py:342-350 | a key saved from the modal is the key of the next browser session |
| WizardProperties.SidebarHiddenAtEntry | app.py:359 | at name entry the sidebar controls have no effect |
| WizardProperties.ResetSpec | app.py:422-427 | Reset deletes the snapshot and starts again from the defaults; the history stays |
| WizardProperties.RunSidebar | app.py:359-448 | with the modal closed, a sidebar control that fires decides the run |
| WizardProperties.EnterNameSpec | app.py:466-473 | a non-empty name moves to step 1, with the name upper-cased and saved; an empty name changes nothing |
| WizardProperties.ThreeWrites | app.py:531-547 | three conditional writes to distinct keys: each written key holds its new value, each unwritten one keeps its old value or stays absent, and every other key keeps its old one |
| WizardProperties.ConfirmedStoreMap | app.py:522-547 | as a dict, the confirmed store is the old store with the conditional "PDFs", "Images" and "Manual Entry" writes |
| WizardProperties.PutIfMap | app.py:544-547 | a conditional `d[k] = v` is the conditional dict update |
| WizardProperties.ConfirmedStoreSpec | app.py:522-547 | "Manual Entry" is written with the pasted text exactly when it is not blank; "PDFs" and "Images" are overwritten with the extracted texts exactly when the upload has such files; an unwritten one of the three keeps its old text or stays absent; other names are untouched |
| WizardProperties.ConfirmNothingNoop | app.py:542-547 | with no accepted file and a blank text, confirm changes no artifact |
| WizardProperties.ConfirmSpec | app.py:549-555 | with a non-empty syllabus, confirm sets the confirmed store and step 4, changes nothing else and saves; otherwise the session and the disk stay and the warning is shown |
| WizardProperties.JpgOnlyInSidebar | app.py:387-390 | an "image/jpg" file is read by the sidebar upload but dropped by the step-1 filter |
| WizardProperties.NewSessionSpec | app.py:362-368 | New Session goes to step 1 and empties both stores, the roadmap and the deck; the name, the key and the cursor stay |
| WizardProperties.NewSessionFromDashboard | app.py:599-606 | the dashboard's "↻ New" has the same effect as the sidebar's New Session |
| WizardProperties.HistoryPickSpec | app.py:434-448 | picking entry `i` shows its roadmap at step 5, changes nothing else and saves; an index past the log does nothing |
| WizardProperties.SidebarUploadSpec | app.py:381-400 | the session is changed, only in its syllabus, and saved exactly when the upload added a name; old names keep their text; a name is a key afterwards exactly when it was one or some uploaded file of that name is readable, and a new one holds the text of the first such file |
| WizardProperties.PyqUploadSpec | app.py:671-680 | the same holds for PYQ uploads on the dashboard |
| WizardProperties.EditDeleteSpec | app.py:406-419 | Save overwrites exactly the edited artifact, in place; Delete removes exactly that artifact; no other field changes and both save the session |
| WizardProperties.GenerateSpec | app.py:695-749 | a failed call sets the roadmap to None and opens the modal; an empty reply is kept with nothing else changed; any other reply is cleaned, logged first in the history, shown at step 5 and saved |
| WizardProperties.StartMockSpec | app.py:754-795 | the deck is committed with the cursor at 0 exactly when PYQs are loaded and the reply holds a decodable array; otherwise the deck, the cursor and the step stay; the notices are the PYQ warning, the format error and the glitch message |
| WizardProperties.NavigationSpec | app.py:946-961 | Previous acts only above 0 and decrements; Next acts only below 19 and increments; Finish acts only at 19 or more and goes to step 7; only Finish saves |
| WizardProperties.EmptyDeckReturns | app.py:916-919 | an empty deck sends the runner back to the dashboard without saving |
| WizardProperties.FullDeckNeverOverruns | app.py:916-961 | with a deck of 20 or more cards, the card lookup never fails |
| WizardProperties.ShortDeckOverruns | app.py:916-956 | a one-card deck passes the emptiness check; Next moves the cursor to 1, and the following run fails on the card lookup |
| Runtime.Disk.constructor | app.py:91-104 | the disk starts with the given snapshot and history files |
| Runtime.Disk.SaveState | app.py:91-104 | the snapshot file is rewritten with the session's saved keys; the history is untouched |
| Runtime.Disk.SaveStrategyHistory | app.py:61-80 | the history file becomes the log with the new entry inserted at 0; the snapshot is untouched |
| Runtime.Disk.RemoveSnapshot | app.py:423-424 | the snapshot file is gone; the history is untouched |
| Runtime.Session.Assign | app.py:117-127 | every field takes the given session's value |
| Runtime.Session.Start | app.py:117-127 | a new browser session holds the start-up state for the disk's snapshot and keeps the invariant |
| Runtime.Session.Reload | app.py:117 | the rerun's `load_state` produces the modelled reload and keeps the invariant |
| Runtime.Session.Save | app.py:91-104 | the snapshot becomes the current session's saved keys |
| Runtime.Session.Modal | app.py:337-350 | the modal buttons update the fields and the disk as the modal function says |
| Runtime.Session.CloseModal | app.py:337-348 | the modal is hidden and the error flag cleared; nothing else changes |
| Runtime.Session.GetGeminiResponse | app.py:25-37 | the reply is the model's answer for the effective key; a failure opens the modal with the error flag, and a success changes nothing |
| Runtime.Session.StartNewSession | app.py:362-369 | the fields and the disk are updated as New Session says |
| Runtime.Session.AddSidebarFile | app.py:386-392 | one iteration stores a new readable file's text under its name and reports whether it did |
| Runtime.Session.AddSidebarUploads | app.py:382-392 | the loop's store is the modelled upload result, and the flag is set exactly when something was added |
| Runtime.Session.UploadFromSidebar | app.py:381-400 | the upload saves exactly when the sidebar function says it fires, and otherwise changes nothing |
| Runtime.Session.SaveArtifact | app.py:410-413 | for a present name, the text is overwritten and the session saved; otherwise nothing changes |
| Runtime.Session.DeleteArtifact | app.py:414-419 | for a present name, the artifact is deleted and the session saved; otherwise nothing changes |
| Runtime.Session.ResetAll | app.py:422-427 | the snapshot is removed and the session restarts from the defaults |
| Runtime.Session.PickHistory | app.py:434-448 | picking a history entry does what the sidebar function says |
| Runtime.Session.Sidebar | app.py:359-448 | the sidebar fires exactly when the sidebar function gives a result, and then produces that result; otherwise nothing changes |
| Runtime.Session.EnterName | app.py:466-473 | name entry updates the fields and the disk as the entry function says |
| Runtime.Session.Confirm | app.py:522-555 | confirm produces the modelled outcome, including the warning |
| Runtime.Session.CollectSyllabus | app.py:524-547 | the syllabus dict becomes the confirmed store; nothing else changes |
| Runtime.Session.AddPyqFile | app.py:675-677 | one iteration stores a new PYQ's text under its name and reports whether it did |
| Runtime.Session.UploadPyqs | app.py:671-680 | the PYQ loop and its conditional save produce the modelled upload result |
| Runtime.Session.GenerateRoadmap | app.py:695-749 | Start Analysis produces the modelled generation result, including the history write |
| Runtime.Session.StartMockExam | app.py:754-795 | the mock-exam button produces the modelled result and notice |
| Runtime.Session.CommitDeck | app.py:785-788 | the deck is stored with the cursor at 0 and step 6, and saved |
| Runtime.Session.Runner | app.py:903-961 | the runner produces the modelled outcome for exit, empty deck, lookup failure and navigation |
| Runtime.Session.Screen | app.py:457-983 | the current step's screen produces the modelled outcome |
| Runtime.Session.DashboardScreen | app.py:558-795 | the dashboard's controls produce the modelled outcome |
| Runtime.Session.Handle | app.py:117-983 | one run (reload, modal guard, sidebar, screen) produces exactly the modelled run and keeps the invariant |

## Left out

- Rendering is left out: CSS, columns, expanders, spinners, progress bar, the fade-in flag `dashboard_anim`, and the slide direction `anim_dir`. None of them feeds back into the saved state or the step logic.
- The external services are parameters of every run: Gemini (`generate_content`), `PdfReader`, PIL with OCR, `json.loads` of a deck and of a roadmap, `os.getenv`, and `datetime.now()`. Their behaviour is not modelled.
- The JSON files hold values, not text. Encoding and decoding are not modelled. A file that exists but cannot be parsed is its own case (`CorruptSnapshot`, `UnreadableHistory`), and reads as absent, as the `except` branches do.
- The prompt wording is left out. A request keeps only the data the script puts into it: the cut contexts, the days and the hours.
- `time.sleep`, `st.success`, and the roadmap rendering with its legacy fallback (app.py:826-845) are display-only and are left out.
- The dashboard's days and hours inputs have ranges 1..99 and 1..24. The model takes any natural numbers, so these ranges are not enforced.
- Text.Upper: implements the ASCII case mapping only; Python's `str.upper` also maps non-ASCII letters.
- The sidebar uploader's contents and its refresh counter `uploader_key` (app.py:374-397) are not modelled. A sidebar upload is one event over the file list.
- The uploader is reset only when the loop added a name (app.py:394-397). Otherwise it keeps its files, and the loop runs over them again on every later rerun. `AddUploadsIdempotent` shows that such a repeat changes nothing while those names remain keys.
- The loop (app.py:381-392) runs before the artifact buttons (app.py:406-419). So if a file is still in the uploader when its artifact is deleted, the next rerun adds it again with freshly extracted text. In the model, `DeleteClicked` removes the artifact for good.
- Session state holds only the keys the script reads. A snapshot key the script does not know is kept by the merge but read by nothing, and a snapshot value of the wrong JSON type is excluded by `WellFormedFile`. The script would fail later on such a value.
- The `.get` defaults in the history buttons (app.py:440-446) are not modelled, because every entry the script writes has all three keys.
- The `.get` defaults in `save_state` are not modelled, because after the defaults block every saved key is present. The roadmap default `""` applies only while the roadmap is unset, and is modelled by `SavedRoadmap`.
- Runtime.Session.Reload: requires the disk's snapshot to be restorable (`Valid`), which the script does not check.
- Runtime.Session.Start: requires `SnapshotOk` of the disk's snapshot (well typed, with `q_index` in 0..19). The start-up code (app.py:117-127) never checks this; a snapshot outside it is not modelled.
