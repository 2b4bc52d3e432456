# Eclipse JDT: correction previews, the save-participant clean-up dialog, and JUnit 5 test discovery and reporting

This project models five pieces of Eclipse JDT in Dafny and proves properties about them.

- **CUCorrectionProposal** is the quick-fix proposal that edits one compilation unit.
  - Its change is initialized once. That step connects the file buffer, lets the proposal add its edits, appends the import edit and disconnects again.
  - Its import rewrite is created lazily.
  - Its additional information is an HTML-like preview. Changed regions are bold. Unchanged regions are cut down to the lines around a change, with `...<br>` standing for the lines left out.
  - Modules: `PreviewDocument` (the line-structured document and the preview buffer), `ProposalPreview` (`appendContent` and the difference loop), `PreviewProperties` (lemmas about the preview) and `CorrectionProposal` (the proposal object).
- **CleanUpSaveParticipantConfigurationModifyDialog** keeps a working map of clean-up settings and a snapshot taken on construction and on every Apply.
  - The Apply button is enabled only while the map and the snapshot differ and the status is not an error.
  - The dialog restores its last tab and its size from the dialog settings.
  - Module: `CleanUpModifyDialog`.
- **JUnit5TestFinder** decides whether a Java type is a JUnit 5 test.
  - The type must be an accessible class and must not be abstract.
  - It or one of its superclasses must declare a method annotated `org.junit.gen5.api.Test`.
  - Module: `JUnit5TestFinder`.
- **StatusReporter** maps JUnit 5 execution events to the started, failed and ended notifications of the Eclipse test runner.
  - The receiver is modelled as an append-only log.
  - Module: `StatusReporter`.
- **JUnit5TestLoader** makes one test reference per class.
  - With a test name, a reference selects that method of the class.
  - Without one, it selects the whole class.
  - Module: `JUnit5TestLoader`.

State that the Java code updates in place is modelled with Dafny classes: the proposal, the import rewrite, the buffer manager, the dialog, the receiver and the reporter. Loops are modelled as `while`/`for` loops with invariants. Each such method is proved against a specification function, and the lemmas are about those functions.

The document is the text plus a table of `(offset, length)` lines. The preview buffer is a sequence of chunks:

- the piece of a line;
- `<br>`;
- `...<br>`;
- `<b>`;
- `</b>`.

`Render` flattens the chunks into the string that `StringBuffer.toString` returns. `IDocument.get` can throw a BadLocationException, and the model keeps that path: `appendContent` reports the failure after what it has already appended, and the difference loop stops there.

## Model

| member | source | states |
|---|---|---|
| PreviewDocument.LineOfOffset | org.eclipse.jdt.ui/ui/org/eclipse/jdt/internal/ui/text/correction/CUCorrectionProposal.java:207-208 | `getLineOfOffset`: the line whose offset is at or before the position, with the next line (if any) starting after it |
| PreviewDocument.LineOfOffsetUnique | org.eclipse.jdt.ui/ui/org/eclipse/jdt/internal/ui/text/correction/CUCorrectionProposal.java:207-208 | any line that contains the position in this sense is the one `LineOfOffset` returns |
| PreviewDocument.LineOfOffsetMonotone | org.eclipse.jdt.ui/ui/org/eclipse/jdt/internal/ui/text/correction/CUCorrectionProposal.java:207-208 | a later offset never lies on an earlier line, so the start line of a range is at or before its end line |
| PreviewDocument.RenderConcat | org.eclipse.jdt.ui/ui/org/eclipse/jdt/internal/ui/text/correction/CUCorrectionProposal.java:171-201 | rendering an appended buffer renders the two parts one after the other |
| ProposalPreview.AppendLine | org.eclipse.jdt.ui/ui/org/eclipse/jdt/internal/ui/text/correction/CUCorrectionProposal.java:230-243 | one line's output (its piece clipped to the range, then `<br>` iff the piece reaches the line end but not the range end, and nothing for a blank piece at the line start in surround mode), or failure when the piece would end before it starts |
| ProposalPreview.AppendLines | org.eclipse.jdt.ui/ui/org/eclipse/jdt/internal/ui/text/correction/CUCorrectionProposal.java:217-244 | the line loop appends exactly what the line-by-line specification `Scan` gives, covering elision and the early return at the end of the document, and reports any failure |
| ProposalPreview.AppendContent | org.eclipse.jdt.ui/ui/org/eclipse/jdt/internal/ui/text/correction/CUCorrectionProposal.java:206-245 | appends to the buffer exactly `AppendedContent`, including the leading `...<br>` for a top unchanged range, and succeeds iff that specification does not fail |
| ProposalPreview.AppendDifference | org.eclipse.jdt.ui/ui/org/eclipse/jdt/internal/ui/text/correction/CUCorrectionProposal.java:185-194 | one difference adds `<b>`, the plain content and `</b>` when it is a change with a non-empty left side; surround-mode content when it is unchanged; and nothing otherwise. A failed `appendContent` leaves out `</b>` |
| ProposalPreview.AppendBold | org.eclipse.jdt.ui/ui/org/eclipse/jdt/internal/ui/text/correction/CUCorrectionProposal.java:188-191 | a changed range appends `<b>`, its plain content and `</b>`; when the content throws, the buffer keeps `<b>` and the content so far, without `</b>` |
| ProposalPreview.PreviewDifferences | org.eclipse.jdt.ui/ui/org/eclipse/jdt/internal/ui/text/correction/CUCorrectionProposal.java:183-200 | the loop's buffer is the contributions of the differences in order, stopping at the first BadLocationException |
| PreviewProperties.ScanElisions | org.eclipse.jdt.ui/ui/org/eclipse/jdt/internal/ui/text/correction/CUCorrectionProposal.java:218-227 | the line loop emits `...<br>` at most once, and only in surround mode when none was added before |
| PreviewProperties.ElisionAtMostOnce | org.eclipse.jdt.ui/ui/org/eclipse/jdt/internal/ui/text/correction/CUCorrectionProposal.java:210-227 | one `appendContent` call adds `...<br>` at most once in surround mode, and never otherwise |
| PreviewProperties.ScanChunks | org.eclipse.jdt.ui/ui/org/eclipse/jdt/internal/ui/text/correction/CUCorrectionProposal.java:217-244 | every piece the loop emits comes from a line in the loop's range. It is the clipped slice `text[max(lineStart, s), min(lineEnd, e))`, and in surround mode its line is within one line of the loop's start or end |
| PreviewProperties.PreviewChunks | org.eclipse.jdt.ui/ui/org/eclipse/jdt/internal/ui/text/correction/CUCorrectionProposal.java:204-244 | every chunk of `appendContent` is a piece, `<br>` or `...<br>`, never bold. A piece lies between the start and end lines of the range and is that line's clipped text. In surround mode it is at most `surroundLines` from one end, and a blank piece only appears when the range starts inside its line |
| PreviewProperties.ScanTailSucceeds | org.eclipse.jdt.ui/ui/org/eclipse/jdt/internal/ui/text/correction/CUCorrectionProposal.java:230-236 | once the range's start is behind the current line, no later line can fail |
| PreviewProperties.AppendContentFails | org.eclipse.jdt.ui/ui/org/eclipse/jdt/internal/ui/text/correction/CUCorrectionProposal.java:206-236 | for `start <= end`, `appendContent` throws iff an offset is beyond the text or the start lies inside its line's delimiter (both directions) |
| PreviewProperties.ScanPlainBreak | org.eclipse.jdt.ui/ui/org/eclipse/jdt/internal/ui/text/correction/CUCorrectionProposal.java:234-243 | outside surround mode, a line that ends inside the range emits its piece and `<br>`, followed by the output of the next line |
| PreviewProperties.ScanPlainLast | org.eclipse.jdt.ui/ui/org/eclipse/jdt/internal/ui/text/correction/CUCorrectionProposal.java:230-243 | outside surround mode, the line the range ends on renders as its clipped piece with no `<br>` and does not fail |
| PreviewProperties.ScanPlainEnds | org.eclipse.jdt.ui/ui/org/eclipse/jdt/internal/ui/text/correction/CUCorrectionProposal.java:230-243 | outside surround mode, a range ending inside line k's delimiter renders line k's piece and one `<br>` |
| PreviewProperties.ScanPlainNext | org.eclipse.jdt.ui/ui/org/eclipse/jdt/internal/ui/text/correction/CUCorrectionProposal.java:207-235 | a range that reaches line k + 1 takes that line from its start, and line k + 1 is not past the end line |
| PreviewProperties.ScanPlainJoin | org.eclipse.jdt.ui/ui/org/eclipse/jdt/internal/ui/text/correction/CUCorrectionProposal.java:217-243 | line k's piece and `<br>` followed by the rendering from line k + 1 is the rendering of the range from line k |
| PreviewProperties.ScanPlain | org.eclipse.jdt.ui/ui/org/eclipse/jdt/internal/ui/text/correction/CUCorrectionProposal.java:217-244 | outside surround mode, the loop from any line of the range succeeds and renders the rest of the range's text, with each line delimiter inside the range written as `<br>` |
| PreviewProperties.PlainPreview | org.eclipse.jdt.ui/ui/org/eclipse/jdt/internal/ui/text/correction/CUCorrectionProposal.java:206-245 | outside surround mode, for a start not inside a delimiter, `appendContent` emits no `...<br>` and renders exactly the range's text with each delimiter inside it replaced by `<br>` |
| PreviewProperties.BoldMarksConcat | org.eclipse.jdt.ui/ui/org/eclipse/jdt/internal/ui/text/correction/CUCorrectionProposal.java:189-191 | the bold markers of a concatenation are those of its parts, in order |
| PreviewProperties.BoldMarksNone | org.eclipse.jdt.ui/ui/org/eclipse/jdt/internal/ui/text/correction/CUCorrectionProposal.java:189-191 | a buffer without bold chunks has no bold markers |
| PreviewProperties.ContentHasNoBold | org.eclipse.jdt.ui/ui/org/eclipse/jdt/internal/ui/text/correction/CUCorrectionProposal.java:206-245 | `appendContent` never emits `<b>` or `</b>` itself |
| PreviewProperties.ContributionBold | org.eclipse.jdt.ui/ui/org/eclipse/jdt/internal/ui/text/correction/CUCorrectionProposal.java:188-194 | a change with a non-empty left side contributes exactly the markers `<b></b>`, or only `<b>` when its content fails. Every other difference contributes none |
| PreviewProperties.HighlightedBold | org.eclipse.jdt.ui/ui/org/eclipse/jdt/internal/ui/text/correction/CUCorrectionProposal.java:184-200 | the preview's bold markers are one `<b></b>` pair per highlighted change, in order. When a BadLocationException ended the loop, they are a prefix of that |
| PreviewProperties.BoldStep | org.eclipse.jdt.ui/ui/org/eclipse/jdt/internal/ui/text/correction/CUCorrectionProposal.java:184-195 | one iteration keeps the bold markers a prefix of one pair per highlighted change, and equal to it when nothing failed |
| PreviewProperties.IrrelevantIgnored | org.eclipse.jdt.ui/ui/org/eclipse/jdt/internal/ui/text/correction/CUCorrectionProposal.java:188-194 | dropping every difference that is neither an unchanged range nor a non-empty change leaves the preview unchanged |
| CorrectionProposal.ConnectDisconnectBalanced | org.eclipse.jdt.ui/ui/org/eclipse/jdt/internal/ui/text/correction/CUCorrectionProposal.java:122-131 | a connect of a path followed by its disconnect changes no path's connection depth |
| CorrectionProposal.BalancedPreserved | org.eclipse.jdt.ui/ui/org/eclipse/jdt/internal/ui/text/correction/CUCorrectionProposal.java:122-131 | a log in which every path is disconnected as often as connected stays so after a connect/disconnect pair |
| CorrectionProposal.TextFileBufferManager.Connect | org.eclipse.jdt.ui/ui/org/eclipse/jdt/internal/ui/text/correction/CUCorrectionProposal.java:122 | records one connect of the path |
| CorrectionProposal.TextFileBufferManager.Disconnect | org.eclipse.jdt.ui/ui/org/eclipse/jdt/internal/ui/text/correction/CUCorrectionProposal.java:130 | records one disconnect of the path |
| CorrectionProposal.CUCorrectionProposal.constructor | org.eclipse.jdt.ui/ui/org/eclipse/jdt/internal/ui/text/correction/CUCorrectionProposal.java:77-103 | a new proposal has an empty root edit, no import rewrite, and is not initialized |
| CorrectionProposal.CUCorrectionProposal.FromChange | org.eclipse.jdt.ui/ui/org/eclipse/jdt/internal/ui/text/correction/CUCorrectionProposal.java:92-96 | a proposal for a given change takes its unit and root edit, and is not initialized |
| CorrectionProposal.CUCorrectionProposal.AddEdits | org.eclipse.jdt.ui/ui/org/eclipse/jdt/internal/ui/text/correction/CUCorrectionProposal.java:142-146 | the hook appends its edits to the root edit, then throws or not as its outcome says |
| CorrectionProposal.CUCorrectionProposal.ImportChild | org.eclipse.jdt.ui/ui/org/eclipse/jdt/internal/ui/text/correction/CUCorrectionProposal.java:126-128 | at most one import edit, present exactly when `addEdits` returned, the rewrite exists and is not empty, and `createEdit` did not throw; it carries the rewrite's added and removed imports |
| CorrectionProposal.CUCorrectionProposal.InitializeCompilationUnitChange | org.eclipse.jdt.ui/ui/org/eclipse/jdt/internal/ui/text/correction/CUCorrectionProposal.java:112-133 | the body runs at most once, and a later call changes nothing. Without a root edit nothing is connected. Otherwise the buffer is connected and disconnected exactly once, even when `addEdits` or the rewrite's `createEdit` throws, so a balanced connection log stays balanced. The root edit gains the hook's edits and then, only when the import rewrite exists, is not empty and neither call threw, the import edit; either exception reaches the caller |
| CorrectionProposal.CUCorrectionProposal.GetImportRewrite | org.eclipse.jdt.ui/ui/org/eclipse/jdt/internal/ui/text/correction/CUCorrectionProposal.java:153-158 | creates a fresh, empty rewrite for the unit on first use, and otherwise returns the instance already held; when creating it throws, nothing is stored and the exception reaches the caller |
| CorrectionProposal.CUCorrectionProposal.SetImportRewrite | org.eclipse.jdt.ui/ui/org/eclipse/jdt/internal/ui/text/correction/CUCorrectionProposal.java:163-165 | the held rewrite becomes exactly the given one and nothing else changes; a later `GetImportRewrite` returns it when it is not null, and creates a fresh one after it was set to null |
| CorrectionProposal.CUCorrectionProposal.GetAdditionalProposalInfo | org.eclipse.jdt.ui/ui/org/eclipse/jdt/internal/ui/text/correction/CUCorrectionProposal.java:170-202 | initializes the change; returns "" when that, or reading the preview document or the current content, throws a CoreException, and otherwise the rendered preview of the differences, cut short at a BadLocationException |
| CorrectionProposal.DefaultHookKeepsRoot | org.eclipse.jdt.ui/ui/org/eclipse/jdt/internal/ui/text/correction/CUCorrectionProposal.java:142-146 | with the class's own `addEdits`, which adds nothing and never throws, and no imports to add, initialization leaves the root edit as it was and throws nothing |
| CleanUpModifyDialog.ModifyDialog.constructor | org.eclipse.jdt.ui/ui/org/eclipse/jdt/internal/ui/fix/CleanUpSaveParticipantConfigurationModifyDialog.java:67-78 | the snapshot is a copy of the working map, so there are no changes right after construction |
| CleanUpModifyDialog.ModifyDialog.HasChanges | org.eclipse.jdt.ui/ui/org/eclipse/jdt/internal/ui/fix/CleanUpSaveParticipantConfigurationModifyDialog.java:233-240 | true iff some key of the working map is missing from the snapshot or has a different value there; keys only in the snapshot are ignored |
| CleanUpModifyDialog.ModifyDialog.UpdateButtonsEnableState | org.eclipse.jdt.ui/ui/org/eclipse/jdt/internal/ui/fix/CleanUpSaveParticipantConfigurationModifyDialog.java:226-231 | OK is enabled iff the status is not an error. Once the Apply button exists, it is enabled iff there are changes and the status is not an error |
| CleanUpModifyDialog.ModifyDialog.UpdateStatus | org.eclipse.jdt.ui/ui/org/eclipse/jdt/internal/ui/fix/CleanUpSaveParticipantConfigurationModifyDialog.java:128-134 | a null status acts exactly like OK_STATUS; the buttons follow the effective status |
| CleanUpModifyDialog.ModifyDialog.ValuesModified | org.eclipse.jdt.ui/ui/org/eclipse/jdt/internal/ui/fix/CleanUpSaveParticipantConfigurationModifyDialog.java:245-247 | a modification sets an OK status. Once the buttons exist, OK is enabled and Apply is enabled iff there are changes |
| CleanUpModifyDialog.ModifyDialog.ApplyPressed | org.eclipse.jdt.ui/ui/org/eclipse/jdt/internal/ui/fix/CleanUpSaveParticipantConfigurationModifyDialog.java:198-201 | the working values stay as they are and become the snapshot, so there are no changes afterwards; once the buttons exist OK is enabled and Apply disabled, and before that neither button state changes |
| CleanUpModifyDialog.ModifyDialog.OkPressed | org.eclipse.jdt.ui/ui/org/eclipse/jdt/internal/ui/fix/CleanUpSaveParticipantConfigurationModifyDialog.java:185-188 | applies, then closes with the OK return code; once the buttons exist OK is enabled and Apply disabled, and before that neither button state changes |
| CleanUpModifyDialog.ModifyDialog.ButtonPressed | org.eclipse.jdt.ui/ui/org/eclipse/jdt/internal/ui/fix/CleanUpSaveParticipantConfigurationModifyDialog.java:190-196 | OK and Apply both apply the working values and, once the buttons exist, leave OK enabled and Apply disabled; every other id leaves the snapshot, the status and both button states alone; OK and Cancel set their return codes |
| CleanUpModifyDialog.ModifyDialog.AddTabPage | org.eclipse.jdt.ui/ui/org/eclipse/jdt/internal/ui/fix/CleanUpSaveParticipantConfigurationModifyDialog.java:217-224 | the page is appended to the list of pages |
| CleanUpModifyDialog.ModifyDialog.CreateDialogArea | org.eclipse.jdt.ui/ui/org/eclipse/jdt/internal/ui/fix/CleanUpSaveParticipantConfigurationModifyDialog.java:97-126 | the five pages in their order, then an OK status; once the buttons exist OK is enabled and Apply follows the changes, and before that neither button state changes |
| CleanUpModifyDialog.ModifyDialog.CreateButtonsForButtonBar | org.eclipse.jdt.ui/ui/org/eclipse/jdt/internal/ui/fix/CleanUpSaveParticipantConfigurationModifyDialog.java:203-215 | the Apply button starts disabled |
| CleanUpModifyDialog.ModifyDialog.RestoredFocus | org.eclipse.jdt.ui/ui/org/eclipse/jdt/internal/ui/fix/CleanUpSaveParticipantConfigurationModifyDialog.java:82-91 | the stored index fitted to the pages by `Clamp`, or 0 when none can be read; with at least one page a valid page index |
| CleanUpModifyDialog.Clamp | org.eclipse.jdt.ui/ui/org/eclipse/jdt/internal/ui/fix/CleanUpSaveParticipantConfigurationModifyDialog.java:85-88 | a negative index gives the first page, one past the end the last page, a valid index itself; with no pages the result is -1 |
| CleanUpModifyDialog.ModifyDialog.Create | org.eclipse.jdt.ui/ui/org/eclipse/jdt/internal/ui/fix/CleanUpSaveParticipantConfigurationModifyDialog.java:80-95 | after creation the five pages exist, the status is OK, Apply is disabled, and the selected tab is the restored index fitted to the pages by `Clamp` (0 when no index can be read); the maps, the settings and the return code are unchanged |
| CleanUpModifyDialog.ModifyDialog.TabSelected | org.eclipse.jdt.ui/ui/org/eclipse/jdt/internal/ui/fix/CleanUpSaveParticipantConfigurationModifyDialog.java:112-121 | selecting a tab stores its index under the last-focus key |
| CleanUpModifyDialog.ModifyDialog.GetInitialSize | org.eclipse.jdt.ui/ui/org/eclipse/jdt/internal/ui/fix/CleanUpSaveParticipantConfigurationModifyDialog.java:141-154 | as written: width is the larger of stored and computed; height is the stored height unless the computed height is larger, in which case it is the computed WIDTH; the computed size when either setting is missing |
| CleanUpModifyDialog.ModifyDialog.GetInitialSizeIntended | org.eclipse.jdt.ui/ui/org/eclipse/jdt/internal/ui/fix/CleanUpSaveParticipantConfigurationModifyDialog.java:141-154 | as intended: each dimension is the larger of stored and computed, so the dialog is never smaller than its computed size |
| CleanUpModifyDialog.InitialSizeShrinksHeight | org.eclipse.jdt.ui/ui/org/eclipse/jdt/internal/ui/fix/CleanUpSaveParticipantConfigurationModifyDialog.java:147-149 | with a stored 50×200 and a computed 100×300, the code as written opens the dialog 100 high, where 300 was intended |
| JUnit5TestFinder.IsAvailable | org.eclipse.jdt.junit.core/src/org/eclipse/jdt/internal/junit/launcher/JUnit5TestFinder.java:122-124 | a missing source range is not available; a present one is exactly when its offset is not -1 |
| JUnit5TestFinder.ChainParents | org.eclipse.jdt.junit.core/src/org/eclipse/jdt/internal/junit/launcher/JUnit5TestFinder.java:109-118 | the nesting chain starts at the type, each link is the parent of the one before, and the last link's parent is not a type |
| JUnit5TestFinder.NotAccessibleInsideOther | org.eclipse.jdt.junit.core/src/org/eclipse/jdt/internal/junit/launcher/JUnit5TestFinder.java:114-116 | a parent anywhere on the chain that is neither a type nor a file, as for a local class, makes the type inaccessible |
| JUnit5TestFinder.IsAccessibleClass | org.eclipse.jdt.junit.core/src/org/eclipse/jdt/internal/junit/launcher/JUnit5TestFinder.java:104-120 | true iff the type is not an interface, its chain reaches a compilation unit or class file through types only, and every type on it whose parent is a type is static and not private |
| JUnit5TestFinder.InheritedAnnotations | org.eclipse.jdt.junit.core/src/org/eclipse/jdt/internal/junit/launcher/JUnit5TestFinder.java:48-60 | a type's hierarchy has an annotated method iff the type declares one or its superclass's hierarchy has one |
| JUnit5TestFinder.Annotates | org.eclipse.jdt.junit.core/src/org/eclipse/jdt/internal/junit/launcher/JUnit5TestFinder.java:38-46 | true iff some annotation has a resolved type with exactly this qualified name |
| JUnit5TestFinder.AnnotatesAtLeastOneMethod | org.eclipse.jdt.junit.core/src/org/eclipse/jdt/internal/junit/launcher/JUnit5TestFinder.java:48-60 | true iff some declared method of the type or of a superclass up to the top of the chain carries the annotation |
| JUnit5TestFinder.IsTestBinding | org.eclipse.jdt.junit.core/src/org/eclipse/jdt/internal/junit/launcher/JUnit5TestFinder.java:127-135 | false for abstract types; otherwise true iff some method up the superclass chain is annotated `org.junit.gen5.api.Test` |
| JUnit5TestFinder.InternalIsTest | org.eclipse.jdt.junit.core/src/org/eclipse/jdt/internal/junit/launcher/JUnit5TestFinder.java:73-124 | false unless the type is an accessible class. A type with a compilation unit or an available source range (present, offset not -1) is decided by the binding of its declaration from the parsed source. Any other type is decided by `createBindings`, which must give exactly one type binding |
| JUnit5TestFinder.IsTest | org.eclipse.jdt.junit.core/src/org/eclipse/jdt/internal/junit/launcher/JUnit5TestFinder.java:69-71 | `internalIsTest` without a monitor: never true for an interface |
| JUnit5TestFinder.FindTestsInContainer | org.eclipse.jdt.junit.core/src/org/eclipse/jdt/internal/junit/launcher/JUnit5TestFinder.java:65-66 | the result set is left unchanged |
| StatusReporter.FailureType | org.eclipse.jdt.junit5.runtime/src/org/eclipse/jdt/internal/junit5/runner/StatusReporter.java:65-68 | `TEST_FAILED` iff a cause is present and is an AssertionError, `TEST_ERROR` otherwise |
| StatusReporter.Trace | org.eclipse.jdt.junit5.runtime/src/org/eclipse/jdt/internal/junit5/runner/StatusReporter.java:70-78 | the empty string without a cause, and the cause's printed stack trace otherwise |
| StatusReporter.CreateFailure | org.eclipse.jdt.junit5.runtime/src/org/eclipse/jdt/internal/junit5/runner/StatusReporter.java:61-63 | the failure is reported under the given name, with the failure kind (`TEST_FAILED` exactly for an assertion cause) and the trace of the result |
| StatusReporter.StartedNotifications | org.eclipse.jdt.junit5.runtime/src/org/eclipse/jdt/internal/junit5/runner/StatusReporter.java:40-42 | exactly one started notification, named by the display name |
| StatusReporter.SkippedNotifications | org.eclipse.jdt.junit5.runtime/src/org/eclipse/jdt/internal/junit5/runner/StatusReporter.java:45-48 | started under `@Ignore: ` + name + `[` + reason + `]`, with `[null]` for a null reason, then ended under the name, in that order |
| StatusReporter.FinishedNotifications | org.eclipse.jdt.junit5.runtime/src/org/eclipse/jdt/internal/junit5/runner/StatusReporter.java:51-63 | an aborted test gets one failure under `@AssumptionFailure: ` + name, a failed test one under its name, and a successful test none. Ended under the name is always last |
| StatusReporter.Receiver.NotifyTestStarted | org.eclipse.jdt.junit5.runtime/src/org/eclipse/jdt/internal/junit5/runner/StatusReporter.java:41 | appends one started notification to the log |
| StatusReporter.Receiver.NotifyTestFailed | org.eclipse.jdt.junit5.runtime/src/org/eclipse/jdt/internal/junit5/runner/StatusReporter.java:54-56 | appends one failed notification to the log |
| StatusReporter.Receiver.NotifyTestEnded | org.eclipse.jdt.junit5.runtime/src/org/eclipse/jdt/internal/junit5/runner/StatusReporter.java:58 | appends one ended notification to the log |
| StatusReporter.Reporter.constructor | org.eclipse.jdt.junit5.runtime/src/org/eclipse/jdt/internal/junit5/runner/StatusReporter.java:35-37 | the reporter sends every notification to the receiver it was created with |
| StatusReporter.Reporter.ExecutionStarted | org.eclipse.jdt.junit5.runtime/src/org/eclipse/jdt/internal/junit5/runner/StatusReporter.java:40-42 | the receiver's log gains exactly `StartedNotifications` and nothing else |
| StatusReporter.Reporter.ExecutionSkipped | org.eclipse.jdt.junit5.runtime/src/org/eclipse/jdt/internal/junit5/runner/StatusReporter.java:45-48 | the receiver's log gains exactly `SkippedNotifications`, in order |
| StatusReporter.Reporter.ExecutionFinished | org.eclipse.jdt.junit5.runtime/src/org/eclipse/jdt/internal/junit5/runner/StatusReporter.java:51-59 | the receiver's log gains exactly `FinishedNotifications`, in order |
| StatusReporter.CountConcat | org.eclipse.jdt.junit5.runtime/src/org/eclipse/jdt/internal/junit5/runner/StatusReporter.java:40-59 | counts of started or ended notifications add up over concatenated logs |
| StatusReporter.StartedAndEndedOnce | org.eclipse.jdt.junit5.runtime/src/org/eclipse/jdt/internal/junit5/runner/StatusReporter.java:40-59 | a test that starts and finishes, and a skipped test, are each reported started exactly once and ended exactly once |
| JUnit5TestLoader.Identifier | org.eclipse.jdt.junit5.runtime/src/org/eclipse/jdt/internal/junit5/runner/TestReference.java:29-55 | a reference is identified by the name it was created with |
| JUnit5TestLoader.CreateTestReference | org.eclipse.jdt.junit5.runtime/src/org/eclipse/jdt/internal/junit5/runner/JUnit5TestLoader.java:46-48 | the reference is named and identified by the given name, and its request selects exactly the given selectors |
| JUnit5TestLoader.ReferenceFor | org.eclipse.jdt.junit5.runtime/src/org/eclipse/jdt/internal/junit5/runner/JUnit5TestLoader.java:37-48 | each class gets a request with exactly one selector for that class. A non-null, non-empty test name gives a method selector with that name as the reference's name; otherwise it is a class selector named by the class name |
| JUnit5TestLoader.ReferencesForAt | org.eclipse.jdt.junit5.runtime/src/org/eclipse/jdt/internal/junit5/runner/JUnit5TestLoader.java:36-42 | the per-class references are one per class, in the order of the classes |
| JUnit5TestLoader.ToArray | org.eclipse.jdt.junit5.runtime/src/org/eclipse/jdt/internal/junit5/runner/JUnit5TestLoader.java:43 | the array holds each element of the set as often as it occurs, in some order |
| JUnit5TestLoader.LoadTests | org.eclipse.jdt.junit5.runtime/src/org/eclipse/jdt/internal/junit5/runner/JUnit5TestLoader.java:30-44 | the result is a permutation of the per-class references |
| JUnit5TestLoader.LoadedReferences | org.eclipse.jdt.junit5.runtime/src/org/eclipse/jdt/internal/junit5/runner/JUnit5TestLoader.java:35-43 | exactly one reference per class, so an empty class array gives an empty result. Every class's reference is there and every reference is some class's. Each has a single selector, all of the same kind. With a test name, all are named by it |

## Left out

- `apply`, `performValidateEdit` and `performChange` of CUCorrectionProposal open editors, show error dialogs and validate resources; they are not modelled.
- The token differencer (`RangeDifferencer`, `JavaTokenComparator`) is foreign code. Its differences are an input, with the token offsets already turned into character offsets of the preview document.
- The preview document and the current content of the change are inputs, not computed from the edits.
- The `TextEdit` tree is abstracted as the list of the root edit's children, and an import rewrite's edit as its added and removed imports.
- The file buffer manager is only the log of connect and disconnect calls. A CoreException from `connect` itself, or from `getTextFileBuffer`, is not modelled.
- The CoreExceptions of `ImportRewrite.createEdit`, of creating an import rewrite and of reading the preview document or the current content are inputs (`createEditThrows`, `creationThrows`, `contentThrows`); the causes inside the foreign code are not modelled.
- The `addEdits` hook of a subclass is an input outcome: the edits it adds and whether it throws. A hook cannot call `getImportRewrite` in the model.
- `JavaPlugin.log` of caught exceptions is not modelled.
- `ImportRewrite` is reduced to its added and removed imports; the Java import rewriting engine is not part of this model.
- The dialog's StatusDialog and Dialog superclasses are not part of this model. The model assumes they behave as follows:
  - `updateStatus` records the status and, once the buttons exist, updates their enablement;
  - OK is enabled exactly when the status is not an error;
  - `buttonPressed` dispatches OK to `okPressed` and Cancel to `cancelPressed`, which set the return code;
  - `super.create` builds the dialog area and the button bar.
- The dialog's `close`, which persists the shell bounds, and `getInitialLocation` are not modelled. The SWT widgets, tab folder, fonts and layout are not modelled either. The tab titles are resource strings, so tabs are identified by their page class.
- `setInitialFocus` and `makeVisible` of the tab pages, and the pages' own editing logic, are not modelled. A page's edit is `TabPageModifies`: one key set in the shared map, followed by `valuesModified`.
- Dialog settings are a map from key to integer. A key is absent when nothing is stored or the stored text is not a number, which is when `getInt` throws NumberFormatException.
- `hasChanges` throws a NullPointerException for a null value in the working map; maps in the model hold no nulls.
- Document text is a sequence of Unicode scalar values, while `IDocument` offsets and `Character.isWhitespace(char)` count UTF-16 code units. A character outside the Basic Multilingual Plane counts as one position rather than two, and an offset inside a surrogate pair cannot be represented.
- ModifyDialog.constructor: the source keeps the caller's settings map itself as the working map, so the pages' edits reach the caller in place, even on Cancel. The model keeps the working map as a value of the dialog and does not capture that aliasing.
- The ASTParser, `createBindings` and `findDeclaringNode` of JUnit5TestFinder are replaced by a per-type description, `TypeSource`. It gives what they would return for the type: whether there is a compilation unit, the source range, the created bindings and the declaring node with its binding.
- The Java model's JavaModelException from `getFlags` and the other queries is not modelled.
- `printStackTrace` is foreign I/O. A present cause's trace is modelled as an opaque string.
- The display-name lambdas of StatusReporter are modelled as the strings they return.
- `MessageIds` is not part of this model. `IGNORED_TEST_PREFIX` is `@Ignore: `, `ASSUMPTION_FAILED_TEST_PREFIX` is `@AssumptionFailure: `, `TEST_FAILED` is `%FAILED ` and `TEST_ERROR` is `%ERROR  `, as JDT defines them.
- TestReference's launcher, test plan, `countTestCases`, `sendTree` and `run` call into the JUnit launcher; a reference is modelled only as its name and discovery request.
- The `failureNames` and `listener` parameters of `loadTests` are unused by the source and are not modelled.
- Reference identity: the source's references are distinct objects, so the hash set keeps all of them. The model keeps this with a multiset of reference values.
- ProposalPreview.AppendContent: the source does not reject a start offset inside a multi-character line delimiter, and the model does not require it away. That case is the BadLocationException path, characterised by `PreviewProperties.AppendContentFails`. The plain-text characterisation `PreviewProperties.PlainPreview` assumes the start is not inside a delimiter.

## Findings

| source | as written | input that shows it | evidently intended | confidence | as-written member | corrected member |
|---|---|---|---|---|---|---|
| org.eclipse.jdt.ui/ui/org/eclipse/jdt/internal/ui/fix/CleanUpSaveParticipantConfigurationModifyDialog.java:149 | when the computed height exceeds the stored height, the height becomes the computed width (`initialSize.x`) | stored width 50 and height 200, computed size 100×300: the dialog opens 100×100 | the computed height (`initialSize.y`), giving 100×300, so the dialog is never smaller than its computed size | not executed | CleanUpModifyDialog.InitialSizeShrinksHeight | CleanUpModifyDialog.ModifyDialog.GetInitialSizeIntended |
