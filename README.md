# Claude Code for Visual Studio — a Dafny model of the session core

This project models the core of a Visual Studio extension that drives the
`claude` command-line tool. The extension does three things:

- It keeps one long-lived child process. Each prompt goes to it as one JSON
  line, and the reply streams back as JSON lines.
- It shows the conversation in a chat window.
- It gathers context from the editor: the active document and the solution's
  project files.

Three source files form the core:

- `ClaudeCodeCommandService.cs` is the session manager.
  - The process lifecycle (`EnsureProcessStarted`, `StopProcess`, `Dispose`).
  - One run (`RunAsync`) and its read loop (`ProcessResponseAsync`).
  - The line classifier (`TryParseJsonLine`, `ShouldLogEvent`).
  - The case-insensitive modified-files set (`TrackModifiedFile`).
  - The executable lookup (`WindowsCommandResolver.Resolve`).
- `ChatViewModel.cs` is the chat window's view model.
  - The run/cancel state machine and the property setters with their
    change notifications.
  - The queue of output chunks that the update timer drains into the
    Assistant message.
  - The `catch`/`finally` handling at the end of a run, and `RelayCommand`.
- `EditorContextService.cs` is the editor context.
  - The active document's path relative to the solution directory, its
    selection and its text.
  - The walk over every project's item tree that lists the files.

Each source file is modelled in its own form:

- The services and the view model mutate fields. They become classes:
  `Session.CommandService`, `Chat.ChatViewModel`,
  `Editor.EditorContextService` and `Editor.ProjectFileList`.
- Every method of those classes is proved to change the fields exactly as a
  specification function on a state value says. Examples are `Session.Run`,
  `Session.EnsureStarted`, `Chat.Started`, `Chat.Completed`,
  `Editor.ProjectFiles` and `Editor.CollectItems`.
- The loops of the source stay loops, with invariants:
  - the read loop;
  - the `StringBuilder` drain of the pending queue;
  - the nested directory/extension loops of the resolver;
  - the project and item walks.
- The lemmas about the specification functions state what the code promises.

The world outside the code becomes parameters:

- JSON parsing is a `parse` function from a line to the fields the service
  reads from it.
- The output the child process writes is a script of `Turn`s. Each turn is
  what one iteration of the read loop meets.
- Which files and directories exist are predicates.
- The callback's failures are a function from a line to what the callback
  throws, if anything: an `OperationCanceledException` or another exception
  with its message.
- A kill is seen only through the `killed` field of the service state. It lists
  the identities of the processes that `StopProcess` killed, in order.
- The resolver's outcome reaches the session as the `Launch` value:
  `PathRejected` when `Path.Combine` threw inside `Resolve`.
- The IDE object model is a value (`Dte`, `Solution`, `Project`,
  `ProjectItem`).

Files:

- `wrappers.dfy`: `Option`.
- `text.dfy`: the .NET string rules used. These are white space, ordinal
  case-insensitive comparison, `Split`, `Replace` and `TrimStart`.
- `faults.dfy`: the exceptions and their messages.
- `events.dfy`: the line classifier and the modified-files set.
- `response.dfy`: the read loop as a function of the turn script.
- `session.dfy`: the service state, `RunAsync` and the `CommandService` class.
- `resolver.dfy`: `WindowsCommandResolver`.
- `chat.dfy`: `ChatViewModel` and `RelayCommand`.
- `editor.dfy`: `EditorContextService`.

## Model

Source paths are relative to the repository root.

| member | source | states |
|---|---|---|
| Text.JoinSplit | src/ClaudeCodeForVS/Services/ClaudeCodeCommandService.cs:499 | Splitting PATH on `;` loses nothing: joining the pieces back with `;` gives the original text, and no piece contains `;`. |
| Text.EqualsIgnoreCaseIsEquivalence | src/ClaudeCodeForVS/Services/ClaudeCodeCommandService.cs:339 | The ordinal case-insensitive comparison is reflexive, symmetric and transitive. |
| Text.ReplaceMapsEachChar | src/ClaudeCodeForVS/Services/EditorContextService.cs:227-234 | `Replace(from, to)` keeps the length, turns every `from` into `to` and leaves every other character alone. |
| Text.TrimStartDropsLeading | src/ClaudeCodeForVS/Services/EditorContextService.cs:67 | `TrimStart` keeps a suffix that does not start with a trimmed character, and drops only trimmed characters. |
| Faults.TimeoutMessageNamesTenMinutes | src/ClaudeCodeForVS/Services/ClaudeCodeCommandService.cs:29-210 | The timeout exception's message names the 10-minute request timeout. |
| ResponseLoop.DeliveredLinesAreParsed | src/ClaudeCodeForVS/Services/ClaudeCodeCommandService.cs:107-124 | No blank line reaches the parser, the tracker or the callback: every delivered line is non-blank, was parsed once by `TryParseJsonLine`, and `ShouldLogEvent` read its event type without throwing. |
| Events.ShouldLogEvent | src/ClaudeCodeForVS/Services/ClaudeCodeCommandService.cs:278-299 | A line is left out of the log exactly when it parses as a `stream_event` whose nested event type is `content_block_delta`. Reading the event type throws `InvalidCastException` exactly for a `stream_event` whose `event.type` is an object or array. Unparsed lines and result/error/system lines are always logged. |
| Events.ToolPath | src/ClaudeCodeForVS/Services/ClaudeCodeCommandService.cs:129-152 | A path is tracked only for a `content_block_start` of `Write`, `Edit` or `MultiEdit` with an input. That path is `file_path` when present, else `path`, and never empty. |
| Events.AddPathFacts | src/ClaudeCodeForVS/Services/ClaudeCodeCommandService.cs:42-150 | `HashSet.Add` under `OrdinalIgnoreCase` adds a path unless the set already holds it up to case, and then leaves the set unchanged. Membership up to case grows by exactly the added path. The set never holds two spellings of one path. |
| Events.TrackAllContents | src/ClaudeCodeForVS/Services/ClaudeCodeCommandService.cs:257-261 | After a run's lines, a path is in the set up to case exactly when it was there before or some line named it. The set stays free of case duplicates and only grows. |
| Events.TrackAllFromEmpty | src/ClaudeCodeForVS/Services/ClaudeCodeCommandService.cs:167-261 | Starting from the cleared set, every member is a path that some line of the run named. |
| Events.TrackKeepsFirstSpelling | src/ClaudeCodeForVS/Services/ClaudeCodeCommandService.cs:42 | A second write to the same path in other letter case keeps the first spelling only. |
| Events.EmptyFilePathIsNotReplaced | src/ClaudeCodeForVS/Services/ClaudeCodeCommandService.cs:147-148 | An empty `file_path` is not replaced by `path`: `??` skips only a missing value, and the empty path is then not tracked. |
| Events.ToolNameIsCaseSensitive | src/ClaudeCodeForVS/Services/ClaudeCodeCommandService.cs:139 | Tool names are compared ordinally, so `write` is not tracked. |
| ResponseLoop.RespondStopsAtFirstStop | src/ClaudeCodeForVS/Services/ClaudeCodeCommandService.cs:227-272 | The loop goes on exactly through blank lines and through non-result lines whose event type can be read and whose callback returns. It stops at the first other turn, and that turn alone decides the ending: cancellation at the head, process gone, stream closed, read cancelled, invalid cast, callback exception (a cancellation or another one), or result. |
| ResponseLoop.RespondDelivers | src/ClaudeCodeForVS/Services/ClaudeCodeCommandService.cs:243-264 | Every non-blank line read before the stop whose event type can be read goes to the callback and the tracker, in arrival order. Exactly the log-worthy ones are logged. |
| ResponseLoop.ResultEndsTheLoop | src/ClaudeCodeForVS/Services/ClaudeCodeCommandService.cs:264-270 | No delivered line before the last is a result or a throwing callback. A normal end on a result means the last delivered line is a result; an end by the callback's exception means the last line's callback threw it, and a cancellation from the callback ends the loop as a cancellation. |
| ResponseLoop.ResultLineEndsLoopAtOnce | src/ClaudeCodeForVS/Services/ClaudeCodeCommandService.cs:267-270 | A `result` line ends the loop right after it is logged and handed to the callback. |
| ResponseLoop.ObjectEventTypeThrows | src/ClaudeCodeForVS/Services/ClaudeCodeCommandService.cs:249-290 | A `stream_event` line whose `event.type` is an object ends the loop with `InvalidCastException` before it is logged, tracked or handed to the callback. |
| ResponseLoop.RespondFaults | src/ClaudeCodeForVS/Services/ClaudeCodeCommandService.cs:232-290 | The loop itself throws only the two invalid-operation exceptions, the invalid cast of a non-scalar event type, or the callback's own exception. A cancellation ends it only through a read or through the callback that threw it. |
| Session.Stop | src/ClaudeCodeForVS/Services/ClaudeCodeCommandService.cs:407-447 | Stopping kills a live process (and only a live one), recording it in the `killed` trace. It nulls the process, the three streams and the pump whatever the kill does. The directory and the modified files stay, and the invariant is kept. |
| Session.EnsureStartedReuses | src/ClaudeCodeForVS/Services/ClaudeCodeCommandService.cs:337-346 | A live process whose directory matches ignoring case is reused unchanged. |
| Session.EnsureStartedRestarts | src/ClaudeCodeForVS/Services/ClaudeCodeCommandService.cs:337-394 | Otherwise the requested directory is recorded, and a live process is killed first (it is appended to the `killed` trace), while a dead one is replaced without a kill. Unless the resolver throws, a fresh process object is made; the launch succeeds exactly when the executable starts, and a failure reports the not-found message. When `Path.Combine` throws in the resolver, the `ArgumentException` leaves no new process object and the counter unchanged. |
| Session.EnsureStartedSucceeds | src/ClaudeCodeForVS/Services/ClaudeCodeCommandService.cs:335-394 | The service invariant is kept. After success a live process owns the streams and its directory equals the requested one ignoring case. |
| Session.EnsureStartedFailures | src/ClaudeCodeForVS/Services/ClaudeCodeCommandService.cs:337-377 | A failure leaves no live process. It is `HasExited`'s exception on an unstarted object already there (then nothing changes), the not-found exception with the new unstarted object in `_process`, or the resolver's `ArgumentException` with no new object. |
| Session.RunRejectedWhenDisposed | src/ClaudeCodeForVS/Services/ClaudeCodeCommandService.cs:162-449 | A disposed service throws `ObjectDisposedException` and changes nothing. |
| Session.RunTracksOnlyItsOwnFiles | src/ClaudeCodeForVS/Services/ClaudeCodeCommandService.cs:166-167 | The modified-files set is cleared once the lock is held. Afterwards it holds only paths named by this run's delivered lines, with no case duplicates. |
| Session.RunPreservesValid | src/ClaudeCodeForVS/Services/ClaudeCodeCommandService.cs:160-222 | A run keeps the service invariant: process identities are fresh, a started process owns the streams and the pump, and the set has no case duplicates. |
| Session.RunWritesOneRequest | src/ClaudeCodeForVS/Services/ClaudeCodeCommandService.cs:173-197 | A run that gets its process writes exactly one envelope holding the prompt and then reads. A run that fails earlier writes and reads nothing and throws. |
| Session.RunCancelOrTimeoutStops | src/ClaudeCodeForVS/Services/ClaudeCodeCommandService.cs:200-211 | An `OperationCanceledException`, from a read or from the callback, stops the process. It is rethrown when the caller's token is cancelled; otherwise the 10-minute timeout is thrown. |
| Session.TimeoutOnlyFromTimer | src/ClaudeCodeForVS/Services/ClaudeCodeCommandService.cs:206-211 | A timeout is reported only when an `OperationCanceledException`, from a read or from the callback, met a caller's token that was not cancelled, and the process is then stopped. |
| Session.RunOtherFaultsKeepProcess | src/ClaudeCodeForVS/Services/ClaudeCodeCommandService.cs:212-217 | Any other exception from the loop (process gone, stream closed, invalid cast, a callback exception that is not a cancellation) is rethrown as is without stopping the process. The process is recorded as exited exactly when the health check failed. |
| Session.RunCancelAtHeadReturns | src/ClaudeCodeForVS/Services/ClaudeCodeCommandService.cs:229 | Cancellation seen at the loop head ends the run without an exception and leaves the process alive. |
| Session.LaunchFailureIsSticky | src/ClaudeCodeForVS/Services/ClaudeCodeCommandService.cs:337-377 | After a failed launch, every later run fails in `EnsureProcessStarted` with `HasExited`'s invalid-operation exception, whatever its directory. |
| Session.PathRejectionIsNotSticky | src/ClaudeCodeForVS/Services/ClaudeCodeCommandService.cs:349-353 | A run that failed because the resolver threw leaves no process object behind, so a later run whose launch succeeds sends its request. |
| Session.RunInOtherDirectory | src/ClaudeCodeForVS/Services/ClaudeCodeCommandService.cs:337-365 | A run from a live process in a directory that differs ignoring case kills that process before it starts a new one with a fresh identity and writes its request to it. |
| Session.DirectoryChangeRestarts | src/ClaudeCodeForVS/Services/ClaudeCodeCommandService.cs:339-349 | A run in a directory that differs ignoring case kills the first run's live process before it starts a new one with a fresh identity and writes its request to it. The new process is killed in turn only when the run ends in a cancellation or a timeout. |
| Session.DeadProcessReplacedWithoutStop | src/ClaudeCodeForVS/Services/ClaudeCodeCommandService.cs:337-365 | A dead process is replaced without `StopProcess`, so nothing is killed. If the new launch fails, the old stream handles are left in place. |
| Session.DisposeStopsAndRejects | src/ClaudeCodeForVS/Services/ClaudeCodeCommandService.cs:457-475 | `Dispose` stops the process, killing it if it is live. It is idempotent, and it makes every later run throw `ObjectDisposedException`. |
| Session.CommandService.constructor | src/ClaudeCodeForVS/Services/ClaudeCodeCommandService.cs:31-42 | A new service has no process, no streams, no directory and an empty set. |
| Session.CommandService.ClearModifiedFiles | src/ClaudeCodeForVS/Services/ClaudeCodeCommandService.cs:52 | Empties the set and changes nothing else. |
| Session.CommandService.TrackModifiedFile | src/ClaudeCodeForVS/Services/ClaudeCodeCommandService.cs:129-158 | Adds `ToolPath`'s path, if any, to the set under case-insensitive equality and changes nothing else. |
| Session.CommandService.StopProcess | src/ClaudeCodeForVS/Services/ClaudeCodeCommandService.cs:407-447 | The fields become `Stop` of the old fields. |
| Session.CommandService.EnsureProcessStarted | src/ClaudeCodeForVS/Services/ClaudeCodeCommandService.cs:335-394 | The fields and the exception are `EnsureStarted` of the old fields, including the resolver's exception after the directory is recorded. |
| Session.CommandService.ProcessResponse | src/ClaudeCodeForVS/Services/ClaudeCodeCommandService.cs:227-272 | The loop's result is `Respond` of the turn script, and the fields become `AfterLoop` of it. |
| Session.CommandService.RunAsync | src/ClaudeCodeForVS/Services/ClaudeCodeCommandService.cs:160-222 | The fields and the report are `Run` of the old fields; a cancellation from a read or from the callback goes through the same handlers. |
| Session.CommandService.Dispose | src/ClaudeCodeForVS/Services/ClaudeCodeCommandService.cs:457-475 | The fields become `Disposed` of the old fields. |
| Resolver.CombineFacts | src/ClaudeCodeForVS/Services/ClaudeCodeCommandService.cs:503-516 | `Path.Combine` returns the directory for an empty file name, and a rooted file name or one under an empty directory unchanged. Otherwise it joins with `\` unless the directory already ends in a separator. |
| Resolver.PathCombineFacts | src/ClaudeCodeForVS/Services/ClaudeCodeCommandService.cs:503-516 | `Path.Combine` throws `ArgumentException` exactly when an argument holds `"`, `<`, `>`, `\|` or a control character, and what it returns holds none of them. |
| Resolver.DistinctFromFacts | src/ClaudeCodeForVS/Services/ClaudeCodeCommandService.cs:510 | `Distinct` keeps exactly the unseen elements, once each. |
| Resolver.ProbeFindsFirst | src/ClaudeCodeForVS/Services/ClaudeCodeCommandService.cs:514-522 | In one directory the probe ends at the first candidate that is not a miss: an existing file, or a path `Path.Combine` refuses. It misses exactly when every candidate misses. |
| Resolver.LookupFindsFirst | src/ClaudeCodeForVS/Services/ClaudeCodeCommandService.cs:512-524 | The first directory whose probe is not a miss decides, hit or exception. The search misses exactly when every directory misses. |
| Resolver.Resolve | src/ClaudeCodeForVS/Services/ClaudeCodeCommandService.cs:491-528 | The nested loops return the first hit over the search directories, or the bare command name when there is none, and stop with the `ArgumentException` at the first combination `Path.Combine` refuses. |
| Resolver.LookupIgnoresDuplicates | src/ClaudeCodeForVS/Services/ClaudeCodeCommandService.cs:510 | Removing duplicate directories does not change how the search ends. |
| Resolver.DistinctAppend | src/ClaudeCodeForVS/Services/ClaudeCodeCommandService.cs:510 | De-duplicating a concatenation de-duplicates the first part, then the second part without the first part's elements. |
| Resolver.LookupAppend | src/ClaudeCodeForVS/Services/ClaudeCodeCommandService.cs:512-524 | Over a concatenation, the second part is searched only when the first misses everywhere. |
| Resolver.ResolveSearchesPathFirst | src/ClaudeCodeForVS/Services/ClaudeCodeCommandService.cs:495-524 | A refused application-data folder makes `Resolve` throw. Otherwise the search over PATH as written decides when it does not miss; the npm directory is probed only when PATH misses, and only when the directory exists. |
| Resolver.InvalidEntryStopsSearch | src/ClaudeCodeForVS/Services/ClaudeCodeCommandService.cs:512-516 | A directory holding an invalid path character ends the search with the `ArgumentException` when it is reached; no later directory is probed. |
| Resolver.QuotedPathEntryThrows | src/ClaudeCodeForVS/Services/ClaudeCodeCommandService.cs:497-516 | A quoted PATH entry such as `"C:\Program Files\nodejs"` makes the search throw before the next entry is probed. |
| Resolver.ExePreferredOverCmd | src/ClaudeCodeForVS/Services/ClaudeCodeCommandService.cs:485-489 | In one directory an existing `.exe` wins over the `.cmd`. |
| Resolver.EmptyPathEntryProbesCurrentDirectory | src/ClaudeCodeForVS/Services/ClaudeCodeCommandService.cs:499-516 | An empty PATH entry probes the bare file name, which is the current directory, provided the name holds no invalid character. |
| Chat.ConcatAppend | src/ClaudeCodeForVS/ViewModels/ChatViewModel.cs:63-67 | Appending chunk lists appends their texts. |
| Chat.Suffix | src/ClaudeCodeForVS/ViewModels/ChatViewModel.cs:164-180 | A tag is added to the Assistant message exactly when `RunAsync` threw. |
| Chat.FlushedDrains | src/ClaudeCodeForVS/ViewModels/ChatViewModel.cs:57-73 | A tick does nothing without a current message or queued chunks. Otherwise it empties the queue and appends the chunks, oldest first, to the current message; no other message or field changes. |
| Chat.SettersFollowTheValue | src/ClaudeCodeForVS/ViewModels/ChatViewModel.cs:77-118 | Setting `IsRunning` to a new value sets `IsCancelEnabled` to the same value. Each setter is a no-op when the value is unchanged, and notifications are only appended. |
| Chat.StartedShape | src/ClaudeCodeForVS/ViewModels/ChatViewModel.cs:129-152 | `OnRun` does nothing unless `CanRun`. Then it appends the User message and an empty Assistant message, clears the input, makes the Assistant message current and sets running, cancel-enabled and a fresh token source. |
| Chat.StepKeepsOrder | src/ClaudeCodeForVS/ViewModels/ChatViewModel.cs:57-73 | One output line, timer tick or cancel click keeps "message content, then queue" equal to before plus the new line with a line feed. |
| Chat.DuringKeepsOrder | src/ClaudeCodeForVS/ViewModels/ChatViewModel.cs:52-73 | Over any order of output lines, ticks and cancel clicks, the Assistant content followed by the queue is the old content, the old queue, and every line with a line feed in arrival order. Only the queue, that message and the token change. |
| Chat.ChunksAppend | src/ClaudeCodeForVS/ViewModels/ChatViewModel.cs:158-162 | The callback's chunks for a concatenation of events are the two parts' chunks concatenated. |
| Chat.CompletedShape | src/ClaudeCodeForVS/ViewModels/ChatViewModel.cs:164-188 | Once the run ends, the queue, then the outcome's tag, go to the run's message; no other message changes, and the view model is idle with no token source. |
| Chat.RunLifecycle | src/ClaudeCodeForVS/ViewModels/ChatViewModel.cs:134-190 | A whole run adds exactly two messages. The Assistant one ends with the old queue, every output line with a line feed in order, and the outcome's tag, whenever the timer ticked. The view model ends idle with an empty input. |
| Chat.CancelOnlyWhileRunning | src/ClaudeCodeForVS/ViewModels/ChatViewModel.cs:256-267 | Cancel changes only the token, and cancels it only while running. |
| Chat.ChatViewModel.constructor | src/ClaudeCodeForVS/ViewModels/ChatViewModel.cs:33-41 | No messages, and `UserInput` is set to empty through its setter. |
| Chat.ChatViewModel.SetUserInput | src/ClaudeCodeForVS/ViewModels/ChatViewModel.cs:77-89 | The fields become `WithUserInput` of the old fields. |
| Chat.ChatViewModel.SetIsCancelEnabled | src/ClaudeCodeForVS/ViewModels/ChatViewModel.cs:91-103 | The fields become `WithCancelEnabled` of the old fields. |
| Chat.ChatViewModel.SetIsRunning | src/ClaudeCodeForVS/ViewModels/ChatViewModel.cs:105-118 | The fields become `WithRunning` of the old fields. |
| Chat.ChatViewModel.Notify | src/ClaudeCodeForVS/ViewModels/ChatViewModel.cs:271-274 | One `PropertyChanged` notice for the named property is appended, and nothing else changes. |
| Chat.ChatViewModel.UpdateCommandStates | src/ClaudeCodeForVS/ViewModels/ChatViewModel.cs:123-127 | Both commands raise `CanExecuteChanged`, in order. |
| Chat.ChatViewModel.FlushPendingContent | src/ClaudeCodeForVS/ViewModels/ChatViewModel.cs:57-73 | The dequeue loop appends the concatenation of the queued chunks, oldest first, to the current message (`Flushed`). |
| Chat.ChatViewModel.OnRun | src/ClaudeCodeForVS/ViewModels/ChatViewModel.cs:134-152 | The fields become `Started`; the prompt sent is the old input exactly when `CanRun` held. |
| Chat.ChatViewModel.Enqueue | src/ClaudeCodeForVS/ViewModels/ChatViewModel.cs:158-162 | Queues the output with a line feed. |
| Chat.ChatViewModel.OnCancel | src/ClaudeCodeForVS/ViewModels/ChatViewModel.cs:261-267 | The fields become `CancelRequested` of the old fields. |
| Chat.ChatViewModel.OnRunCompleted | src/ClaudeCodeForVS/ViewModels/ChatViewModel.cs:164-190 | The fields become `Completed` of the old fields and the outcome. |
| Chat.CanExecuteWithoutPredicate | src/ClaudeCodeForVS/ViewModels/ChatViewModel.cs:290-293 | A command without a predicate can always execute; with one, exactly when the predicate holds. |
| Editor.GetFileNameIsLastSegment | src/ClaudeCodeForVS/Services/EditorContextService.cs:55 | The file name is the suffix after the last separator or volume colon, and contains none. |
| Editor.LastSeparatorIsLast | src/ClaudeCodeForVS/Services/EditorContextService.cs:64 | No separator lies after the one `GetDirectoryName` cuts at. |
| Editor.GetDirectoryNameFacts | src/ClaudeCodeForVS/Services/EditorContextService.cs:64-226 | Only an empty or blank path is rejected. A directory is a prefix of the path with `/` written as `\`. A path without root or separator has the empty directory. |
| Editor.RelativeToFacts | src/ClaudeCodeForVS/Services/EditorContextService.cs:65-67 | Under the solution directory (prefix ignoring case), the relative path is the rest with the leading separators dropped. Elsewhere it is the full path. |
| Editor.SiblingFolderIsStripped | src/ClaudeCodeForVS/Services/EditorContextService.cs:65-67 | The prefix test is textual: a sibling folder whose name extends the solution folder's is stripped as if inside it. |
| Editor.PrefixIgnoresCase | src/ClaudeCodeForVS/Services/EditorContextService.cs:65-67 | The prefix is compared ignoring case, and every leading separator of either kind is dropped. |
| Editor.ReadTextDocument | src/ClaudeCodeForVS/Services/EditorContextService.cs:85-101 | The full text is always read. The selection is taken only when it is not empty. |
| Editor.CurrentContextFacts | src/ClaudeCodeForVS/Services/EditorContextService.cs:45-104 | There is a context exactly when there is an active document, and its paths are the document's. It has a selection exactly when the editor reports a non-empty selection with text, and it has the full text exactly when there is a text document. |
| Editor.ContextRelativePathFallsBack | src/ClaudeCodeForVS/Services/EditorContextService.cs:62-82 | Without a named solution, or for a document outside it, the relative path is the full path. |
| Editor.CollectIsPreorder | src/ClaudeCodeForVS/Services/EditorContextService.cs:194-265 | The walk lists exactly the entries of the tree's file names in pre-order (own files, nested items, sub-project), each item's files in index order. |
| Editor.CollectItemIsPreorder | src/ClaudeCodeForVS/Services/EditorContextService.cs:207-265 | The same for one item. |
| Editor.FilesOfAppend | src/ClaudeCodeForVS/Services/EditorContextService.cs:212-247 | The entries of a concatenation of file names are the two parts' entries concatenated. |
| Editor.CollectItemsAppend | src/ClaudeCodeForVS/Services/EditorContextService.cs:194-271 | The entries of a concatenation of items are the two parts' entries concatenated. |
| Editor.CollectProjectsAppend | src/ClaudeCodeForVS/Services/EditorContextService.cs:145-166 | Adding a project appends its items' entries. |
| Editor.Entry | src/ClaudeCodeForVS/Services/EditorContextService.cs:216-237 | A file name yields at most one entry, and only when it is neither null nor empty, the file exists and its directory can be computed. |
| Editor.FilesOfExist | src/ClaudeCodeForVS/Services/EditorContextService.cs:219-236 | Every entry comes from a non-empty file name whose file exists. |
| Editor.FileInfoShape | src/ClaudeCodeForVS/Services/EditorContextService.cs:221-236 | An entry's name is the file name. Its path is the relative path with `/` separators only. Its directory has only `/`, is a prefix of the path, and is empty for a file directly in the solution directory. |
| Editor.ProjectFilesWithoutSolution | src/ClaudeCodeForVS/Services/EditorContextService.cs:124-139 | With no solution, or a solution directory that is empty or cannot be computed, the list is empty. |
| Editor.UnsavedSolutionHasNoFiles | src/ClaudeCodeForVS/Services/EditorContextService.cs:132-139 | A solution without a name lists no files. |
| Editor.ProjectFileList.Add | src/ClaudeCodeForVS/Services/EditorContextService.cs:231-236 | Appends the entry. |
| Editor.EditorContextService.Initialize | src/ClaudeCodeForVS/Services/EditorContextService.cs:37-40 | Stores the IDE object. |
| Editor.EditorContextService.GetCurrentContext | src/ClaudeCodeForVS/Services/EditorContextService.cs:45-104 | Null exactly when there is no IDE object or no active document; otherwise the context of the active document. |
| Editor.EditorContextService.GetProjectFiles | src/ClaudeCodeForVS/Services/EditorContextService.cs:118-174 | The loop over the projects returns `ProjectFiles`: every project's entries in order. |
| Editor.EditorContextService.GetProjectItems | src/ClaudeCodeForVS/Services/EditorContextService.cs:179-277 | Appends exactly the entries of the items, in walk order. |
| Editor.EditorContextService.GetProjectItem | src/ClaudeCodeForVS/Services/EditorContextService.cs:196-265 | For one item, appends its files, then the nested items' entries, then the sub-project's. |
| Editor.ShortLoopNeverEndsAtMaxCount | src/ClaudeCodeForVS/Services/EditorContextService.cs:207-212 | As written, the `short` counter wraps from 32767 to -32768, so for an item with 32767 files the guard holds after every increment and the loop never ends. |
| Editor.AddItemFiles | src/ClaudeCodeForVS/Services/EditorContextService.cs:207-247 | The loop over `FileNames[1..FileCount]` appends the entries of those names in index order and ends, whatever the count. |

## Left out

- Processes, streams and threads are not modelled as such.
  - The child process, its pipes, the `SemaphoreSlim` run lock, `Task.WhenAny`
    races and the stderr pump (`PumpStreamAsync`) are left out: they are I/O and
    concurrency.
  - The environment's choices are parameters instead: the lock wait being
    cancelled, the launch result, and each read's outcome.
  - The stderr pump's forwarding of error text to the callback is not modelled.
- JSON parsing and serialisation (Newtonsoft) are a `parse` parameter.
  - The serialised request is the `Envelope` value it would encode.
  - A line that fails to parse is `Unparsed`.
  - A non-scalar `name`, `file_path` or `path` makes `TrackModifiedFile`
    throw and catch its own exception, so nothing is tracked. `parse` is
    taken to report such a value as missing (a missing input for
    `file_path` or `path`); the model does not check that it does.
- Logging (`Log`, `LogService`, the Output pane, `EnsureOutputPaneAsync`) is
  left out: it has no effect on the state.
  - The read loop's log, the lines `ShouldLogEvent` keeps, is modelled.
- A failing stdin write or flush in `RunAsync` is not modelled: the request is
  always written.
- The finalizer and `Dispose(false)` are left out. They only set the disposed
  flag, and garbage collection is outside the model.
- Two `ChatViewModel` parts are not modelled:
  - `ReloadChangedFilesAsync` and `GetSolutionDirectoryAsync`: they use
    Visual Studio COM services.
  - The `DispatcherTimer`: its ticks are `Tick` events that may come at any
    point.
- Chat.RunLifecycle covers one run at a time, as the `CanRun` guard allows.
  - The async continuation is split into `OnRun` and `OnRunCompleted`.
  - Another `OnRun` between them is not modelled.
- `RelayCommand.Execute`, its constructor's null check and `CanExecuteChanged`
  subscribers are left out: a command is its predicate. The notifications are
  recorded as `Notice`s.
- `ObservableCollection` change events are left out. The collection is a
  sequence.
- `EditorContextService.NotifyContextChanged` and the `Instance` singleton are
  left out: they are event plumbing only.
- Text.EqualsIgnoreCase: case folding covers ASCII letters only, not the full
  Unicode simple case mapping of `OrdinalIgnoreCase`.
- Editor.GetDirectoryName follows the .NET Framework rules for a non-blank
  path: the root, then the cut at the last separator, with `/` written as `\`.
  - It does not collapse repeated separators.
  - It does not reject paths that hold invalid characters.
  - Such paths therefore get a directory instead of being skipped.
- Editor.AddItemFiles reads every file name and ends. An item with exactly
  32767 files makes the source's `short` loop run forever; the loop model
  does not reproduce that (see Findings, and
  Editor.ShortLoopNeverEndsAtMaxCount for the loop as written).
- Editor.EditorContextService.GetProjectItems treats a null item collection as
  an empty one.
  - COM exceptions thrown by the IDE object model, other than the path
    exceptions modelled by `Invalid`, are not modelled.
- A cancellation seen at the head of the read loop ends `RunAsync` normally,
  with no exception and no `StopProcess`, because the `while` condition
  exits the loop quietly. The model follows the code here (Session.RunCancelAtHeadReturns). A
  cancellation that interrupts a read is the one that stops the process and
  is rethrown.

## Findings

| source | as written | input that shows it | evidently intended | confidence | as-written member | corrected member |
|---|---|---|---|---|---|---|
| src/ClaudeCodeForVS/Services/EditorContextService.cs:212 | a `short` counter starts at 1, is compared with `<=` against the item's `short` file count and increments with wrap-around | a project item whose `FileCount` is 32767 | read `FileNames[1..FileCount]` once each, then go on to the next item | not executed; high | Editor.ShortLoopNeverEndsAtMaxCount | Editor.AddItemFiles |
