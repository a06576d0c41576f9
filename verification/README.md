# Easy Code: verified cores

A Dafny model of the stateful cores of Easy Code, with proofs of what they
promise over whole runs. Each module follows one source file: a specification as
functions on values, lemmas about every input and every run, and the code itself
as classes and loops that are proved to compute that specification.

| module | what it models |
|---|---|
| `PrivateOsc` | the filter that swallows private OSC frames while another input owner is active |
| `InputProxy`, `PromptPieces` | the prompt's byte proxy: bracketed pastes, paste hotkeys, private frames, held Enter; what input means, piece by piece |
| `PromptLines`, `PromptChunks`, `PromptArrivals` | the proxy and the lines the editor takes from it: held Enters, clipboard reads, cuts, and when the editor is asked |
| `PasteMarkers` | collapsed pastes: invisible nonces, markers in the draft, their expansion |
| `PromptEditing` | the prompt that can be suspended, nested and edited from outside |
| `CheckpointStore` | the crash-safe store of trial checkpoints |
| `ChoiceEncoder`, `ChoiceLayout` | the token budget of the decision model, and trimming a text to it |
| `InputPacking` | padding encoded choices into rectangular arrays |
| `StreamRenderer`, `StreamAnswers`, `StreamEntries` | streamed answers that become permanent block by block |
| `CommandBroker`, `CommandAnswers` | the serial broker that runs commands in a worker container |
| `WorkspaceExport` | the filter on exported workspace archives |
| `ApprovalFlow`, `ApprovalAnswers`, `ApprovalOrder` | approvals raced by mode changes, thread switches, revocations and aborts |
| `ThreadRecords` | what a thread has read and changed: taken over, stored as a delta, restored |
| `ThreadSessions`, `ThreadCommits` | opening and resuming threads, with the lease handed over |
| `ThreadRecovery`, `OrphanedTasks` | repairs when a thread is opened again |
| `TurnChanges` | the files one request changed, under a line budget |
| `QuotedArguments` | command arguments with quotes |
| `MenuSelection`, `MenuKeys` | one interactive menu, and the keys it understands |
| `Common` | options, results, searching and joining sequences, white space |

Failures, timers, crashes and whatever another process may do are parameters of
a step, so a statement about every run covers every interleaving of them.

Where a promise does not hold on all inputs, the exact condition is a lemma:

- Private frames without a BEL in their first 161 bytes, and paste bodies of
  MAX-4 to MAX bytes, depend on how the input is cut.
- A prompt that is kept open resets its count of clipboard reads with every
  line: a read that begins behind an Enter of the same chunk no longer holds the
  next Enter, an Enter held there is forgotten, and how the input is cut shows.
- A Backspace is asked about, and the Thinking view opened, before the editor has
  what the same chunk brought in front of it: a Backspace right behind a paste
  damages its marker in one chunk and takes it out in two.
- The saved caret needs the keypress hooks, and with them a preserved display is
  taken back even when the draft has changed behind it.
- A stream must start at sequence 1 or later; one that starts at 0 loses its
  first delta.
- Replaying a repaired turn drops an answer when two equal unanswered calls
  follow each other.
- The repair of a turn is refused when its final answer is not the newest event
  of the turn, a few kinds aside, or is followed by another message.
- A new thread whose lease is refused stays in the store, and what the commands
  of the thread it replaces record while they are stopped is not stored.
- A resumed thread equals its stored copy only where restoring moves no path: a
  change stored before a second folder was added is afterwards stored twice, in
  memory once, with nothing left to save.
- A thread whose project gets another primary folder can neither be saved nor
  left.
- A failed review leaves the main worker alone, except the first request on a
  copy whose set-up failed.
- While a menu is hidden, an Enter swallows the rest of its chunk.
- Empty arguments cannot be given to a command, and an argument that ends in a
  backslash cannot be put in double quotes.

`dafny verify dfyconfig.toml` checks the project.

## Model

| member | source | states |
|---|---|---|
| `PrivateOsc.ParsePrivateOsc` | src/cli/prompt-input.ts:174-201 | A private frame is complete only past its 17-byte prefix and within the bytes at hand; a frame stays partial for at most 160 bytes |
| `PrivateOsc.ChunkIndependenceIsExact` | src/cli/prompt-input.ts:243-276 | Cutting a stream into chunks never changes the output and the held bytes, if and only if every private frame met has its BEL within its first 161 bytes or the stream ends within them |
| `PrivateOsc.LongFrameShowsTheCut` | src/cli/prompt-input.ts:174-201 | A frame of 161 bytes without a BEL in its body, and any next byte, is such a stream: its cutting shows |
| `PrivateOsc.FilterRemovesExactlyTheFrames` | src/cli/prompt-input.ts:243-276 | For every reading of a stream as plain bytes and private frames, the output is exactly the plain bytes, in order, and the held bytes are the unfinished frame |
| `PrivateOsc.EveryStreamHasAReading` | src/cli/prompt-input.ts:243-276 | Every stream has such a reading, and it ends in what the filter holds |
| `PrivateOsc.ReadInput` | src/cli/prompt-input.ts:249-274 | The byte loop computes the filter and reports every Ctrl+C that passes |
| `PrivateOsc.PrivateOscInputFilter.Transform` | src/cli/prompt-input.ts:243-276 | One chunk is filtered behind the held bytes; what is held stays held on its own |
| `PrivateOsc.PrivateOscInputFilter.Flush` | src/cli/prompt-input.ts:278-289 | At the end of the stream only a lone ESC is passed on |
| `PrivateOsc.PrivateOscInputFilter.ResetPendingInput` | src/cli/prompt-input.ts:234-241 | A new owner starts with nothing held |
| `InputProxy.ScanIgnoresCutsIff` | src/cli/prompt-input.ts:532-685 | What the scan of all chunks does, in the order of scanning, and the state it ends in do not depend on the cutting if and only if every private frame settles (closed in time, or followed by inert bytes only) and every paste body has at most MAX-5 or more than MAX bytes; when what it does reaches the editor is the matter of the next rows |
| `PromptArrivals.ChunkIndependenceIsExact` | src/cli/prompt-input.ts:383-396 | The proxy by itself: what the editor is asked during each scan and what it is given at its end, in that order, do not depend on the cutting if and only if every frame and paste settles and no Backspace or Ctrl+T stands behind bytes that bring something on their own |
| `PromptArrivals.PromptChunkIndependenceIsExact` | src/cli/prompt-input.ts:532-685 | With lines taken after each chunk: where a stream is cut does not matter to a kept-open prompt if and only if every frame and paste settles, no read begins behind an Enter and no Backspace or Ctrl+T overtakes; and to a one-shot prompt if and only if every frame and paste before the first Enter settles and none overtakes |
| `PromptArrivals.BackspaceOvertakesThePaste` | src/cli/prompt-input.ts:616-619 | A paste that becomes a marker and a Backspace behind it: in one chunk the question comes before the marker and the byte takes one character off it, cut in front of the byte the whole marker goes; either kind of prompt, and the stream settles |
| `PromptArrivals.PasteInTheBandShowsTheCut` | src/cli/prompt-input.ts:566-609 | Every bracketed body of MAX-4 to MAX plain bytes is delivered or refused as the cutting has it, to either kind of prompt |
| `InputProxy.BracketedPasteArrives` | src/cli/prompt-input.ts:566-609 | A bracketed body of up to MAX-5 bytes arrives whole as one event however it is cut, also through its markers; a body over MAX gives exactly one refusal and nothing else |
| `InputProxy.EndFoundWherePut` | src/cli/prompt-input.ts:566-573 | A body without a closing marker is closed exactly where the marker is put: the marker does not overlap itself |
| `InputProxy.ImagePasteInputProxy.Process` | src/cli/prompt-input.ts:532-685 | One chunk of input turns the state and emits the events of the specification |
| `InputProxy.ImagePasteInputProxy.SettleCapture` | src/cli/prompt-input.ts:701-719 | A read that ends replaces its marker unless the prompt is gone by then; the last one releases a held Enter, once, unless the prompt is gone now |
| `InputProxy.ImagePasteInputProxy.ConsumeSubmission` | src/cli/prompt-input.ts:453-476 | Taking a line forgets a held Enter and the reads counted for the draft, whether they go on or not |
| `InputProxy.ImagePasteInputProxy.OnEscapeTimer` | src/cli/prompt-input.ts:822-834 | Held bytes that nothing follows are dropped when they begin a private frame or a paste, and passed on otherwise |
| `InputProxy.ImagePasteInputProxy.OnPasteTimer` | src/cli/prompt-input.ts:840-854 | A paste whose end does not come is abandoned with a notice |
| `InputProxy.ProcessInput` | src/cli/prompt-input.ts:556-683 | The byte loop reaches the outcome of the specified scan, for every start state |
| `PromptPieces.ScanMeansThePieces` | src/cli/prompt-input.ts:532-685 | For every reading of the input as frames, paste keys, pastes, Enters and other bytes, each given literally, an idle proxy does exactly what its pieces mean, in order: a paste-image frame, Ctrl+V and the three kitty keys begin a capture and are counted, other frames do nothing, Ctrl+T shows the Thinking view, a Backspace is asked about, a paste arrives or is refused once; an Enter behind an open capture is held and ends the chunk, and what is left open is kept |
| `PromptPieces.EveryInputHasAReading` | src/cli/prompt-input.ts:532-685 | Every input can be read that way |
| `PromptPieces.ChunkMeansThePieces` | src/cli/prompt-input.ts:556-565 | The same for a chunk that comes behind bytes that were held |
| `PromptPieces.HeldBytesTimeOut` | src/cli/prompt-input.ts:822-834 | Held bytes that nothing follows are passed on if and only if they begin one of the kitty keys beyond its first two bytes, and dropped otherwise |
| `PromptLines.EnterWaitsIff` | src/cli/prompt-input.ts:453-476 | In every run of chunks, ending reads, timers and lines taken, at no moment a next chunk can get an Enter to the editor before a read that is going on has ended, if and only if no line was taken from a kept-open prompt while a read was going on that began behind an Enter of the same chunk |
| `PromptLines.EnterWaitsForCaptures` | src/cli/prompt-input.ts:674-719 | In every run without such a line, so always in a one-shot prompt, each Enter, typed or released, reaches the editor only when every read begun before it has ended |
| `PromptLines.HeldEnterIsReleasedIff` | src/cli/prompt-input.ts:453-476 | When all reads have ended in a prompt that stays, every held Enter has been released if and only if no line was taken while an Enter was held behind another one of the same chunk |
| `PromptLines.HeldEnterIsReleasedOnce` | src/cli/prompt-input.ts:674-719 | In every run each release is that of an Enter held before it; without such a line at most one is held at a time and it is released once; while one is held nothing but ending reads happens |
| `PromptLines.SecondEnterDoesNotWait` | src/cli/prompt-input.ts:1661-1667 | Enter and a paste hotkey in one chunk of a kept-open prompt, then Enter: the second Enter passes while the read goes on |
| `PromptLines.HeldEnterIsForgotten` | src/cli/prompt-input.ts:1661-1667 | Enter, a paste hotkey and Enter in one chunk of a kept-open prompt: the held Enter is never released although the read ends |
| `PromptLines.ScanIsSaid` | src/cli/prompt-input.ts:556-683 | Every scan counts the reads it begins, passes no Enter while a read is counted, stops at the Enter it holds and stays silent while one is held |
| `PromptChunks.LineShowsTheCut` | src/cli/prompt-input.ts:1661-1667 | Enter, a paste hotkey, Enter and a letter to a kept-open prompt: in one chunk the letter is dropped, in two it arrives |
| `PasteMarkers.NonceInjective` | src/cli/prompt-input.ts:1765-1779 | Different random bytes give different invisible nonces |
| `PasteMarkers.FirstHitIsFirstPiece` | src/cli/prompt-input.ts:418-440 | In a line of typed text and placed markers the earliest marker found is the first one placed, at its place |
| `PasteMarkers.ExpansionIsTheMeaning` | src/cli/prompt-input.ts:418-440 | For every line built from typed text and issued markers with distinct nonces, the expansion is the typed text without nonce characters with each payload in its place; payloads are not scanned again |
| `PasteMarkers.StripIsPiecewise` | src/cli/prompt-input.ts:418-440 | Taking the nonces out of a line takes them out of its parts |
| `PasteMarkers.StripKeepsTheRest` | src/cli/prompt-input.ts:418-440 | Text without nonces stays as it is, and nonces alone leave nothing |
| `PasteMarkers.LineBreaksAreBetweenLines` | src/cli/prompt-input.ts:785-797 | The number of lines in a title is that of the texts between line breaks |
| `PasteMarkers.MarkerRegistry.ExpandPastedText` | src/cli/prompt-input.ts:418-440 | The search loop ends and computes the expansion |
| `PasteMarkers.MarkerRegistry.FindNext` | src/cli/prompt-input.ts:423-431 | The earliest occurrence of any marker is found |
| `PasteMarkers.MarkerRegistry.CollapseMarkerBefore` | src/cli/prompt-input.ts:511-530 | The edit removes exactly the longest marker that ends at the cursor; there is none only when no marker ends there |
| `PasteMarkers.MarkerRegistry.PastedTextForPrompt` | src/cli/prompt-input.ts:785-797 | A text over the limit is refused and changes nothing; a text with line breaks or tabs becomes one new marker with that text as its payload; other text is passed as it is |
| `PasteMarkers.MarkerRegistry.ConsumeSubmission` | src/cli/prompt-input.ts:453-476 | A line taken is expanded, and no marker of the draft is known any more |
| `PromptEditing.RunKeepsInv` | src/cli/prompt-input.ts:1229-1292 | In every run with keypress hooks, while the prompt is suspended the saved line and caret equal the editor's, the depth counts the outstanding suspensions and the caret is in range |
| `PromptEditing.SavedDraftNeedsHooks` | src/cli/prompt-input.ts:1033-1043 | The saved draft is right in every run if and only if the keypress hooks are installed |
| `PromptEditing.ReplaceKeepsTheRest` | src/cli/prompt-input.ts:1452-1480 | Replacing a marker keeps all text around it, keeps the caret in range and at its place in the text outside the marker, and keeps the invariant |
| `PromptEditing.DeleteKeepsTheRest` | src/cli/prompt-input.ts:1436-1450 | Deleting the marker before the caret removes exactly it: putting it back at the caret gives the old line |
| `PromptEditing.HidingKeepsTheDraft` | src/cli/prompt-input.ts:1229-1432 | Output above the prompt, disclosures and suspended input change the nesting by exactly one level or not at all, never the draft, and what the terminal shows afterwards is given in every case |
| `PromptEditing.EditingIs` | src/cli/prompt-input.ts:1661-1667 | What a key, a line that is taken and closing do to the draft, the nesting and the display |
| `PromptEditing.DisplayIsRightIffHonest` | src/cli/prompt-input.ts:1344-1432 | A run shows the draft after every step at which nothing hides the prompt, if and only if every preserved display is taken back with the draft that was left behind |
| `PromptEditing.HonestRunsShowTheDraft` | src/cli/prompt-input.ts:1344-1432 | A prompt whose preserved displays are taken back only with the draft they were left with shows its draft at the end of every run |
| `PromptEditing.ReuseIsRightIffUnchanged` | src/cli/prompt-input.ts:1350-1414 | From any correct state, a preserved suspension with any edits in it, taken back with the display kept, leaves the draft on the terminal if and only if the draft is what it was at the suspension |
| `PromptEditing.ReuseShowsAStaleDraft` | src/cli/prompt-input.ts:1405-1414 | One key typed under a preserved display is missing from the terminal afterwards: the comparison with the saved draft does not notice it |
| `PromptEditing.PromptEditor.SuspendPrompt` | src/cli/prompt-input.ts:1229-1245 | Suspending saves the draft at the outermost level only |
| `PromptEditing.PromptEditor.ResumePrompt` | src/cli/prompt-input.ts:1258-1292 | Resuming restores the display at the outermost level only |
| `PromptEditing.PromptEditor.SuspendInput` | src/cli/prompt-input.ts:1344-1376 | Taking the input away suspends the prompt once, with or without preserving the display |
| `PromptEditing.PromptEditor.ResumeInput` | src/cli/prompt-input.ts:1378-1432 | Giving the input back redraws unless the preserved display can be reused |
| `PromptEditing.PromptEditor.DeleteAtomicMarker` | src/cli/prompt-input.ts:1436-1450 | The deletion as written |
| `PromptEditing.PromptEditor.ReplaceAtomicMarker` | src/cli/prompt-input.ts:1452-1480 | The replacement as written |
| `CheckpointStore.VerificationIsIntegrity` | benchmarks/swebench_verified/easy_code_agent.py:911-932 | A generation that verifies no longer does once any file is changed, added or removed |
| `CheckpointStore.PersistIsCrashSafe` | benchmarks/swebench_verified/easy_code_agent.py:851-909 | Stopping a persist after any number of its file-system steps leaves a store whose pointer is absent or names a complete generation: the old one before the pointer moves, the new one after |
| `CheckpointStore.RunIsCrashSafe` | benchmarks/swebench_verified/easy_code_agent.py:851-909 | The same over every run of attempted persists, each possibly refused, skipped or stopped anywhere |
| `CheckpointStore.PointerVerifiesAfterAnyRun` | benchmarks/swebench_verified/easy_code_agent.py:911-932 | After every such run the pointer is absent or names a generation that passes verification under the store's binding |
| `CheckpointStore.RestoreAfterAnyRun` | benchmarks/swebench_verified/easy_code_agent.py:644-678 | After every run a restore gives exactly the files, worktrees aside, that the persist which published the pointer captured, under the same binding; another binding is refused |
| `CheckpointStore.RestoredData` | benchmarks/swebench_verified/easy_code_agent.py:1117-1125 | What is restored of a captured data directory is every captured file as it was and the database without its leases; without a database the restore is refused |
| `CheckpointStore.PublishesIff` | benchmarks/swebench_verified/easy_code_agent.py:851-909 | `latest.json` names the generation of an attempt afterwards if and only if workspace.json is staged, the staged binding is the one of the job and of the store, unless that is new, and the process lives to the step that moves the pointer; a restore then gives its captured files, and otherwise the pointer is as it was |
| `CheckpointStore.CompletedIsGivenBack` | benchmarks/swebench_verified/easy_code_agent.py:644-678 | After a persist that ran to its end `latest.json` names its generation, the store is bound to its trial, and a restore gives every captured file as it was and the database without leases, or refuses data without a database |
| `CheckpointStore.RestoreRefusedIff` | benchmarks/swebench_verified/easy_code_agent.py:644-678 | Each outcome of starting a trial has its exact reason: another binding, no pointer, a generation that is missing, one whose binding or manifest does not list exactly its files, and data without a database |
| `CheckpointStore.RestoredIff` | benchmarks/swebench_verified/easy_code_agent.py:1117-1125 | Any data is restored if and only if it has a database and no file in the place of the worktrees; all but the worktrees comes back |
| `CheckpointStore.CapturedIff` | benchmarks/swebench_verified/easy_code_agent.py:1107-1115 | A file is captured if and only if it is not below the worktrees and no part of its path is a lock of the database |
| `CheckpointStore.FailureIsCleanedUp` | benchmarks/swebench_verified/easy_code_agent.py:901-903 | An attempt that fails with an exception leaves no staging directory, if that can be removed |
| `CheckpointStore.PruneKeepsTheNewest` | benchmarks/swebench_verified/easy_code_agent.py:1252-1265 | A finished persist keeps exactly the three newest generations and the one it published |
| `CheckpointStore.HashFiles` | benchmarks/swebench_verified/easy_code_agent.py:1196-1213 | The manifest loop lists every file with its digest |
| `CheckpointStore.Store.PersistCheckpoint` | benchmarks/swebench_verified/easy_code_agent.py:851-909 | The persist as written is skipped if and only if workspace.json is not staged and refused if and only if it is and the staged binding or that of the store is another one, with the store unchanged in both cases; it completes if and only if neither holds and the process outlives the planned steps, and then a restore gives its data; it performs those steps, in order, up to the crash |
| `CheckpointStore.Store.RemoveGenerations` | benchmarks/swebench_verified/easy_code_agent.py:1252-1265 | Stale generations are removed one by one, never the current one |
| `ChoiceEncoder.CleanHasNoMask` | resources/laya-decision/runtime.py:57 | Cleaned text contains no mask word |
| `ChoiceLayout.CleanReplacesTheMasks` | resources/laya-decision/runtime.py:57 | Reading a text from the left as parts with the mask between them, cleaning it gives the same parts with a blank between them |
| `ChoiceLayout.EveryTextSplits` | resources/laya-decision/runtime.py:57 | Every text can be read that way |
| `ChoiceEncoder.BuildSequence` | resources/laya-decision/runtime.py:49-74 | The building loop gives the encoding, or the error of a bad task or order |
| `ChoiceLayout.SequenceIs` | resources/laya-decision/runtime.py:49-74 | The sequence is the start token, the question within its budget, every option behind its mask, and as much of the input as there is room for, with the separators between, cut to max_len |
| `ChoiceLayout.OptionsStandBehindTheirMarkers` | resources/laya-decision/runtime.py:58-70 | Behind each marker that is kept stand the mask and the tokens of the option the order names there, cut to 48 and to the equal share, then the next marker; a marker is lost only where the sequence ends before it |
| `ChoiceLayout.PermutationIff` | resources/laya-decision/runtime.py:54-56 | An order is accepted if and only if sorting it gives the numbers of the options |
| `ChoiceLayout.BuiltIff` | resources/laya-decision/runtime.py:49-56 | A sequence is built if and only if the question is a choice of at least two options and sorting the order gives their numbers; each error has its own exact cause |
| `ChoiceEncoder.MasksAreTheMarkers` | resources/laya-decision/runtime.py:49-74 | In every sequence the mask positions are exactly the strictly increasing marker list, and the length is at most max_len |
| `ChoiceEncoder.HeaderWithinBudget` | resources/laya-decision/runtime.py:60-71 | With n choices and head_max_len at least 16+4n the header has at most head_max_len+3 tokens |
| `ChoiceEncoder.AllMarkersKept` | resources/laya-decision/runtime.py:60-74 | With such a head_max_len and max_len at least head_max_len+2 all n markers are kept |
| `ChoiceEncoder.NothingCut` | resources/laya-decision/runtime.py:72-74 | A text that fits the room left by the header is encoded whole, between the header and the separator |
| `ChoiceEncoder.TrimToModel` | resources/laya-decision/worker.py:29-61 | A result is encoded as header, all its tokens and the separator, within max_len and with every marker; it is the source text itself when that fits and otherwise keeps both ends without overlap around the omission; each error has its exact cause, the last one that no size on the way down fits |
| `ChoiceLayout.TrimmedKeepsBothEnds` | resources/laya-decision/worker.py:21-26 | A source of more than 100000 characters keeps its two ends, of equal length or one apart, around the notice |
| `ChoiceEncoder.ShrinkToFit` | resources/laya-decision/worker.py:48-61 | The shrink loop ends; it gives a candidate of a size on the way down that fits the room and keeps both ends, and none if and only if no such size fits |
| `InputPacking.PackingLosesNothing` | resources/laya-decision/runtime.py:77-89 | Two batches that give the same arrays are the same, whatever the padding token |
| `InputPacking.PackInputs` | resources/laya-decision/runtime.py:77-89 | The arrays are as wide as the longest sequence and marker list, and hold every row in its place, filled up, with its attention and validity marks; an empty batch is refused |
| `StreamRenderer.RunOk` | src/cli/model-stream-renderer.ts:152-181 | Every run of streams that start once, at sequence 1 or later, keeps the renderer faithful to what the events alone say of each stream |
| `StreamRenderer.NoTextLostOrRewritten` | src/cli/model-stream-renderer.ts:386-396 | In every run the accepted deltas are the settled slices, then the tail, then the buffer; each settled slice is shown by its own permanent entry; nothing is written to an entry after it was settled |
| `StreamRenderer.CompletedAnswerIsShown` | src/cli/model-stream-renderer.ts:224-249 | A completed stream shows its whole text: the settled slices and the sanitised rest |
| `StreamRenderer.CandidateIsTheOpenEntry` | src/cli/model-stream-renderer.ts:407-430 | The answer candidate is the open, unsettled entry of a completed stream, and its prefix is the settled slices |
| `StreamAnswers.CompletionLeavesCandidateIff` | src/cli/model-stream-renderer.ts:407-430 | The completion of a live stream leaves its open entry as the candidate if and only if the response stopped, no tool call was heard and an entry is open; an entry is open whenever there is text to show behind the settled part |
| `StreamAnswers.CandidateStaysIff` | src/cli/model-stream-renderer.ts:152-181 | A candidate is dropped when a stream starts or an answer is assembled; deltas, usage and the timer leave it |
| `StreamAnswers.FlagsAreHeard` | src/cli/model-stream-renderer.ts:398-405 | In every run a stream is marked for tool calls if and only if one of its accepted events was a tool call |
| `StreamAnswers.InterruptionIsTold` | src/cli/model-stream-renderer.ts:544-580 | The interruption of a live stream writes one line more: the message for the case that tool calls were heard or not, behind the text its open entry showed, or on its own; the stream and its candidate are gone |
| `StreamAnswers.GrowingAnswerIsShown` | src/cli/model-stream-renderer.ts:224-249 | When the flush timer fires, an answer that has grown shows its finished block in an entry of its own and its preview behind it; a preview that was full already stands until a block is finished |
| `StreamEntries.EntriesAreCommittedOnce` | src/cli/model-stream-renderer.ts:436-453 | In every run the first write to an entry commits it, and no other write does; a written text is marked as a continuation if and only if settled parts of its answer come before it |
| `StreamEntries.OrderIsDistinct` | src/cli/model-stream-renderer.ts:224-249 | In every run each stream that is held is flushed in one place of the order |
| `StreamEntries.EarlyEventsCountForNothing` | src/cli/model-stream-renderer.ts:378-379 | A tool call, a completion or an interruption with a sequence up to 1 counts for nothing |
| `StreamRenderer.FinalizeWritesTheRest` | src/cli/model-stream-renderer.ts:183-203 | An assembled text that extends the settled slices by a rest writes exactly that rest, sanitised and trimmed, to the open entry when it is not blank, and otherwise nothing; the settled slices stay |
| `StreamRenderer.FinalizeNeverRewrites` | src/cli/model-stream-renderer.ts:183-192 | An assembled text that does not extend the settled slices writes nothing |
| `StreamRenderer.PreviewHoldsTheLastToken` | src/cli/model-stream-renderer.ts:270-285 | A live preview shows the text up to its last separator within the preview limit, so that a token still being written is held back, with a notice beyond the limit |
| `StreamRenderer.FlushKeepsTextIff` | src/cli/model-stream-renderer.ts:224-249 | A flush keeps the text of a stream if and only if its sequence is above 1 or nothing is buffered |
| `StreamRenderer.StartingAtZeroLosesText` | src/cli/model-stream-renderer.ts:378-379 | A stream started at sequence 0 loses its first delta |
| `StreamRenderer.ModelStreamRenderer.WriteAnswerEntry` | src/cli/model-stream-renderer.ts:436-453 | The open entry is replaced, or a new one committed |
| `StreamRenderer.ModelStreamRenderer.SettleFinishedBlocks` | src/cli/model-stream-renderer.ts:459-475 | The finished part of the tail is written, settled and counted |
| `StreamRenderer.ModelStreamRenderer.ApplyTextDelta` | src/cli/model-stream-renderer.ts:386-396 | A delta grows the answer, settles what is finished and shows the tail |
| `StreamRenderer.ModelStreamRenderer.Flush` | src/cli/model-stream-renderer.ts:224-249 | Every stream is flushed once, in order |
| `StreamRenderer.ModelStreamRenderer.ApplyInterrupted` | src/cli/model-stream-renderer.ts:544-580 | An interruption leaves its notice and removes the stream |
| `StreamRenderer.ModelStreamRenderer.OnEvent` | src/cli/model-stream-renderer.ts:152-181 | An event is filtered by its sequence and applied |
| `StreamRenderer.ModelStreamRenderer.FinalizeAnswer` | src/cli/model-stream-renderer.ts:183-203 | The reconciliation as written |
| `CommandBroker.EachRequestRunsOnce` | benchmarks/swebench_verified/split_environment.py:195-203 | In every run no request directory is executed twice |
| `CommandBroker.PassKeeps` | benchmarks/swebench_verified/split_environment.py:195-203 | A pass that the broker survives leaves every listed request handled, and keeps the invariant of the history |
| `CommandBroker.RepliesAreTruthful` | benchmarks/swebench_verified/split_environment.py:282-382 | In every run a reply says workerRestored exactly when cleanup is confirmed, and then the worker that ran the process was restarted last; spawn_failed exactly when no process was started; cleanup stays unknown only when the environment is stopping |
| `CommandBroker.MainFailureIsFinal` | benchmarks/swebench_verified/split_environment.py:366-378 | After a request that is not a review fails, every later request starts and restarts nothing and answers 125, spawn_failed, failed |
| `CommandBroker.StoppedIffMainFailureOrHalt` | benchmarks/swebench_verified/split_environment.py:366-389 | The stopped flag is set if and only if a request that is not a review has failed or a call of stop_worker has run to its end; in the latter case the environment is stopping too |
| `CommandBroker.NothingStartsOnceStopping` | benchmarks/swebench_verified/split_environment.py:282-297 | Once the environment is stopping or stopped, every request a pass still takes fails and does nothing to any worker but stop the main one |
| `CommandBroker.FailedReviewIsRetired` | benchmarks/swebench_verified/split_environment.py:215-226 | After a request on a review copy fails for any reason, in its set-up or later, no later request on that copy starts a process |
| `CommandBroker.ReviewStopsMainIff` | benchmarks/swebench_verified/split_environment.py:298-303 | A review request stops, starts a process in or restarts the main worker if and only if an earlier request on its copy failed to get hold of it and this one does; it then stops the main worker and nothing else, and no other request on that copy does |
| `CommandBroker.VainSetUpStopsMain` | benchmarks/swebench_verified/split_environment.py:366-375 | A failed set-up followed by any request on the same copy stops the main worker while no flag tells of it |
| `CommandBroker.SplitEnvironment.StopWorker` | benchmarks/swebench_verified/split_environment.py:384-389 | The order to stop is given at once, and the latch follows only if the worker was stopped |
| `CommandBroker.SplitEnvironment.ReviewWorkerFor` | benchmarks/swebench_verified/split_environment.py:215-226 | A copy is registered before it is set up and stays registered when that fails; a failed or unfinished copy and the budget are refused as written |
| `CommandBroker.OutcomeTellsWhy` | benchmarks/swebench_verified/split_environment.py:328-350 | An execution without an exception reports the exit code; it exited only if no poll asked to stop it, and otherwise was stopped for the reason its outcome gives |
| `CommandBroker.SplitEnvironment.ExecuteWorker` | benchmarks/swebench_verified/split_environment.py:282-382 | One execution with every failure its control operations can have |
| `CommandBroker.SplitEnvironment.WatchProcess` | benchmarks/swebench_verified/split_environment.py:328-338 | The poll loop |
| `CommandBroker.SplitEnvironment.ChooseWorker` | benchmarks/swebench_verified/split_environment.py:282-305 | Validation, the stop flags and the choice of the worker |
| `CommandBroker.SplitEnvironment.Run` | benchmarks/swebench_verified/split_environment.py:195-203 | The serving loop |
| `CommandAnswers.StartedIff` | benchmarks/swebench_verified/split_environment.py:282-327 | In every run an execution starts its process if and only if the request is a command with a good environment, neither flag is set before it, the system can start it, and it names no review copy or one that is usable or new within the budget and set up |
| `CommandAnswers.StartedIsAnswered` | benchmarks/swebench_verified/split_environment.py:318-382 | In every run a started execution fails if and only if an operation it comes to fails; otherwise its actions and its reply are read off the first poll that has it stopped, the orders to stop and the last measure of its output |
| `CommandAnswers.NotStartedIsAnswered` | benchmarks/swebench_verified/split_environment.py:366-382 | In every run a request that starts nothing gets reply 125, spawn_failed, failed, not restored, and what is stopped instead is given in each case: the main worker, the worker of the copy, or nothing |
| `CommandAnswers.OrdinaryCommand` | benchmarks/swebench_verified/split_environment.py:282-365 | With quiet polls, no arrival and every operation working, a command is run and its worker restarted, the reply is its exit code, exited, confirmed and restored, and no flag changes but a new copy that is registered |
| `CommandAnswers.UndisturbedRun` | benchmarks/swebench_verified/split_environment.py:195-203 | When nothing arrives and every operation works, every command of every pass is executed, each with that reply, and the broker is as it was |
| `CommandAnswers.LatchBeforeIff` | benchmarks/swebench_verified/split_environment.py:282-297 | In every run the latch is set before an execution if and only if a halt or an earlier failure on the main worker has set it |
| `CommandAnswers.OrderSetsNoLatch` | benchmarks/swebench_verified/split_environment.py:384-389 | When nothing but the order to stop comes from outside, only a failure on the main worker sets the latch |
| `CommandAnswers.OrderEndsTheRun` | benchmarks/swebench_verified/split_environment.py:195-203 | The pass before which the order to stop arrives is not served, and no later one |
| `WorkspaceExport.FilterIsExact` | benchmarks/swebench_verified/split_environment.py:452-483 | An archive is accepted if and only if all its paths are safe and what is selected fits the budget; then the result is exactly the selected members, in order |
| `WorkspaceExport.ExportedMembers` | benchmarks/swebench_verified/split_environment.py:452-483 | Every exported member is a plain file, a directory or an unchanged link of the baseline, on a safe and public path, owned by root |
| `WorkspaceExport.WantedIff` | benchmarks/swebench_verified/split_environment.py:459-475 | A member on a safe path is kept if and only if its path names something, no segment of it is private or an excluded dependency, and it is a file, a directory or a link the baseline has too |
| `WorkspaceExport.UnsafeIff` | benchmarks/swebench_verified/split_environment.py:462-463 | A path is refused if and only if it begins at the root, has a segment .. or a backslash |
| `WorkspaceExport.LinksAre` | benchmarks/swebench_verified/split_environment.py:454-455 | The links of the baseline are those of its last symbolic link of each name |
| `WorkspaceExport.ExportIsStable` | benchmarks/swebench_verified/split_environment.py:452-483 | Filtering an export again changes nothing |
| `WorkspaceExport.FilterArchive` | benchmarks/swebench_verified/split_environment.py:452-483 | The filter loop with its running count and size |
| `ApprovalFlow.MemoryIsTheJournal` | src/app/approval-flow.ts:116-135 | At every await of every run the journal of the current thread recovers, to exactly the set of prefixes in memory, without repetition and within 128, and to exactly the tool grants in memory |
| `ApprovalFlow.AllowedWhereItBegan` | src/app/approval-flow.ts:52-135 | When an approval that had to ask is allowed, the app is in the thread and the mode in which that approval began, its signal is not aborted, and the decision is already in the journal |
| `ApprovalFlow.ApprovalsDoNotOutliveTheirContext` | src/app/approval-flow.ts:97-98 | The verdict of every approval that had to ask and was allowed was given in its own thread and mode, without an abort |
| `ApprovalFlow.GrantIsDurableFirst` | src/app/approval-flow.ts:119-135 | A command allowed for the thread has its decision and its grant as the last journal entries, and the grant in memory |
| `ApprovalFlow.FailedGrantChangesNothing` | src/app/approval-flow.ts:116-124 | Unless the command is allowed, an answer that would grant its prefix leaves the grants in memory as they were |
| `ApprovalFlow.EveryGrantIsDurable` | src/app/approval-flow.ts:97-135 | In every run memory gains a grant within a thread only in a step that allows the command asking for it, and in that step the journal of the thread has gained the decision and then that grant |
| `ApprovalFlow.SilentApprovalsAreGranted` | src/app/approval-flow.ts:52-68 | A command allowed without asking runs unrestricted or is covered by a grant in the journal of the thread |
| `ApprovalAnswers.CatalogCallBegins` | src/app/approval-flow.ts:148-208 | At its start a catalog call is allowed without asking if and only if it is in its thread, not aborted, its tool thread can be read, and the mode is unrestricted or a grant of the tool is an entry of that journal; it waits for the reviewer exactly when the mode is auto_approve instead, for the user when it is manual and unchanged; it throws for an unreadable journal and is denied otherwise |
| `ApprovalAnswers.KeysAreTheGrants` | src/threads/event-replay.ts:560-565 | A tool is among the recovered ones if and only if a grant of it is an entry |
| `ApprovalAnswers.CommandBegins` | src/app/approval-flow.ts:44-97 | The same for a command: allowed at once if and only if commands are unrestricted and no user is required, or a grant the journal gives back covers it or its network prefix; reviewed, asked, refused for lack of a prompt with its journal entry, or denied, in exactly the cases left |
| `ApprovalAnswers.CommandIsDecided` | src/app/approval-flow.ts:97-135 | A decision allows if and only if it is in time and journaled and either allows once or keeps a prefix that can be kept; denied, thrown, the entries and the grants in memory are given in every case |
| `ApprovalAnswers.CommandIsReviewed` | src/app/approval-flow.ts:72-97 | What a review comes to: denied when late, decided when it allows, else the user is asked or the lack of a prompt is journaled |
| `ApprovalAnswers.ToolIsDecided` | src/app/approval-flow.ts:208-230 | The same for a catalog call; the grant reaches memory, once, exactly when its thread is the current one |
| `ApprovalAnswers.ToolIsReviewed` | src/app/approval-flow.ts:172-207 | What the review of a catalog call and leaving its menu come to |
| `ApprovalAnswers.BeginPassesIff` | src/app/approval-flow.ts:44-68 | In every reachable app the request that begins is allowed without asking if and only if it may be: its thread, its signal, the mode and the journal decide |
| `ApprovalAnswers.SilentVerdictsMayPass` | src/app/approval-flow.ts:44-170 | In every run each verdict that allowed without asking was given when its request began, at a moment at which it might pass |
| `ApprovalAnswers.ValidIff` | src/command/approval.ts:161-180 | A list of prefixes is valid if and only if it has at most 128 and each has a canonical form; what is kept are these forms, each once, in the order of their first occurrences |
| `ApprovalOrder.ServedInOrder` | src/app/approval-flow.ts:43-49 | In every run the requests settled, the one that waits and the queue are the requests made, each once and in order |
| `ApprovalOrder.OutsideIsAsGiven` | src/app/approval-flow.ts:82-98 | In every run the mode is the one chosen last, and a signal is aborted if and only if it was |
| `ApprovalOrder.UserAnswerSettles` | src/app/approval-flow.ts:90-135 | The answer of the user settles the approval that waits for it with one verdict; it is allowed and denied in exactly the cases given |
| `ApprovalOrder.ReviewSettles` | src/app/approval-flow.ts:72-97 | A review that ends settles the approval that waits for it, or hands it to the user when it is still in time |
| `ApprovalOrder.FailureSettles` | src/app/approval-flow.ts:72-97 | A wait that fails ends its approval with an exception and grants nothing |
| `ApprovalOrder.SwitchIs` | src/threads/event-replay.ts:545-565 | A thread is entered with exactly the prefixes and tools its journal grants |
| `ApprovalOrder.RevokeIs` | src/app/info-commands.ts:209-229 | A revocation takes out exactly the grant with that index, once the journal has it, and otherwise changes nothing |
| `ApprovalFlow.FoldGranted` | src/threads/event-replay.ts:545-552 | Folding an accepted grant gives the same set as granting it, and a clean list |
| `ApprovalFlow.FoldRevoked` | src/threads/event-replay.ts:553-560 | Folding a revocation removes exactly the prefix |
| `ApprovalFlow.RevokeKeeps` | src/app/info-commands.ts:209-229 | A revocation keeps memory and journal together, also when the append fails |
| `ApprovalFlow.ValidatePrefixes` | src/command/approval.ts:161-180 | The validation loop; a clean list is returned as it is |
| `ApprovalFlow.Approvals.ResolveToolApproval` | src/app/approval-flow.ts:44-77 | The start of a command approval, up to its first await |
| `ApprovalFlow.Approvals.ToolApprovalReviewed` | src/app/approval-flow.ts:72-88 | What follows a review |
| `ApprovalFlow.Approvals.DecideToolApproval` | src/app/approval-flow.ts:97-135 | A decision is journaled before it counts, and a grant is journaled before it is remembered |
| `ApprovalFlow.Approvals.AuthorizeCatalogToolCall` | src/app/approval-flow.ts:148-170 | The start of a catalog tool call |
| `ApprovalFlow.Approvals.DecideCatalogToolCall` | src/app/approval-flow.ts:208-227 | The decision on a catalog tool call |
| `ApprovalFlow.Approvals.UpdatePermissions` | src/app/info-commands.ts:209-229 | The revocation as written |
| `ThreadRecords.MergeIsUnion` | src/app/thread-sessions.ts:91-105 | Saving adds every change of the workspace that is not known yet, once, after the known ones |
| `ThreadRecords.MissingIsUnknown` | src/threads/checkpoint-delta.ts:161-164 | A delta appends exactly the changes whose key is not stored, so the store then has the keys of both; it appends none if and only if all were stored |
| `ThreadRecords.TakenOverOnce` | src/app/thread-sessions.ts:77-90 | Versions taken over from the workspace stand there once for each path |
| `ThreadRecords.StoredVersionsAre` | src/threads/checkpoint-delta.ts:156-159 | Removing the paths that are not read any more and writing the others leaves the store with exactly the versions of the thread |
| `ThreadRecords.AddedIsUnion` | src/threads/checkpoint-delta.ts:32-40 | Merging changes into a list keeps the list, and has the keys of both |
| `ThreadRecords.AppendedChanges` | src/threads/checkpoint-delta.ts:161-164 | The filter as a loop |
| `ThreadRecords.MergeFileChanges` | src/threads/checkpoint-delta.ts:32-40 | The merge loop with its set of known keys |
| `ThreadRecords.RestoredReadsAreCurrent` | src/workspace/manager.ts:201-222 | A version that was read is restored only for a file that still has the hash that was read, and for each such file |
| `ThreadRecords.ReadsKeptIff` | src/workspace/manager.ts:201-222 | For a path guard that leaves alone what it has normalised, the versions come back as they were saved if and only if every file is current and no path moves |
| `ThreadRecords.RestoredAsSavedIff` | src/workspace/manager.ts:224-244 | The list of changes comes back as it was saved if and only if every path is kept and no change was saved twice |
| `ThreadRecords.KeysKeptIff` | src/workspace/manager.ts:224-244 | For such a guard, restoring loses no key of a saved change if and only if every path is kept |
| `ThreadRecords.RestoreReads` | src/workspace/manager.ts:201-222 | The loop over the saved versions, with its count of stale ones |
| `ThreadRecords.RestoreChanges` | src/workspace/manager.ts:224-244 | The loop over the saved changes |
| `ThreadSessions.StoredIs` | src/threads/checkpoint-delta.ts:214-305 | What the store makes of a delta: versions and history are replaced, no stored change goes, and the copy agrees with the thread if and only if the thread has every stored change, and the same project and primary folder |
| `ThreadSessions.SaveSettles` | src/app/thread-sessions.ts:511-516 | A save that succeeds leaves nothing to save and stores the delta; it is refused if and only if there is something to save and the write fails, the thread is unknown, its primary folder is another one or the delta has a change twice; then the store is as it was |
| `ThreadSessions.NewThreadHandsOver` | src/app/thread-sessions.ts:298-354 | Whatever fails, either the new thread is entered with exactly its lease, or state, workspace and lease are as they were; then the app holds one lease unless it had taken the new one and could not give it back |
| `ThreadCommits.NewThreadCommitsIff` | src/app/thread-sessions.ts:298-354 | A new thread is entered if and only if the old one is saved, its work stops and is saved, the name is new and not leased, and no step up to the release of the old lease fails; otherwise the call throws |
| `ThreadSessions.NewThreadIsEmpty` | src/app/thread-sessions.ts:305-318 | A new thread that is entered has no history and has read and changed nothing, in memory, in its workspace and in the store; project and model are those of the thread that was left, the folder is the primary one of today |
| `ThreadSessions.NewThreadForgets` | src/app/thread-sessions.ts:305-318 | Two apps that differ only in the history and record of their thread enter equal new threads |
| `ThreadSessions.EmptyThreadIsLeftIff` | src/app/thread-sessions.ts:302-340 | A thread that is not entered stays in the store if and only if it was created and its lease was refused, or the clean-up failed |
| `ThreadSessions.RefusedLeaseLeavesTheThread` | src/app/thread-sessions.ts:302-319 | With a save that succeeds and nothing failing but the lease of the new thread, the call throws and the new thread stays in the store |
| `ThreadSessions.NewThreadFilesTheOldOne` | src/app/thread-sessions.ts:298-354 | The thread left for a new one is stored as it was when its child agents were stopped; that is all it has recorded if and only if stopping its commands records no new version and no unknown change |
| `ThreadSessions.LateChangeIsLost` | src/app/thread-sessions.ts:320-323 | With nothing failing and no save refused, an unknown change recorded while the commands are stopped is missing from the stored thread |
| `ThreadSessions.ResumeHandsOver` | src/app/thread-sessions.ts:356-502 | The same for resuming a saved thread |
| `ThreadCommits.ResumeCommitsIff` | src/app/thread-sessions.ts:356-502 | A thread is resumed if and only if it is another thread of the project that no one has leased, the old one is saved, stops and is saved again, and no step up to the release of the old lease fails; resuming the current thread only saves it |
| `ThreadSessions.ResumedThreadIs` | src/app/thread-sessions.ts:394-421 | A resumed thread has the stored project and history, repaired where needed, the stored model or its fallback, and the folders of today; its workspace has its record, and the store has its model and history unless the call threw |
| `ThreadCommits.ResumeSavesUnlessItThrows` | src/app/thread-sessions.ts:474-502 | A resume that entered its thread and did not throw has nothing left to save; a failure after the hand-over throws |
| `ThreadCommits.NewThreadLeavesPausedIff` | src/app/thread-sessions.ts:319-346 | A new thread that fails leaves the child agents stopped if and only if it had stopped them and re-arming fails |
| `ThreadCommits.ResumeLeavesPausedIff` | src/app/thread-sessions.ts:444-473 | The same for a resume |
| `ThreadCommits.HandedChangesAreKept` | src/app/subagent-host.ts:766-828 | The changes child agents hand over while they are stopped are known to the thread and to the store, whatever fails, and there is something to save |
| `ThreadCommits.FoldersAreChanged` | src/app/thread-sessions.ts:202-239 | Other folders are opened with the record of the thread restored into them, or nothing changes; the call throws if and only if the opening or the save fails |
| `ThreadCommits.WithoutLeaseNothingOpens` | src/app/thread-sessions.ts:298-304 | Without a lease a save is all that a call does |
| `ThreadSessions.ResumeFilesTheOldOne` | src/app/thread-sessions.ts:444-450 | The thread left for a saved one is stored with all it has recorded until its commands were stopped |
| `ThreadSessions.ResumedIsFiledIff` | src/app/thread-sessions.ts:402-428 | A resumed thread has the restored record of its stored copy; with nothing left to save it equals that copy if and only if restoring lost no stored change and, unless there was something to save, kept the primary folder and what was read |
| `ThreadSessions.KeptIff` | src/app/thread-sessions.ts:402-428 | For a path guard that leaves alone what it has normalised, that is: no path of a change moves or is refused, and, unless there was something to save, the primary folder is the same and no path that was read moves |
| `ThreadSessions.MovedChangeIsStoredTwice` | src/app/thread-sessions.ts:422-429 | A stored change whose path the folders of today name otherwise: after a resume in which nothing fails the thread has it under the new name alone, the store under both, and nothing is left to save |
| `ThreadSessions.OneLeaseAlways` | src/app/thread-sessions.ts:298-502 | At the end of every call of every run the app holds exactly the lease of the thread it shows, whatever fails besides giving back a lease |
| `ThreadSessions.FiledAlwaysIff` | src/app/thread-sessions.ts:298-516 | Whatever fails, at the end of every call of a run a thread without unsaved work is stored as it is and the store has no change that the thread lacks, if and only if restoring kept the stored copy of each thread that was resumed |
| `ThreadSessions.StoredChangesStay` | src/threads/checkpoint-delta.ts:256-264 | In every run, whatever fails, no stored thread and none of its stored changes is ever lost |
| `ThreadSessions.PrimaryFolderTraps` | src/threads/checkpoint-delta.ts:77-91 | A thread with unsaved work whose primary folder is another one than its stored copy's is neither saved nor left by any run of calls in which the folders do not change again |
| `ThreadSessions.AnotherPrimaryTraps` | src/app/thread-sessions.ts:202-239 | Changing the primary folder brings the current thread there: the save it ends with is refused |
| `ThreadSessions.AppThreadSessions.SyncWorkspaceState` | src/app/thread-sessions.ts:77-106 | The synchronisation loop |
| `ThreadSessions.AppThreadSessions.StoreDelta` | src/threads/thread-store.ts:292-352 | Writing a thread as a delta: refused or stored as specified |
| `ThreadSessions.AppThreadSessions.CollectChanges` | src/app/subagent-host.ts:766-828 | The changes of a child agent are stored by an event and taken over by the thread |
| `ThreadSessions.AppThreadSessions.OpenThread` | src/app/thread-sessions.ts:298-354 | Opening a new thread as written |
| `ThreadSessions.AppThreadSessions.RecoverThread` | src/app/thread-sessions.ts:394-429 | The stored thread is restored into the folders of today, and whether it has something to save is computed from what that changed |
| `ThreadSessions.AppThreadSessions.OpenSaved` | src/app/thread-sessions.ts:356-502 | Resuming a thread as written |
| `ThreadSessions.AppThreadSessions.ReplaceProjectWorkspace` | src/app/thread-sessions.ts:202-239 | Changing the folders under the current thread as written |
| `ThreadRecovery.RepairAnswersEveryCallOnce` | src/app/thread-recovery.ts:39-95 | After a repair every call of the last message with calls is answered after it, no call answered before is answered again, and a second repair changes nothing |
| `ThreadRecovery.RepairAcceptedIff` | src/threads/event-replay.ts:88-163 | The store accepts the repair if and only if both agree whether the final answer is durable |
| `ThreadRecovery.AcceptedAreTheRepairs` | src/threads/event-replay.ts:88-163 | The store accepts exactly the recovery events of the active turn whose answers and closing message are those of the repair |
| `ThreadRecovery.RepairRefusedIff` | src/threads/thread-store.ts:1212-1237 | The repair of a replayed session is refused if and only if a message that closes nothing follows the settled final answer of the turn, or the last message closes the turn although the newest decisive event of the turn is not such an answer |
| `ThreadRecovery.DurableFinalIff` | src/threads/thread-store.ts:1212-1237 | The final answer of a turn is durable if and only if the journal holds a settled event with just that answer and, behind it, nothing of the turn but the kinds the search passes over |
| `ThreadRecovery.EventAfterTheAnswerIsRefused` | src/threads/thread-store.ts:1225-1227 | A final answer followed by one more event of its turn makes the repair throw |
| `ThreadRecovery.HasDurableFinalAssistant` | src/threads/thread-store.ts:1212-1237 | The backward search finds whether the newest decisive event of the turn is its settled final answer |
| `ThreadRecovery.ReplayAgreesIff` | src/threads/event-replay.ts:462-485 | The recovery event holds exactly the messages added in memory, and replaying it gives the repaired session if and only if no two equal unanswered calls follow each other |
| `ThreadRecovery.EqualCallsLoseAnAnswer` | src/threads/event-replay.ts:52-59 | With two equal unanswered calls the repaired session has both answers and its replay has one |
| `ThreadRecovery.ReplayIsAppendIff` | src/threads/event-replay.ts:52-59 | Replay appends messages as they are if and only if none repeats the one before it |
| `ThreadRecovery.RepairInterruptedTurn` | src/app/thread-recovery.ts:39-95 | The repair as written, scanning from the newest message |
| `OrphanedTasks.ReleaseSettlesExactlyTheOrphans` | src/app/thread-recovery.ts:98-170 | The loop settles exactly the orphans, returns their initial number, leaves none, touches no other task, and the last event carries the graph in memory |
| `OrphanedTasks.CompletedOnlyByReport` | src/app/thread-recovery.ts:123-136 | A task is completed only by a durable report that answers every check in order, with no committed stop, and takes its evidence |
| `OrphanedTasks.FailureKeepsMemoryAndJournalTogether` | src/app/thread-recovery.ts:146-168 | When an operation or an append fails, each task is as it was or settled, and the last event carries the graph in memory |
| `OrphanedTasks.AppliesToTheOrphan` | src/tasks/task-graph.ts:726-792 | An operation that is accepted changes exactly the orphan it was made for, and settles it |
| `OrphanedTasks.OrphanIsSettledIff` | src/tasks/task-graph.ts:726-792 | The first orphan is settled if and only if no earlier task has its id, what it delivers has evidence within the limit and an artifact that is ready and its own, and the graph accepts the result |
| `OrphanedTasks.ReleaseFailsIff` | src/app/thread-recovery.ts:98-170 | The loop fails if and only if some orphan, those before it settled, cannot be settled or comes when the journal stores no more; the ones before the first such orphan are settled and counted |
| `OrphanedTasks.TaskIsReleasedIff` | src/app/thread-recovery.ts:98-122 | When nothing fails a task changes if and only if a child agent holds it, in progress, and was told to stop or is not bound to a session that can be resumed |
| `OrphanedTasks.ReleaseOrphanedSubagentTasks` | src/app/thread-recovery.ts:98-170 | The loop as written, with the number of orphans as its measure |
| `TurnChanges.SummaryMatchesTheFiles` | src/app/turn-changes.ts:154-197 | For every well-formed history the summary lists exactly the touched paths that exist before or after and resolve, each once, in first-touched order, with the verdict of comparing before and after; all diffs together keep the turn budget |
| `TurnChanges.FilesAreRight` | src/app/turn-changes.ts:173-196 | Each listed file has the counts of its net change and a diff that is a prefix of its lines within the file limit; a diff is missing only when the budget is used up |
| `TurnChanges.TrimKeepsAPrefix` | src/app/turn-changes.ts:112-130 | A trimmed diff keeps a prefix of the lines, as many as the limits allow, and is flagged when lines were dropped; for hunks that all have lines, only then |
| `TurnChanges.CountsUnlessACommandWrote` | src/app/turn-changes.ts:160-194 | A listed file has the counts of its net change exactly when that is known and no command wrote to it, and then a diff too unless the diffs use up the budget |
| `TurnChanges.DiffWhileRoomIsLeft` | src/app/turn-changes.ts:171-196 | A file whose changes are counted has a diff if and only if the diffs before it leave some of the budget |
| `TurnChanges.CutIs` | src/app/turn-changes.ts:121-123 | A line of up to 400 units is kept; of a longer one the characters that fit into 400, and a mark |
| `TurnChanges.TallyKnowsExistence` | src/app/turn-changes.ts:133-139 | For every well-formed history the first change of a path creates it if and only if it did not exist, and the last deletes it if and only if it does not exist |
| `TurnChanges.TextsSpanTheRequest` | src/app/turn-changes.ts:47-67 | Each edited file keeps the content before its first edit and after its last one |
| `TurnChanges.TrimHunks` | src/app/turn-changes.ts:112-130 | The trimming loop |
| `TurnChanges.TurnFiles` | src/app/turn-changes.ts:154-197 | The tally loop and the summary |
| `TurnChanges.ListFiles` | src/app/turn-changes.ts:171-196 | The listing loop with its shared budget |
| `TurnChanges.TurnFileText.RecordEdit` | src/app/turn-changes.ts:54-59 | An edit keeps the first text and takes the latest one |
| `QuotedArguments.PrintedArgumentsParse` | src/app/text.ts:36-57 | Parsing what a quoting printer gives returns the arguments that are not empty |
| `QuotedArguments.ParsedListsAreTheNonEmptyOnes` | src/app/text.ts:36-57 | A list of arguments can be given if and only if none of them is empty |
| `QuotedArguments.DoubleQuotedParsesIff` | src/app/text.ts:42-46 | A nonempty argument in double quotes, with its double quotes escaped, parses to itself if and only if it does not end in a backslash |
| `QuotedArguments.JoinedInputsParse` | src/app/text.ts:36-57 | Inputs with closed quotes, joined by white space, parse to the joined lists |
| `QuotedArguments.UnquotedInputIsKept` | src/app/text.ts:36-57 | Without quotes nothing fails and nothing but white space is lost |
| `QuotedArguments.ParseQuotedArguments` | src/app/text.ts:36-57 | The parser loop |
| `MenuSelection.IndexIsTheSumOfMoves` | src/cli/menu-selector.ts:300-303 | Over every run the row is the clamped initial row plus all moves asked for by keys and by the host, around the number of rows |
| `MenuSelection.SettlesOnce` | src/cli/menu-selector.ts:233-268 | The selection settles at most once, with one cleanup, and nothing after that changes it |
| `MenuSelection.DeliveredOnlyAfterReview` | src/cli/menu-selector.ts:270-319 | A row is delivered only from a drawn menu when confirming is allowed: the row shown, on input, or the agreed one at an idle timeout with no escape sequence pending |
| `MenuSelection.ChunksDoNotMatterIff` | src/cli/menu-selector.ts:379-430 | Input may be cut anywhere if and only if the menu is visible, or no Enter swallows the rest of its chunk |
| `MenuSelection.HiddenEnterSwallowsAnArrow` | src/cli/menu-selector.ts:379-430 | In a hidden menu of two rows or more, an Enter and an arrow move nothing in one chunk and one row in two |
| `MenuSelection.ArrowsMove` | src/cli/menu-selector.ts:321-335 | An arrow moves in every encoding and with every modifier, as a press or a repeat; its release never does |
| `MenuSelection.KittyKeysAct` | src/cli/menu-selector.ts:341-357 | A key of the kitty protocol acts by its code, alone or with a modifier as a press or a repeat; its release never does |
| `MenuKeys.SequencesMean` | src/cli/menu-selector.ts:321-364 | Each sequence the menu understands, given by its characters, means what its table says: arrows, application keys, kitty keys with alternates, modifiers, events and text, and a modified Enter |
| `MenuKeys.OnlySequencesMean` | src/cli/menu-selector.ts:444-502 | Nothing else means anything: every sequence that asks for something is one of these |
| `MenuKeys.SequenceIsObeyed` | src/cli/menu-selector.ts:379-430 | An open menu that waits for no other sequence obeys a whole one: it moves, confirms when it is visible, or cancels |
| `MenuKeys.EndlessSequenceCancels` | src/cli/menu-selector.ts:406-412 | Parameters that go on for more than 64 characters cancel the selection |
| `MenuKeys.OpenMenuIs` | src/cli/menu-selector.ts:130-214 | In every run an open menu is visible once the host needs no confirmation or has given it, and its idle timer is then armed exactly for an agreed row |
| `MenuKeys.EventActs` | src/cli/menu-selector.ts:263-319 | What each event does to the open menu of any run, in every case |
| `MenuKeys.ClampIs` | src/cli/menu-selector.ts:130-137 | The first row is the one asked for, or the nearest there is |
| `MenuKeys.ValueOfDecimal` | src/cli/menu-selector.ts:494-502 | The digits of a number are read as that number |
| `MenuSelection.MenuSelector.constructor` | src/cli/menu-selector.ts:130-214 | The selector starts at the clamped row, hidden until the host is ready |
| `MenuSelection.MenuSelector.ReceiveData` | src/cli/menu-selector.ts:379-430 | The character loop of the escape parser |
| `MenuSelection.MenuSelector.HandleSequence` | src/cli/menu-selector.ts:321-364 | What a whole control sequence does |
| `MenuSelection.MenuSelector.Receive` | src/cli/menu-selector.ts:263-319 | Every event of an open selection |

## Left out

- InputProxy.ScanIgnoresCutsIff: the short window after a modal closes in which leading controls are discarded is taken to be off.
- PromptArrivals.PromptChunkIndependenceIsExact: no clipboard read ends and no timer fires between the chunks, and every Enter is taken as a line; a line feed right behind a carriage return is not one of its own to readline. What is compared is the order of questions and output; the draft they meet is the editor's.
- PromptArrivals.BackspaceOvertakesThePaste: the editor is a draft with its caret at the end and one marker.
- PromptLines.EnterWaitsForCaptures: a clipboard read begins and ends as separate events; its content, its failure and the placeholder it shows are not modelled. Whether readline makes a line of an Enter is open in every step; what a step emits is taken by the editor before the next step.
- InputProxy.ImagePasteInputProxy.Process: a Backspace byte becomes a question to the editor; whether the editor then takes out a marker or passes the byte on is the editor's part, and it is asked before it gets what its chunk has brought (`PromptArrivals`); the Thinking view it opens is not awaited.
- PasteMarkers.ExpansionIsTheMeaning: text is a sequence of Unicode scalar values, so lone surrogates do not occur; normalising and sanitising a paste come before the registry.
- PasteMarkers.MarkerRegistry.ConsumeSubmission: images and paste errors of the draft are left out.
- PasteMarkers.MarkerRegistry.PastedTextForPrompt: the random nonce is a parameter, distinct from those in use, and the text is given with its line ends normalised and its controls stripped.
- PromptEditing.RunKeepsInv: readline's own editing is an arbitrary new line and caret; geometry, colours, completion and the rows below the prompt are left out.
- CheckpointStore.RestoreAfterAnyRun: a trial directory that already holds local data, and copying into it, which is not crash-safe by design, are left out; file contents are hashed by an injective function and a rename is one step.
- CheckpointStore.Store.PersistCheckpoint: a data directory that is missing, for which the persist is skipped too, discovery of the thread, metrics, file modes, and symbolic links and special files with their refusal are not part of the directories that are modelled.
- ChoiceEncoder.MasksAreTheMarkers: the tokenizer is any function that is sound about the mask word; truncation is a prefix of its result.
- ChoiceEncoder.TrimToModel: inference, probabilities and the transport limits around the call are left out.
- InputPacking.PackInputs: the fifth array, which is all zeros, is left out.
- StreamRenderer.RunOk: streaming into the document is on and the host is open; Thinking entries, tool-argument progress, dropping all streams on reset, and terminals without a document are left out. Entry names are structured values, so names that collide as text do not occur.
- StreamRenderer.ModelStreamRenderer.SettleFinishedBlocks: the Thinking entry that is settled first is left out.
- StreamRenderer.ModelStreamRenderer.Flush: buffered reasoning and tool-argument progress are left out.
- StreamRenderer.ModelStreamRenderer.ApplyInterrupted: the Thinking entry of an interrupted stream is left out.
- StreamRenderer.ModelStreamRenderer.OnEvent: reasoning events and tool-argument progress are left out.
- StreamRenderer.NoTextLostOrRewritten: all that is assumed of the Markdown lexer is that the settled length is that of a prefix.
- CommandBroker.RepliesAreTruthful: container setup and removal, killing the local client process and the contents of the output files are left out.
- CommandBroker.SplitEnvironment.ExecuteWorker: a polled process, its limits and every control operation are oracles of one execution; the order to stop, and stop_worker running to its end, can happen at each await.
- CommandBroker.SplitEnvironment.ReviewWorkerFor: the steps of a set-up succeed or fail as one; that it inspects, commits and copies out of the main worker is not among the actions of the model.
- WorkspaceExport.FilterArchive: archives are sequences of members; reading and writing the tar format is left out.
- ApprovalFlow.MemoryIsTheJournal: permission requests of review agents, which record their grants in a thread of their own, and tools authorised by another authority are left out; the canonical form of a prefix is any function that is stable on its results. Memory and journal agree as sets, since a repeated grant moves to the end of the journal's list only.
- ApprovalFlow.AllowedWhereItBegan: a thread or mode that changes and changes back while an approval waits is not noticed by the source either.
- ApprovalFlow.Approvals.AuthorizeCatalogToolCall: tools bound to another authority are left out.
- ApprovalFlow.Approvals.UpdatePermissions: the assertion that no command runs and the usage errors are left out.
- ThreadRecords.RestoredAsSavedIff: what the path guard makes of a path, which paths lie in missing folders and what files hash to are arbitrary finite maps; keys are tuples, not texts joined by a bar. A version's path is the one it is filed under.
- ThreadSessions.NewThreadHandsOver: a step that fails is taken to have no effect; the list of folders, the configuration, command audits, time stamps and the terminal view are left out.
- ThreadSessions.SaveSettles: the checks of a delta on message history, goal and compaction, which can refuse it too, are among the failing steps; the history is stored as it is.
- ThreadSessions.FiledAlwaysIff: two lists of changes are the same when the store knows them by the same keys, so their order, source and status are not compared; what a turn journals besides the changes of child agents is left out.
- ThreadSessions.AppThreadSessions.OpenSaved: whether the saved model is available is a parameter; the repairs are those of `ThreadRecovery` and `OrphanedTasks`, here with the same effect on the thread and on its stored copy (where `ThreadRecovery.ReplayAgreesIff` says that they differ, the last save is refused, which is one of the failing steps); the summary of the resume is left out.
- ThreadSessions.AppThreadSessions.CollectChanges: it is not modelled that the version of a changed file is forgotten; what the workspace has recorded afterwards is arbitrary.
- ThreadSessions.OneLeaseAlways: a second failure while giving the next lease back leaves two leases, as the lemmas on one call state exactly.
- ThreadRecovery.RepairAcceptedIff: the check of a returned plan review against the journal is left out, as are token counts and time stamps.
- ThreadRecovery.RepairRefusedIff: an event is its turn, its kind and the messages its replay appends; the rest of the replay is left out.
- OrphanedTasks.AppliesToTheOrphan: the checks on the whole graph and on its text are one arbitrary acceptance test; the derived graph status and claims of new tasks are left out.
- TurnChanges.FilesAreRight: a line cut inside a surrogate pair loses the whole character.
- StreamRenderer.PreviewHoldsTheLastToken: the preview limit counts scalar values, not UTF-16 units.
- TurnChanges.SummaryMatchesTheFiles: which paths are hidden or resolve, and the diff of two texts, are arbitrary functions.
- MenuSelection.DeliveredOnlyAfterReview: drawing a frame either works or fails; labels, colours, raw mode and the flow state of the terminal are left out, and a timer that fires is an event.
- Docker, archives, subprocesses, databases, the network, model inference, translations and editor host APIs are not part of this model.
- Command-line parsing, credential staging and doctor checks would only add easy members.
