# Verification of jaca's stateful algorithms

Dafny models of the algorithms in jaca that keep state over many steps, each
with proofs of what every step, or every run, keeps.

`dafny verify dfyconfig.toml` checks the project.

## What is modelled

- **Transcript** (`TranscriptSpec`, `TranscriptCache`, `TranscriptHistory`). `TranscriptSpec` says
  what a transcript means: blocks, the live answer, the tool group, completed
  runs and the omission marker, with every operation a function and rendering
  always from scratch. `TranscriptCache.Transcript` is the object the program
  keeps, with its render cache, offsets, dirty mark and cached cell renders.
  Each method is proved to do what the specification says and to leave a cache
  from which `Render` returns the full render. All styling is one uninterpreted
  record of functions, `Look`.
  `TranscriptHistory` says what a reader finds in the blocks: the conversation,
  and the block each operation leaves.
- **Follow-up queues** (`FollowUpSpec`, `FollowUpState`). One session as a
  state machine with its outgoing messages, and the object holding the
  dictionaries of all sessions, in which every session is proved to be where
  the run of its own steps leaves it.
- **Envelope router** (`Router`, `RouterClient`). The dispatcher, callers and
  shutdown as interleaved steps over bounded channels, and the client object
  whose uninterrupted sections are those steps. Lookup and send are two steps,
  as in the code, and so are failing the client and telling each waiter.
- **Paged reader** (`PagedReader`). Newlines, lines, the window and the offsets
  by which a client walks a file.
- **Error chain** (`ErrorChain`). The search of a possibly cyclic graph of errors.
- **Word wrapping** (`TextWrap`). Tokens, hanging indent, and what survives.
- **Paste placeholders** (`PasteStore`). Labels, expansion and pruning.
- **Approvals** (`Approvals`). Grant flattening and decision normalization.
- **MCP names** (`McpNames`). Making and parsing tool names.
- **Onboarding attempts** (`OnboardingSpec`, `Onboarding`). The table with its
  unique index, as transactions that may interleave, and the object.

`Common` and `Decimal` hold shared values, string functions and numerals.

## Where a promise does not hold

Each of these is a lemma with the exact condition or a concrete case.

- A startup banner written over a live answer would leave it behind the last
  block. The program writes its banner first, where this cannot happen
  (`TranscriptSpec.LiveStaysLast`, `TranscriptSpec.BannerFirstKeepsLast`).
- The text a stream has committed is not always a fresh rendering of its
  complete lines (`TranscriptSpec.CommitIsRerender`).
- Asking for a gap twice, as compaction notes do, adds a second empty line
  behind a block that ends in one newline (`TranscriptSpec.GapTwice`).
- An answer without streaming gets no gap before it, so it can stand elsewhere
  than the same answer streamed (`TranscriptHistory.StreamedOrNot`).
- A waiter's cleanup between the dispatcher's lookup and its send makes the
  send panic; this is the only way a closed channel is ever used
  (`Router.CrashIffOvertaken`, `Router.CleanupCanOvertakeSend`).
- A walk over a file completes if and only if every page can take a line
  (`PagedReader.WalkReconstructs`).
- A wrapped line is too wide when the indent, or a word that is not dropped,
  does not fit (`TextWrap.WrapLineFits`).
- A paste that quotes another paste's label makes expansion depend on map order
  and on pruning; exactly such contents do (`PasteStore.ExpansionExact`,
  `PasteStore.QuotedPasteDisagrees`).
- A made MCP name does not parse when the server's name ends in an underscore
  (`McpNames.ParseMade`).
- Normalizing a decision twice differs when grants were filled in beside
  options, or when option ids repeat, which the request validator allows for
  requests without permissions (`Approvals.NormalizeTwice`,
  `Approvals.RepeatedIdRefusedTheSecondTime`).
- Of two simultaneous onboarding starts one can fail on the unique index
  (`OnboardingSpec.SecondStartIsRefused`). Of two overlapping submits both can
  be told they answered, with one answer on record
  (`OnboardingSpec.OverlappingAnswersBothReported`).

## Model

| member | source | states |
|---|---|---|
| TranscriptCache.Replay | internal/jaca/app/transcript.go:118-165 | Over any sequence of operations, width changes, ticks and repaints, the frames the cached transcript paints are exactly the frames of a transcript rendered from scratch each time |
| TranscriptCache.Transcript.Render | internal/jaca/app/transcript.go:118-165 | Whatever was cached, up to whichever block it is clean and for whichever width it was made, the result is the full render at the current width; every offset it slices at is in range |
| TranscriptCache.Transcript.RenderBlocks | internal/jaca/app/transcript.go:139-157 | From a cached prefix on, rendering the remaining blocks gives the text of all blocks and an offset for each that ends exactly the blocks before it |
| TranscriptCache.CacheSurvives | internal/jaca/app/transcript.go:185-197 | A cache stays right up to the first block that differs |
| TranscriptCache.CutCache | internal/jaca/app/transcript.go:129-137 | Cutting the cached text at a clean offset gives exactly the text of the blocks before it, and keeps their offsets right |
| TranscriptCache.RenderedFits | internal/jaca/app/transcript.go:51-72 | A cell with a cached render shows the text a cell without one shows, at every width: eviction never changes a result |
| TranscriptCache.Transcript.DiscardImmutableRenderedBlocks | internal/jaca/app/transcript.go:167-176 | Every assistant cell but the live one loses its cached render, and the cache still equals the full render |
| TranscriptCache.Transcript.AppendBlock | internal/jaca/app/transcript.go:178-183 | The block is added at the end, everything before it stays cached |
| TranscriptCache.Transcript.ReplaceBlock | internal/jaca/app/transcript.go:185-188 | One block is replaced; the cache is trusted no further than it |
| TranscriptCache.Transcript.InsertBlock | internal/jaca/app/transcript.go:609-620 | One block is inserted, the rest keep their order; the cache is trusted no further than it |
| TranscriptCache.Transcript.MarkDirty | internal/jaca/app/transcript.go:190-197 | The mark moves to the earlier of the two blocks, so a cache that was right up to the changed block is right wherever it is still trusted |
| TranscriptCache.Transcript.InvalidateRenderCache | internal/jaca/app/transcript.go:622-626 | With no offset left to trust, the cache is right whatever has become of the blocks |
| TranscriptSpec.InsertBeforeRun | internal/jaca/app/transcript.go:309-317 | An insertion before the open run keeps all tracked indexes right: completed runs stay, the open run moves by one, the live answer stays last |
| TranscriptSpec.InsertionKeepsBlocks | internal/jaca/app/transcript.go:643-656 | After an insertion every run still covers the same blocks, and the open run and live answer still point at theirs, wherever it does not fall inside the run |
| TranscriptSpec.Add | internal/jaca/app/transcript.go:178-183 | A block behind all others disturbs no index, and the bookkeeping invariant stays |
| TranscriptCache.Transcript.AdjustTrackedIndexesAfterInsertion | internal/jaca/app/transcript.go:643-656 | The loop over the runs and the live and open-run indexes does what the specification says |
| TranscriptCache.Transcript.AdjustTrackedIndexesAfterRemoval | internal/jaca/app/transcript.go:628-641 | Live, open-run and omission indexes move down by the removed length |
| TranscriptSpec.Finalize | internal/jaca/app/transcript.go:558-573 | Closing the open run keeps the bookkeeping invariant, leaves no run open, and adds exactly one to retained plus omitted runs if one was open |
| TranscriptSpec.TrimRemovesOldest | internal/jaca/app/transcript.go:575-607 | An eleventh run closing removes exactly the oldest run's blocks; every other block but the single omission marker keeps identity and order, and the marker counts one more |
| TranscriptSpec.TrimKeepsRetained | internal/jaca/app/transcript.go:575-607 | Each retained run's interval still holds that run's blocks, and the new run's interval is the last |
| TranscriptSpec.ShortHistoryKeepsBlocks | internal/jaca/app/transcript.go:558-577 | With fewer than ten retained runs closing a run removes nothing |
| TranscriptSpec.TrimKeepsIndexes | internal/jaca/app/transcript.go:575-607 | Trimming eleven runs gives back the invariant: ten runs, ordered, disjoint, non-empty, inside the blocks, behind the omission marker |
| TranscriptSpec.RunsAreCounted | internal/jaca/app/transcript.go:558-607 | Over any run of operations, retained plus omitted runs is the number of runs ever finalised |
| TranscriptSpec.LiveStaysLast | internal/jaca/app/transcript.go:199-242 | The live answer is the last block throughout a run of operations exactly when no banner is written while one is live |
| TranscriptSpec.BannerFirstKeepsLast | internal/jaca/app/model.go:237 | With the banner as first entry only, as the program writes it, the live answer is last throughout |
| TranscriptSpec.BannerOverLiveAnswer | internal/jaca/app/transcript.go:199-242 | The call that would leave it behind: a banner right after a delta |
| TranscriptSpec.WriteBanner | internal/jaca/app/transcript.go:199-242 | The one writer that closes nothing: the live answer stays last exactly when there is none |
| TranscriptSpec.RunOps | internal/jaca/app/transcript.go:295-815 | Every reachable transcript satisfies the bookkeeping invariant; in it a live answer is a raw cell, its text is the delta buffer, and no tool group is active |
| TranscriptSpec.Step | internal/jaca/app/transcript.go:295-815 | Each operation keeps the invariant, and breaks live-is-last exactly when it is a banner over a live answer |
| TranscriptCache.ClosingGroupShowsSame | internal/jaca/app/transcript.go:805-815 | Closing the tool group turns it into a block without changing what is shown, at any width |
| TranscriptSpec.EndToolGroup | internal/jaca/app/transcript.go:805-815 | An active group becomes exactly one block behind the others; nothing else changes |
| TranscriptSpec.EndLive | internal/jaca/app/transcript.go:542-556 | The live cell becomes, in place, the finished answer of the accumulated text; no other block and no index changes |
| TranscriptSpec.AppendDelta | internal/jaca/app/transcript.go:496-517 | The accumulated text grows by the delta or starts with it, and stays the last block if it was |
| TranscriptSpec.Tick | internal/jaca/app/transcript.go:734-741 | A motion tick changes at most how the live cell is rendered: every other block and the live text stay |
| TranscriptSpec.StartTool | internal/jaca/app/transcript.go:758-773 | Ends the live answer and leaves a group active; runs and open run stay |
| TranscriptSpec.FinishAssistant | internal/jaca/app/transcript.go:524-540 | Keeps the invariant and the runs, with nothing live or grouped afterwards; where the answer stands is `TranscriptHistory.AnswerPlaced` |
| TranscriptSpec.StreamIsOneBlock | internal/jaca/app/transcript.go:496-517 | An answer streamed in any pieces is one live block behind everything else, and its text is the pieces joined |
| TranscriptSpec.StreamingLeavesNoTrace | internal/jaca/app/transcript.go:496-556 | Finishing a streamed answer leaves exactly the finished answer where the stream stood, and ending it early keeps the streamed text |
| TranscriptSpec.GapSeparates | internal/jaca/app/transcript.go:743-756 | Behind a gap the plain text so far ends in a blank line |
| TranscriptSpec.GapTwice | internal/jaca/app/transcript.go:743-756 | A second gap adds nothing, except exactly behind a text ending in a single newline |
| TranscriptSpec.CompleteRun | internal/jaca/app/runsummary.go:14-18 | Answer, separator and close: no run open afterwards, and one more run counted if one was open |
| TranscriptSpec.WriteError | internal/jaca/app/transcript.go:409-414 | An error closes the run it ends and is counted |
| TranscriptSpec.FailRun | internal/jaca/app/transcript.go:485-493 | A failed or cancelled run is closed and counted |
| TranscriptSpec.ApplyEvent | internal/jaca/app/transcript.go:462-494 | Every run event keeps the invariant; only the two that end a run change the count of runs |
| TranscriptSpec.CommitIsRerender | internal/jaca/app/markdown.go:147-162 | The committed text is a fresh rendering of the complete lines exactly when that has more lines than the text before, or is that text |
| TranscriptCache.Transcript.WriteNote | internal/jaca/app/transcript.go:295-300 | The object does what the specified operation does and its cache stays right |
| TranscriptCache.Transcript.WriteUserTurn | internal/jaca/app/transcript.go:319-327 | Same, for a user turn, which opens a run unless one is open |
| TranscriptCache.Transcript.WriteLine | internal/jaca/app/transcript.go:403-407 | Same, for a plain line |
| TranscriptCache.Transcript.WriteError | internal/jaca/app/transcript.go:409-414 | Same, for an error, closing the run |
| TranscriptCache.Transcript.WriteActivityPreview | internal/jaca/app/runsummary.go:20-29 | Same, for an activity line; blank text does nothing |
| TranscriptCache.Transcript.WriteRunSeparator | internal/jaca/app/runsummary.go:31-38 | Same, for the summary line; an empty one does nothing |
| TranscriptCache.Transcript.InsertNoteBeforeCurrentRun | internal/jaca/app/transcript.go:309-317 | Same, for a note placed before the open run |
| TranscriptCache.Transcript.EndToolGroup | internal/jaca/app/transcript.go:805-815 | Same, for closing the tool group |
| TranscriptCache.Transcript.EndLiveAssistant | internal/jaca/app/transcript.go:542-556 | Same, for closing the live answer |
| TranscriptCache.Transcript.EnsureBlockGap | internal/jaca/app/transcript.go:743-756 | Same, for the blank gap before a block |
| TranscriptCache.Transcript.AppendAssistantDelta | internal/jaca/app/transcript.go:496-517 | Same, for a streamed delta |
| TranscriptCache.Transcript.RebuildLiveAssistantRendered | internal/jaca/app/transcript.go:708-732 | Same, for re-rendering the live cell |
| TranscriptCache.Transcript.RefreshLiveMarker | internal/jaca/app/transcript.go:734-741 | Same, for the motion marker |
| TranscriptCache.Transcript.SetMotionTick | internal/jaca/app/model.go:342-350 | Same, for a tick followed by its refresh: without the refresh a clean cache could show an old marker |
| TranscriptCache.Transcript.StartTool | internal/jaca/app/transcript.go:758-773 | Same, for a tool call starting, joining the group of its phase or opening one |
| TranscriptCache.Transcript.StepTool | internal/jaca/app/transcript.go:775-803 | Same, for an update, success or failure; unknown calls are ignored |
| TranscriptCache.Transcript.FinishAssistant | internal/jaca/app/transcript.go:524-540 | Same, for the finished answer |
| TranscriptCache.Transcript.FinalizeCurrentRun | internal/jaca/app/transcript.go:558-573 | Same, for closing a run |
| TranscriptCache.Transcript.TrimCompletedRuns | internal/jaca/app/transcript.go:575-607 | Same, for trimming |
| TranscriptCache.Transcript.CompleteAssistant | internal/jaca/app/transcript.go:519-522 | Same, for an answer that closes its run |
| TranscriptCache.Transcript.CompleteRunSucceeded | internal/jaca/app/runsummary.go:14-18 | Same, for a successful run |
| TranscriptCache.Transcript.FailCurrentRun | internal/jaca/app/transcript.go:485-493 | Same, for a failed run; cancellation writes no error |
| TranscriptCache.Transcript.ApplyRunEvent | internal/jaca/app/transcript.go:462-494 | Same, for dispatching an event |
| TranscriptCache.Transcript.ApplySessionPreview | internal/jaca/app/transcript.go:438-460 | Same, for a stored session's preview, entry by entry |
| TranscriptHistory.ConversationKept | internal/jaca/app/transcript.go:295-607 | Over any run of operations without a banner over a live answer, the user turns and answers shown are those written, streamed and finished, in order, less exactly the runs trimmed; with none omitted, all of them |
| TranscriptHistory.PreviewShows | internal/jaca/app/transcript.go:438-460 | A session preview shows exactly its user turns and answers, in order, behind the conversation so far, less the runs trimmed |
| TranscriptHistory.AnswerPlaced | internal/jaca/app/transcript.go:524-540 | A finished answer is the last block: in place of the live one, or right behind what closing the tool group left |
| TranscriptHistory.StreamedOrNot | internal/jaca/app/transcript.go:496-540 | Finishing with or without streaming gives the same blocks behind the same base; without streaming the base lacks the gap, so the two agree exactly when no gap was due |
| TranscriptHistory.FinalizeKeepsLast | internal/jaca/app/transcript.go:558-607 | Closing and trimming never touch the last block |
| TranscriptHistory.AnswersLast | internal/jaca/app/runsummary.go:14-18 | An answer that closes its run stays the last block, or is followed by the summary line alone |
| TranscriptHistory.WritersLeaveTheirBlock | internal/jaca/app/transcript.go:295-407 | Every writer adds exactly its block behind what closing left: notes, user turns, activity and summary lines after a gap, plain lines and the banner without |
| TranscriptHistory.UserTurnOpensRun | internal/jaca/app/transcript.go:319-327 | A user turn opens a run at its own block unless one is open |
| TranscriptHistory.CompactionsLeaveNotes | internal/jaca/app/transcript.go:416-428 | Each kind of compaction leaves its own note last |
| TranscriptHistory.WarningsAreShown | internal/jaca/app/transcript.go:430-436 | A compaction warning leaves its note and behind it the message |
| TranscriptHistory.InsertedNoteStands | internal/jaca/app/transcript.go:309-317 | A note placed before the open run stands right before its user turn, and all other blocks stay |
| TranscriptHistory.ErrorsLast | internal/jaca/app/transcript.go:409-414 | An error stays the last block |
| TranscriptHistory.FailuresLeaveErrors | internal/jaca/app/transcript.go:485-493 | Exactly a failure that is no cancellation leaves an error, as the last block |
| TranscriptHistory.CallsJoinOrOpen | internal/jaca/app/transcript.go:758-773 | A call is logged in the active group of its phase or alone in a new one; a group of another phase stays as a block |
| TranscriptHistory.NewGroupsAreSpaced | internal/jaca/app/transcript.go:758-773 | A new group stands right behind the answer it ends, or else behind a blank line |
| TranscriptHistory.ToolEventsAreLogged | internal/jaca/app/transcript.go:462-494 | Each tool event is logged as the kind of step it is |
| TranscriptHistory.OutcomesAreShown | internal/jaca/app/transcript.go:462-494 | A run's last event leaves its outcome last: answer and summary line, or the failure's message |
| TranscriptHistory.EntriesAreShown | internal/jaca/app/transcript.go:438-460 | Each user, answer, error and activity entry of a preview leaves its own block last |
| TranscriptHistory.InstructionsAreShown | internal/jaca/app/transcript.go:438-460 | Instructions stand right before the open run or else last; unknown entries change nothing |
| TranscriptHistory.CutPreviewsSaySo | internal/jaca/app/transcript.go:438-460 | A preview cut short starts with its note; an empty one shows nothing |
| TranscriptHistory.StepsAreLogged | internal/jaca/app/transcript.go:775-803 | A step of a known call is logged last; of an unknown one changes nothing |
| TranscriptHistory.TickShows | internal/jaca/app/transcript.go:708-741 | After a tick the live cell shows that tick's marker, what is committed and the unfinished line; with no line complete, the whole text |
| TranscriptHistory.DeltaShows | internal/jaca/app/transcript.go:496-517 | After a delta the live cell shows the marker and the text so far in the same way |
| FollowUpSpec.PromptsConserved | src/just_another_coding_agent/rpc/state.py:75-269 | Over any run of one session's steps, the prompts whose enqueueing was not refused are, as a multiset, those in the attach messages sent, those in the batches returned, and those still queued |
| FollowUpSpec.RunBalanced | src/just_another_coding_agent/rpc/state.py:75-269 | In order: the waiting steers are the last accepted, those attached come in the order accepted, every other one is in a batch returned or queued, and later prompts are returned in the order accepted |
| FollowUpSpec.SubmitAttaches | src/just_another_coding_agent/rpc/state.py:144-167 | A submit with a boundary open attaches exactly the waiting steers, in order |
| FollowUpSpec.ClientViewCurrent | src/just_another_coding_agent/rpc/state.py:54-125 | After every step the last queue state sent equals the queues while the session is active, and is empty while it is not |
| FollowUpSpec.StepView | src/just_another_coding_agent/rpc/state.py:271-288 | A step sends the new view, or nothing when it did not change |
| FollowUpSpec.RunInv | src/just_another_coding_agent/rpc/state.py:54-94 | Every reachable session has next batches before at most one later batch, none empty, and activity, run task and emitter registered together |
| FollowUpSpec.InterruptRefusesInactiveOnly | src/just_another_coding_agent/rpc/state.py:212-238 | Interrupt is refused exactly for inactive sessions: the second check never decides |
| FollowUpSpec.EnqueueCount | src/just_another_coding_agent/rpc/state.py:96-125 | The count returned is the length of the list the prompt joined in the reported queue state |
| FollowUpSpec.AppendLaterShape | src/just_another_coding_agent/rpc/state.py:257-269 | A later prompt joins or starts the last batch, which then holds all later prompts; next batches are untouched |
| FollowUpSpec.WaitingIsSteers | src/just_another_coding_agent/rpc/state.py:96-192 | The steers waiting after any run are those accepted as steers since the last attachment, downgrade or promotion, read off operations and replies alone |
| FollowUpSpec.MovedSteersComeNext | src/just_another_coding_agent/rpc/state.py:180-238 | After a downgrade, or an interrupt that promotes and is not refused, no steer waits; if any did, the next batch taken is exactly those in the order accepted |
| FollowUpSpec.DowngradeThenDrain | src/just_another_coding_agent/rpc/state.py:180-210 | Downgrading and taking until nothing is left returns every queued prompt, steers first, each in order, and leaves nothing queued |
| FollowUpSpec.TakesKeepOrder | src/just_another_coding_agent/rpc/state.py:194-210 | Any number of takes returns the batches front first and loses none |
| FollowUpSpec.SubmitExact | src/just_another_coding_agent/rpc/state.py:144-167 | Refused exactly without an open boundary; otherwise all waiting steers are attached there and announced, and none waits |
| FollowUpSpec.OpenExact | src/just_another_coding_agent/rpc/state.py:127-142 | A boundary opens exactly when none is open, and an open one stays |
| FollowUpSpec.EnqueueExact | src/just_another_coding_agent/rpc/state.py:96-125 | Refused, with nothing changed or sent, exactly without a run; a next prompt joins the waiting steers last |
| FollowUpSpec.ReportsGoToEmitter | src/just_another_coding_agent/rpc/state.py:54-125 | Every queue state is sent to the emitter of the session's run, the closing one to the emitter taken away |
| FollowUpSpec.InterruptCancels | src/just_another_coding_agent/rpc/state.py:212-238 | An interrupt cancels the session's own run task and nothing else, and counts the steers it promotes |
| FollowUpSpec.RegistrationsAreLast | src/just_another_coding_agent/rpc/state.py:54-94 | Run task, emitter, submitter and boundary are those of the last activation, opening or closing |
| FollowUpState.State.Activate | src/just_another_coding_agent/rpc/state.py:54-73 | The dictionaries change as the session's step says; every other session stays where its own run left it |
| FollowUpState.State.Deactivate | src/just_another_coding_agent/rpc/state.py:75-94 | Same; an empty queue state is sent if something was showing |
| FollowUpState.State.Enqueue | src/just_another_coding_agent/rpc/state.py:96-125 | Same; replies with the count, or refuses an inactive session |
| FollowUpState.State.ActivateSteerBoundary | src/just_another_coding_agent/rpc/state.py:127-142 | Same; refused while a boundary is open |
| FollowUpState.State.SubmitActiveSteerBoundary | src/just_another_coding_agent/rpc/state.py:144-167 | Same; attaches, reports and announces the drained steers, or refuses without a boundary |
| FollowUpState.State.DeactivateSteerBoundary | src/just_another_coding_agent/rpc/state.py:169-178 | Same, for closing a boundary |
| FollowUpState.State.DowngradePendingSteersToFollowUps | src/just_another_coding_agent/rpc/state.py:180-192 | Same; after it no steer waits, and those that did are the first batch |
| FollowUpState.State.TakeNextFollowUpBatch | src/just_another_coding_agent/rpc/state.py:194-210 | Same; takes the oldest batch, and the empty queue's key is dropped |
| FollowUpState.State.Interrupt | src/just_another_coding_agent/rpc/state.py:212-238 | Same; cancels the run task and promotes pending steers when asked |
| FollowUpState.State.DrainPendingSteers | src/just_another_coding_agent/rpc/state.py:240-247 | The drain loop takes every pending steer in order and leaves none |
| FollowUpState.State.AppendFollowUp | src/just_another_coding_agent/rpc/state.py:257-269 | Appends to the last later batch or adds one, and returns that batch's size |
| Router.NothingLost | internal/jaca/rpc/client.go:530-592 | In every interleaving, what the backend emitted for an id is pending until its caller registers, then what the caller consumed, what its channel buffers and what is in flight; a failure adds one error behind it, and a cleanup leaves the rest unread |
| Router.DispatchedIsEmitted | internal/jaca/rpc/client.go:530-550 | The dispatch record is exactly the envelopes read for the id while the loop was running |
| Router.RunInv | internal/jaca/rpc/client.go:530-592 | Every reachable client satisfies the invariant behind this |
| Router.StepKeepsInv | internal/jaca/rpc/client.go:530-592 | Each single step keeps that, and that open channels are exactly the waiters and those about to be failed |
| Router.IdsFresh | internal/jaca/rpc/client.go:525-528 | The next id was never registered before: ids are not reused |
| Router.FailureIsFinal | internal/jaca/rpc/client.go:554-573 | Once set, the terminal error never changes, no waiter is left in the map and none is registered any more |
| Router.EveryWaiterIsTold | internal/jaca/rpc/client.go:541-566 | When the dispatcher has stopped after a read error or an envelope without an id, every waiter there was has received all emitted envelopes, then exactly one error, and is closed by the failure alone |
| Router.CrashIffOvertaken | internal/jaca/rpc/client.go:547-549 | A send on a closed channel is due or has happened exactly when a cleanup came between the dispatcher's lookup and its send; nothing else ever sends to or closes a closed channel |
| Router.CleanupCanOvertakeSend | internal/jaca/rpc/client.go:541-549 | A concrete run in which that happens: lookup and send are not one step in the code |
| Router.LeadingEventsPrefix | internal/jaca/rpc/client.go:1405-1434 | What arrives behind the end of a stream does not change the events before it |
| Router.StreamRun | internal/jaca/rpc/client.go:1405-1434 | The sink receives leading events only; success exactly if it took all of them, patience was left, and the next item is the response for this session. Every other item ends the call with its own error, as do a refusal, a closed channel and the context's end |
| Router.StreamSeesEmittedEvents | internal/jaca/rpc/client.go:530-616 | A caller that has received the item ending its stream has received exactly the events the backend emitted before it |
| Router.ReadIsDelivered | internal/jaca/rpc/client.go:536-549 | An envelope read for a registered caller whose channel has room is buffered behind all emitted before it, with the dispatcher idle again and nothing in flight |
| Router.ReceivesConsume | internal/jaca/rpc/client.go:594-616 | Receiving as often as something is buffered consumes it in order |
| Router.EverythingArrives | internal/jaca/rpc/client.go:536-616 | A caller that keeps receiving consumes exactly what the backend emitted for it |
| Router.FailNextTells | internal/jaca/rpc/client.go:562-565 | A waiter told of a failure has its channel closed with one error behind everything emitted; other channels stay |
| Router.ShutdownEnds | internal/jaca/rpc/client.go:554-566 | A shutdown whose waiters have room runs to its end |
| RouterClient.RpcClient.NextRequestID | internal/jaca/rpc/client.go:525-528 | The object moves as the step says, and the id is new to the client |
| RouterClient.RpcClient.RegisterWaiter | internal/jaca/rpc/client.go:568-583 | Refused after a failure; otherwise the loop moves every early envelope, in order, into the new channel |
| RouterClient.RpcClient.DispatchNext | internal/jaca/rpc/client.go:536-548 | An envelope is kept pending last, or taken for sending, or without an id fails the client, taking all waiters over |
| RouterClient.RpcClient.SendToWaiter | internal/jaca/rpc/client.go:549 | Delivers behind what is buffered and leaves the loop idle; panics exactly when the waiter is no longer registered |
| RouterClient.RpcClient.FailAllWaiters | internal/jaca/rpc/client.go:554-561 | The locked part: the first error stays, the waiters are taken over |
| RouterClient.RpcClient.FailWaiter | internal/jaca/rpc/client.go:562-565 | The error is buffered last and the channel closed, which never meets a closed channel |
| RouterClient.RpcClient.AwaitEnvelope | internal/jaca/rpc/client.go:594-616 | The caller consumes the oldest buffered item |
| RouterClient.RpcClient.Cleanup | internal/jaca/rpc/client.go:584-591 | The waiter is gone and nothing is closed twice, whatever happened before |
| PagedReader.WalkReconstructs | cmd/jaca-read-only-worker/main.go:434-495 | Following next offsets from line one collects exactly the normalised text if every page can take a line; otherwise no number of pages completes the walk |
| PagedReader.ExecuteRead | cmd/jaca-read-only-worker/main.go:434-495 | The window, offset and limit arithmetic yields the specified page, or the line count an offset lies beyond |
| PagedReader.PageIsLongest | cmd/jaca-read-only-worker/main.go:472-477 | A page takes k lines if and only if limit, line count and byte count allow k |
| PagedReader.NextOffsetExact | cmd/jaca-read-only-worker/main.go:478-483 | A next offset is given exactly when lines remain, and is the first of them |
| PagedReader.ReadExact | cmd/jaca-read-only-worker/main.go:434-495 | A read without offset starts at line one; a read fails exactly when its offset is beyond the end, with the line count; otherwise the page holds exactly its first to its last line and says whether more were asked for |
| PagedReader.TruncateHeadLineWindow | cmd/jaca-read-only-worker/main.go:357-379 | The loop takes the longest fitting prefix; it reports truncation exactly when lines are left, and a too large first line exactly then |
| PagedReader.WindowIsLongest | cmd/jaca-read-only-worker/main.go:357-379 | Every shorter prefix fits and no longer one does |
| PagedReader.NormalizeIsUnixText | cmd/jaca-read-only-worker/main.go:344-347 | Two replacements in sequence equal one pass over carriage returns |
| PagedReader.FlattenSplit | cmd/jaca-read-only-worker/main.go:344-355 | The lines with their ends joined are the text again |
| PagedReader.WalkFrom | cmd/jaca-read-only-worker/main.go:434-495 | From any line on, the walk collects exactly the rest, in at most one page a line |
| PagedReader.StuckBefore | cmd/jaca-read-only-worker/main.go:434-495 | No walk gets past a line that no page can take |
| ErrorChain.IterErrorChain | src/just_another_coding_agent/runtime/recovery.py:47-65 | On any finite graph, cycles included, the loop ends and yields every reachable error exactly once, in depth-first order |
| ErrorChain.IsRetryableRunError | src/just_another_coding_agent/runtime/recovery.py:40-44 | True exactly when some reachable error is of a retryable kind |
| ErrorChain.ShouldRetryRunError | src/just_another_coding_agent/runtime/recovery.py:27-37 | Retried exactly when nothing was streamed, no retry was spent, and a retryable error is reachable |
| ErrorChain.VisitExact | src/just_another_coding_agent/runtime/recovery.py:47-65 | Visited if and only if reachable through causes, contexts and group members |
| ErrorChain.VisitOnce | src/just_another_coding_agent/runtime/recovery.py:47-65 | Nothing is visited twice |
| TextWrap.WrapLineFits | internal/jaca/app/textwrap.go:56-101 | Nothing comes out wider than the width if and only if the line is no wider, or its indent fits and every word fits beside it or is blank and dropped at a line start |
| TextWrap.WordsDecide | internal/jaca/app/textwrap.go:56-101 | So it is enough that indent and words fit, and needed too unless a word is white space other than spaces |
| TextWrap.PiecesFit | internal/jaca/app/textwrap.go:79-101 | From any column, the lines written fit exactly when every word is placed |
| TextWrap.WrapTwice | internal/jaca/app/textwrap.go:21-39 | Every line of the result fits if and only if every line can be wrapped; then wrapping again changes nothing |
| TextWrap.InkPreserved | internal/jaca/app/textwrap.go:21-39 | For every text and width, all escapes and non-white characters come out in order and nothing else does |
| TextWrap.BreaksAreForced | internal/jaca/app/textwrap.go:79-101 | A new line is begun exactly where the next token would pass the width on a line that holds something; white space is dropped only right behind an indent; nothing else is added or dropped |
| TextWrap.WordsSurvive | internal/jaca/app/textwrap.go:56-101 | Every word and escape is written whole: none is ever split |
| TextWrap.WrapLines | internal/jaca/app/textwrap.go:21-39 | The loop over the lines computes the specified wrapping |
| TextWrap.WrapSingleLine | internal/jaca/app/textwrap.go:56-101 | The loop over column and first-line flag writes the specified pieces behind what was written |
| TextWrap.LineTokens | internal/jaca/app/textwrap.go:62-83 | The scan with its cursor finds the tokens of the line |
| TextWrap.SplitVisibleTokens | internal/jaca/app/textwrap.go:117-139 | The scan splits visible text into maximal runs of spaces and of other characters |
| TextWrap.FlattenTokens | internal/jaca/app/textwrap.go:117-139 | The tokens joined are the line again |
| TextWrap.AdvanceFits | internal/jaca/app/textwrap.go:79-101 | One token leaves the column inside the width exactly when it is placed |
| TextWrap.IndentOverruns | internal/jaca/app/textwrap.go:41-49 | An indent wider than the width always overruns |
| PasteStore.ExpansionExact | internal/jaca/app/paste_store.go:49-74 | With contents longer than labels, every draft in every longest-first order expands to all labels replaced at once if and only if no content can begin, end or hold another label replaced after its own; and exactly then pruning never changes an expansion |
| PasteStore.UncleanDraft | internal/jaca/app/paste_store.go:49-74 | Otherwise, a draft and an order that go wrong, though the same draft is right after pruning |
| PasteStore.SequentialIsSimultaneous | internal/jaca/app/paste_store.go:49-63 | Replacing label after label equals replacing all at once in any order in which no content brings up a label still to come |
| PasteStore.DraftIsPutBack | internal/jaca/app/paste_store.go:36-63 | What is submitted is the draft with every paste put back in its place, for any typed text in which no stored label begins |
| PasteStore.PruningKeepsExpansion | internal/jaca/app/paste_store.go:65-74 | Dropping labels gone from the draft does not change its expansion |
| PasteStore.QuotedPasteDisagrees | internal/jaca/app/paste_store.go:36-74 | Two pastes above the threshold, the second quoting the first's label: expansion differs with the order, and after pruning |
| PasteStore.NestedLabelsDisagree | internal/jaca/app/paste_store.go:46-74 | The same for any two labels of one length and any quote around the label |
| PasteStore.PastesAreLong | internal/jaca/app/paste_store.go:9-12 | Contents above the threshold are always longer than every label |
| PasteStore.PlainPastesAreClean | internal/jaca/app/paste_store.go:9-12 | Bracket-free pastes above the threshold always meet the condition |
| PasteStore.LongPlainContentsAreClean | internal/jaca/app/paste_store.go:46-48 | Bracket-free contents longer than every label meet it too |
| PasteStore.OneMore | internal/jaca/app/paste_store.go:59-62 | Replacing one more label after the others is replacing it along with them |
| PasteStore.LabelsDiffer | internal/jaca/app/paste_store.go:38 | Labels with different numbers differ, whatever their lengths say |
| PasteStore.Store.Register | internal/jaca/app/paste_store.go:36-44 | The label is new and no stored paste is overwritten |
| PasteStore.Store.Expand | internal/jaca/app/paste_store.go:49-63 | Replaces every stored label once, longest first; with clean contents puts every paste back in its place |
| PasteStore.Store.SortedLabels | internal/jaca/app/paste_store.go:53-57 | Every stored label once, longest first |
| PasteStore.Store.PruneMissing | internal/jaca/app/paste_store.go:68-74 | Keeps exactly the pastes whose label the draft contains |
| PasteStore.Store.Reset | internal/jaca/app/paste_store.go:78-81 | Afterwards every draft expands to itself: nothing pasted before leaks into it |
| Approvals.NormalizedIsFaithful | src/just_another_coding_agent/contracts/sandbox.py:357-412 | A normalized decision keeps request and verdict, is valid, and grants nothing, exactly the request's grants, or exactly one offered option's |
| Approvals.NormalizeAccepts | src/just_another_coding_agent/contracts/sandbox.py:357-479 | A decision is accepted if and only if it answers this request and its option id, or its explicit grants, are ones on offer |
| Approvals.NormalizeTwice | src/just_another_coding_agent/contracts/sandbox.py:357-479 | Normalizing again changes nothing if and only if no grants were filled in beside options and the selected option's id leads back to it |
| Approvals.NormalizeSettles | src/just_another_coding_agent/contracts/sandbox.py:357-479 | With unique ids only filled-in grants are unsettled; the second step succeeds exactly if an option offers them, and is final |
| Approvals.RepeatedIdRefusedTheSecondTime | src/just_another_coding_agent/contracts/sandbox.py:216-217 | A request without permissions may repeat an option id, and then a normalized denial can be refused |
| Approvals.ApprovalGrantsRequest | src/just_another_coding_agent/contracts/sandbox.py:386-412 | Approving a request without options grants exactly what was requested |
| Approvals.SelectedIsOffered | src/just_another_coding_agent/contracts/sandbox.py:415-479 | A selected option is one of the request's, valid, with the decision's verdict |
| Approvals.ValidRequestExact | src/just_another_coding_agent/contracts/sandbox.py:214-277 | A request is valid exactly when its permissions are its flattened grants or both are absent, ids are unique where permissions are asked for, and every option grants in the same way or denies and grants nothing |
| Approvals.ValidDecisionExact | src/just_another_coding_agent/contracts/sandbox.py:310-332 | The same for a decision |
| Approvals.DenialExact | src/just_another_coding_agent/contracts/sandbox.py:455-461 | A denial without an id stands for the only denying option; with none or several it stays as it is |
| Approvals.NamedOptionExact | src/just_another_coding_agent/contracts/sandbox.py:437-452 | An id stands for the first option that has it, whose grants the decision takes over, or is refused if the verdicts differ |
| Approvals.GrantedOptionExact | src/just_another_coding_agent/contracts/sandbox.py:464-479 | Grants without an id stand for the first approved option offering exactly them |
| Approvals.ApprovalExact | src/just_another_coding_agent/contracts/sandbox.py:386-412 | An approval standing for no option is filled in with what was requested, is exactly that already, or is refused |
| Approvals.ValidateRequest | src/just_another_coding_agent/contracts/sandbox.py:214-241 | The validator with its set of seen ids finds the first rule a request breaks |
| Approvals.FlattenPermissionGrants | src/just_another_coding_agent/contracts/sandbox.py:335-354 | The accumulating loop yields the specified permissions, never the forbidden empty delta |
| Approvals.FlattenIsValid | src/just_another_coding_agent/contracts/sandbox.py:118-145 | Valid grants never flatten to an empty delta |
| Approvals.FlattenAppend | src/just_another_coding_agent/contracts/sandbox.py:335-354 | Two lists flatten together to what their flattenings merge to; network is enabled iff some grant enables it |
| Approvals.FlattenTwice | src/just_another_coding_agent/contracts/sandbox.py:335-354 | Flattening what was flattened changes nothing |
| Approvals.FlattenSingle | src/just_another_coding_agent/contracts/sandbox.py:335-354 | One grant flattens to its own permissions exactly when it names no root twice |
| Approvals.DedupeKeepsFirstOrder | src/just_another_coding_agent/contracts/sandbox.py:348-349 | The roots come out in the order in which each was first named |
| Approvals.Dedupe | src/just_another_coding_agent/contracts/sandbox.py:348-349 | Every root of the input, and each once |
| McpNames.MakeInjective | src/just_another_coding_agent/contracts/mcp.py:276-279 | Different identities have different names, also those that do not parse |
| McpNames.ParseMade | src/just_another_coding_agent/contracts/mcp.py:282-292 | Parsing a made name gives the pair back, or is refused, never misread, when the server's name ends in an underscore |
| McpNames.ParseIsInverse | src/just_another_coding_agent/contracts/mcp.py:276-292 | A name parses to a pair exactly when it is made from it and the server's name does not end in an underscore |
| McpNames.JoinSplit | src/just_another_coding_agent/contracts/mcp.py:287 | Splitting loses nothing |
| McpNames.CheckName | src/just_another_coding_agent/contracts/mcp.py:41-51 | A name is accepted exactly when it matches the pattern and has no double underscore |
| OnboardingSpec.RunKeepsInv | src/just_another_coding_agent/onboarding.py:553-586 | In every interleaving of transactions, at most one row per session is pending and every stored row is sound |
| OnboardingSpec.FinishedRowsStay | src/just_another_coding_agent/onboarding.py:242-350 | Rows never vanish; questions never change; completed and abandoned rows never change again |
| OnboardingSpec.PendingUntilEnded | src/just_another_coding_agent/onboarding.py:198-350 | A pending attempt stays the session's, unchanged, exactly until it is answered, abandoned or superseded |
| OnboardingSpec.PublishSupersedes | src/just_another_coding_agent/onboarding.py:131-195 | Publishing a valid question fails only for a taken id, and makes it the one pending row of the session |
| OnboardingSpec.StartRefusedIffOvertaken | src/just_another_coding_agent/onboarding.py:677-742 | A start's insert is refused exactly when a row became pending since the check |
| OnboardingSpec.SecondStartIsRefused | src/just_another_coding_agent/onboarding.py:684-742 | Two starts that both found nothing pending: the second insert is refused and rolled back |
| OnboardingSpec.FirstAnswerCounts | src/just_another_coding_agent/onboarding.py:242-302 | The first answer recorded stays on record over any further run, and every submit that reads the row afterwards is refused |
| OnboardingSpec.DelayedAnswer | src/just_another_coding_agent/onboarding.py:255-317 | Between a submit's reads and its update anything may happen: its answer is recorded exactly if nothing ended the attempt, success is reported exactly if it is not abandoned, and tells the recorded answer exactly if no other came in between |
| OnboardingSpec.OverlappingAnswersBothReported | src/just_another_coding_agent/onboarding.py:255-317 | Two submits that both read a pending row: the second is told it answered, though the first answer is on record |
| OnboardingSpec.AbandonedAnswerFails | src/just_another_coding_agent/onboarding.py:303-307 | Abandoned in between, the submit fails and the row stays abandoned |
| OnboardingSpec.StrippedStayValid | src/just_another_coding_agent/onboarding.py:269-270 | Options valid when stored are valid when read back |
| OnboardingSpec.StartedRowsReopen | src/just_another_coding_agent/onboarding.py:646-674 | A sound row reopens exactly when it has a snippet, and shows its own question |
| OnboardingSpec.PublishStores | src/just_another_coding_agent/onboarding.py:131-195 | A published question is stored as given with its session, run and packets; the row pending before is abandoned and nothing else changes |
| OnboardingSpec.StartStores | src/just_another_coding_agent/onboarding.py:677-742 | A started question is stored as given with its snippet and nothing else changes |
| OnboardingSpec.PublishedQuestionJudges | src/just_another_coding_agent/onboarding.py:131-317 | Whatever happens until its attempt ends, a submit is told it is correct exactly when it selects the published correct index, and is told that option |
| OnboardingSpec.StartedQuestionJudges | src/just_another_coding_agent/onboarding.py:242-317 | The same for a started question |
| OnboardingSpec.AnswerIsJudged | src/just_another_coding_agent/onboarding.py:242-317 | While an attempt stands, a valid answer is recorded with its verdict and completes it, and no other row changes |
| OnboardingSpec.AcceptedExactly | src/just_another_coding_agent/onboarding.py:808-890 | Exactly which questions, snippets and packets are accepted |
| Onboarding.Attempts.PublishQuestion | src/just_another_coding_agent/onboarding.py:131-195 | The table becomes what the transaction says, or is rolled back; on success the session's pending row holds the question, run and packets given |
| Onboarding.Attempts.Start | src/just_another_coding_agent/onboarding.py:198-239 | Gives back the pending attempt and changes nothing, or stores the given question and snippet as the new one and shows them |
| Onboarding.Attempts.CheckAnswer | src/just_another_coding_agent/onboarding.py:250-271 | The reads succeed exactly for a valid index on a pending row, and yield its question |
| Onboarding.Attempts.FinishAnswer | src/just_another_coding_agent/onboarding.py:274-317 | The guarded update and what is reported from the row read back |
| Onboarding.Attempts.SubmitAnswer | src/just_another_coding_agent/onboarding.py:242-317 | A submit that nothing interrupts succeeds exactly for a valid index on a pending row, and reports the answer it recorded |
| Onboarding.Attempts.AbandonAttempt | src/just_another_coding_agent/onboarding.py:320-350 | Exactly a pending row of that session is abandoned, with the time given; otherwise nothing changes |
| Onboarding.Attempts.FetchPending | src/just_another_coding_agent/onboarding.py:589-603 | The session's pending row if there is one |
| Onboarding.Attempts.Insert | src/just_another_coding_agent/onboarding.py:553-586 | Refused exactly for a taken id or a second pending row |

## Left out

- Transcript cells are values in a sequence: aliasing of a cell held by two places, which the code does not do, is not captured.
- Colours, markdown, hyperlinks, tool text and line wrapping inside the transcript are functions in `Look`; nothing is assumed about them.
- A tool group is the log of steps it took; how tools are listed and grouped inside its text is not part of this model.
- The help text is a note with fixed lines and has no operation of its own.
- Follow-up steps run lock section and emission as one step; an emitter or attach call that raises is not modelled.
- The follow-up preview kept by the terminal model is not a mirror of the backend queue and is not modelled.
- Router steps are sections under the lock or single channel operations; a blocked operation is a step that changes nothing, so progress is stated only where a channel has room, and nothing is said about scheduling.
- A registration with more than 32 early envelopes blocks while holding the lock; it appears as a registration that does nothing.
- The reader thread, request writing, JSON decoding and process signalling around the router are not modelled; envelopes are values.
- Worker inputs its protocol excludes (an offset below one, a negative limit) are preconditions of the reader.
- Directory listing, find and grep of the worker: their budgets cut a prefix in one loop and would add only easy members.
- Reading the file, path checks and cancellation of a read are not modelled; text is a sequence of bytes.
- Which exception types are retryable is a parameter of the error search.
- Finding escape sequences by pattern, and their overlaps, are not modelled: wrapping starts from glyphs that are characters or escapes, of width zero or one.
- Rune and byte lengths of placeholder labels agree, as labels are plain ASCII; contents are sequences of characters.
- Labels, reasons, commands and capabilities of approval requests play no part in normalization and are omitted.
- The pydantic machinery, strictness of types and error texts are not modelled; errors are constructors.
- Trimming and lower-casing of onboarding options are done for ASCII.
- Question generation, snippet selection, timestamps' order, JSON payloads and SQLite itself are not modelled; a question and a time are parameters, a transaction either commits or leaves the table as it was.
