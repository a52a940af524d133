# Workbench verification

A Dafny model of the concurrent, stateful core of the workbench that drives
coding agents through a staged task workflow, with proofs of what that core
guarantees over every input, every run and every interleaving.

`dafny verify dfyconfig.toml` checks the whole project.

## What is modelled

One module per component; code that changes state is a class or a method proved
against a specification function, and the properties are lemmas about that
function.

- **One agent turn.** `ToolActivity.dfy` is the browser's pure fold of a turn's
  events into blocks, `StageTurn.dfy` the server's in-place fold through pending
  index slots. Both are shown equal to one order-free description: the skeleton
  of text and calls, filled from the results by call id. `AssistantText.dfy` and
  `ClaudeTurn.dfy` are the message loop that produces the events,
  `Subagents.dfy` and `SubagentWait.dfy` the tracker that holds back and later
  collects subagent results, and `TurnPipeline.dfy` puts the pieces together.
- **Concurrent protocols.** `ClientCache.dfy` holds the runner's mutex-guarded
  maps, `RunnerProtocol.dfy` every interleaving of turns, executions, closes and
  shutdown over them, one action per critical section, and what that keeps safe;
  `RunnerProgress.dfy` what the callers get done: what a close or a sweep owes is
  closed, what a turn says to its clients, and that nobody is ever stuck.
  `Escalations.dfy` is the permission registry with its channels.
- **Session coherence.** `SessionCoherence.dfy` tracks every place a model's
  context can come from while messages are posted, deleted and regenerated.
- **Attempts and git.** `CommitGraph.dfy` is history as a finite acyclic graph,
  `Worktrees.dfy` forking and cleanup over refs and worktrees, `CleanupPass.dfy`
  the passes that end a task, overlapping.
- **Task lifecycle.** `Lifecycle.dfy` is the stage machine with its recorded
  executions and reviews, and what a next attempt continues from.
- **Text formats.** `Utf8.dfy`, `Sse.dfy`, `Routes.dfy` and `History.dfy`;
  `Options.dfy` and `Sequences.dfy` are helpers.

The outside world is nondeterministic input: agent and git subprocesses, the
network, the store and the clock answer in any way an action's parameters allow.
Assumed of it: provider call ids are not reused within a turn and a result
follows its call, hook agent ids are apart from call ids, escalation and session
ids are fresh, and the clock does not run backwards. Each assumption is a named
predicate in the lemma that needs it.

## Where the code departs from its comments

The model follows the code. Each departure has a lemma with a concrete run and,
beside it, the exact condition under which the comment holds.

- The persisted view keeps a call's first result and the live view its last, so
  they differ when a provider's last answer to a call is not its first
  (`RepeatedResultDiverges`, `PersistedAgreesWithLive`).
- An error result returns before subagent output is collected, so a launched call
  keeps neither acknowledgment nor output (`ErrorResultLosesOutput`,
  `ExactlyOneResult`). Like the next one this is latent: `withSubagentSupport`
  (internal/agentrunner/claude_runner.go:310), which admits subagents and
  registers their hooks, has no caller, and neither Run nor Execute offers the
  tool.
- Counting a start wakes nobody, so a stop counted before its own start leaves
  the waiter asleep until its context ends (`LateStartStrands`,
  `OnlyALateStartStrands`). Latent for the same reason; outputs are matched to
  calls in stop order, sure to be right only when that is the call order
  (`OwnOutputsExactly`).
- A touch does not keep a client in use from the idle sweep. A sweep closes what
  it listed without looking again, so with the default budgets too a key that
  comes back in between loses its fresh connection (`FreshTurnLosesItsClient`,
  `SweepsSpareExactly`,
  `ListedWithinBudgetIsExposed`). A listing itself never names a client in use
  within its turn's budget by default; it can once AGENT_EXECUTION_TIMEOUT is
  set above the idle timeout (`SparedExactly`, `DefaultsAreSpared`,
  `LongTurnLosesItsClient`).
- A resolved escalation may report success to a turn already cancelled
  (`SuccessMayGoUnheard`, `HeardUnlessCancelled`).
- A failed clear of a resume id is logged and passed over, which lets deleted
  content back (`FailedClearLetsItBack`, `DeletedCoherent`,
  `RegeneratedCoherent`).
- An execution can be recorded while a rejection is still the latest review: the
  plan is finalized again, the attempt fails, and the task is revised back
  (`RejectionOutlivedByFailure`, `RejectedStaysLatest`).
- Two overlapping execution requests can leave a failed attempt latest at review
  (`OverlapMisnamesReview`, `LatestOkExactly`, `LatestOkOverRuns`,
  `LedByLatestExactly`), and an attempt can then be given a review's notes and
  an earlier failure both (`OverlapBothPrompts`, `BothPromptsExactly`,
  `NeverBothPrompts`).
- The ancestry check looks at HEAD while the branch is what gets deleted
  (`DetachedHeadLosesWork`, `PassLosesExactly`, `PassLosesNothingExactly`).
- A completed task can have an attempt's worktree left, contrary to the comment at
  internal/task/lifecycle.go:208-213: an attempt begun beside the one that was merged
  may be recorded after the listing (`LateRecordIsLeftBehind`,
  `LeftBehindExactly`, `CompletedMeansNothingLeft`).
- An empty result id attaches to the last activity of the trailing block, pending
  or not; the comment at frontend/src/toolActivityBlocks.ts:49-57 says still
  pending (`EmptyIdOverwrites`, `EmptyIdFollowsComment`).
- The comment at frontend/src/url.ts:30-35 sends any malformed path to the
  default route; an id that does not decode throws instead
  (`MalformedEscapeThrows`, `ParseFailsExactly`).

The comment at internal/api/finalize.go:147 says an approval merges; the code at
internal/task/lifecycle.go:145-146 leads to PR review, as the model does.

## Model

| member | source | states |
|---|---|---|
| ToolActivityBlocks.LiveIsFilledSkeleton | frontend/src/toolActivityBlocks.ts:22-78 | for every stream with fresh call ids, the live view is the call-and-text skeleton with each call filled from the last result that followed it |
| ToolActivityBlocks.LiveAlternates | frontend/src/toolActivityBlocks.ts:22-39 | for every stream, no live block is empty and narration and tools strictly alternate |
| ToolActivityBlocks.PositionsStable | internal/api/stage_conversation.go:774-780 | appending text or a call never moves an earlier entry, so coordinates taken before stay valid |
| ToolActivityBlocks.EmptyIdFollowsComment | frontend/src/toolActivityBlocks.ts:49-73 | a result without an id goes to the trailing block's last still-pending activity, as commented, if and only if the last activity is pending, is left as it is with none pending, or there is none |
| ToolActivityBlocks.EmptyIdOverwrites | frontend/src/toolActivityBlocks.ts:67-72 | a concrete block whose answered call loses its answer to the one pending before it |
| ToolActivityBlocks.LiveInOrder | frontend/src/toolActivityBlocks.ts:22-78 | for every stream, whatever its ids, the view read block by block says each character narrated and names each call made, in the stream's own order |
| ToolActivityBlocks.SkeletonExactly | frontend/src/toolActivityBlocks.ts:22-39 | the skeleton both views fill is the one and only alternating view, without results, that does |
| StageTurn.RecordedIsFilledSkeleton | internal/api/stage_conversation.go:769-804 | the in-place fold equals the same skeleton filled, per call, with its first result; the pending slots are exactly the unanswered calls and each names its own entry |
| StageTurn.PersistedAgreesWithLive | internal/api/stage_conversation.go:782-790 | the persisted and the live view are the same (up to truncation) if and only if the last result of every call equals its first, whatever came between |
| StageTurn.PersistedIsStoredLive | internal/api/stage_conversation.go:758-768 | with at most one result per call the persisted segments are the stored live view |
| StageTurn.RepeatedResultDiverges | internal/api/stage_conversation.go:784-785 | a concrete stream with two results for one call on which the two views differ |
| StageTurn.TruncateExactly | internal/task/conversation.go:132-141 | what is stored is the text itself or its first part marked as cut, storing it again changes nothing, and two texts are stored alike if and only if they are equal or both too long with one beginning |
| StageTurn.ResultOrderIrrelevant | internal/api/stage_conversation.go:761-768 | moving a result past any run of other events that are not its own call's leaves the final segments identical |
| StageTurn.ActivityIsCalls | internal/api/stage_conversation.go:845-856 | the flattened activity lists each call exactly once, in call order, with its own first result |
| StageTurn.SegmentsAlternate | internal/api/stage_conversation.go:791-804 | no persisted segment is empty and kinds strictly alternate, for every stream whatever its ids |
| StageTurn.ContentIsNarration | internal/api/stage_conversation.go:845-857 | content derived from the segments is the concatenation of everything narrated, whatever the tool events do |
| StageTurn.Recorder.OnToolCall | internal/api/stage_conversation.go:771-781 | the closure keeps segments and pending slots equal to the fold of everything relayed |
| StageTurn.Recorder.OnToolResult | internal/api/stage_conversation.go:782-790 | likewise for a result, known or unknown |
| StageTurn.Recorder.OnDelta | internal/api/stage_conversation.go:791-804 | likewise for a delta, empty or not |
| StageTurn.RunStageTurn | internal/api/stage_conversation.go:741-860 | whole turn, failed or not: content, the trusted proposals from the list or else the single call, streamed in order, activity, segments, session id and error, related to the stream and to the live view |
| StageTurn.OffersToolNamed | internal/api/stage_conversation.go:914-921 | true exactly when some offered tool has the name |
| StageTurn.TrustedIsOfferedSubsequence | internal/api/stage_conversation.go:831-843 | the trusted calls are exactly those at the positions of offered names, each once and in order |
| AssistantText.HoldsDelta | internal/agentrunner/claude_runner.go:1355-1402 | appending keeps the text equal to the non-empty rounds joined by a blank line, with a break owed exactly while the current round is empty |
| AssistantText.AssistantText.AppendDelta | internal/agentrunner/claude_runner.go:1385-1402 | writes exactly the bytes it relays, and keeps the join |
| AssistantText.AssistantText.ConsumeBreak | internal/agentrunner/claude_runner.go:1373-1379 | a break is due only after earlier text, and is owed once |
| ClaudeTurn.TextIsNarration | internal/agentrunner/claude_runner.go:1449-1538 | over any message stream the accumulated text is the concatenation of everything relayed |
| ClaudeTurn.TextIsJoinedRounds | internal/agentrunner/claude_runner.go:1365-1402 | and equals the non-empty rounds joined by a blank line |
| ClaudeTurn.DraftsAreNeverActivity | internal/agentrunner/claude_runner.go:1474-1536 | no accepted Draft's id ever appears as a call or a result, and what is forwarded has unique calls, unique results and results naming their call |
| ClaudeTurn.Turn.ProcessMessage | internal/agentrunner/claude_runner.go:1449-1561 | one message moves the loop state exactly as its signals do (`MessageSays` says which those are, `ProposedAndForwarded` what they come to); done exactly on the turn's result message, with an error exactly if that is one |
| ClaudeTurn.MessageSays | internal/agentrunner/claude_runner.go:1449-1538 | each block and each reply of a message says its one item, in place, and no other message says one of another kind |
| ClaudeTurn.ProposedAndForwarded | internal/agentrunner/claude_runner.go:1474-1536 | for fresh ids, read off the messages alone: a turn proposes exactly the calls of offered tools whose results are no errors, in result order, under their bare names with their own input, and forwards exactly every other call and result as it came |
| ClaudeTurn.RelayedGrows | internal/agentrunner/claude_runner.go:1449-1538 | nothing relayed is ever taken back or moved |
| ClaudeTurn.Drain | internal/agentrunner/claude_runner.go:611-621 | the loop reads up to and with the first result message and ends finished, failed or closed by it; content is then what was relayed, and proposals and forwarded activity are what the messages read so far come to |
| Subagents.ExactlyOneResult | internal/agentrunner/claude_runner.go:611-626 | for any interleaving of hooks and any ending, a subagent call gets exactly one result if and only if the turn did not end in an error result or the call's launch failed inline, and none otherwise |
| Subagents.ErrorResultLosesOutput | internal/agentrunner/claude_runner.go:611-614 | a concrete run: an acknowledged call is left without any result by an error result |
| Subagents.OwnOutputsExactly | internal/agentrunner/claude_runner.go:1896-1919 | whatever the numbers of calls and outputs, every finished subagent's output goes to its own call when subagents stop in call order, and only then where no two outputs, fallbacks included, read the same |
| Subagents.OthersPassThrough | internal/agentrunner/claude_runner.go:1939-1953 | text, calls and other tools' results reach the caller unchanged and in order |
| Subagents.CollectedInStopOrder | internal/agentrunner/claude_runner.go:1896-1919 | each finished output surfaces exactly once in stop order, and a call without one gets a non-empty fallback |
| Subagents.TrackerIs | internal/agentrunner/claude_runner.go:1833-1864 | in every interleaving the tracker holds the calls whose launch did not fail in call order, the outputs in stop order, each acknowledgment and the two counts |
| Subagents.CollectedExactly | internal/agentrunner/claude_runner.go:1896-1919 | so each collected result is the one expected of the turn alone: the i-th output for the i-th call launched, else the call's own acknowledgment, else the note as an error; outputs beyond the calls under their agents |
| Subagents.SubagentTracker.Forward | internal/agentrunner/claude_runner.go:1924-1953 | the wrapped callbacks forward everything but held-back acknowledgments and track exactly the stream |
| Subagents.SubagentTracker.Collect | internal/agentrunner/claude_runner.go:1896-1919 | the loop computes the collected results |
| Subagents.SubagentTracker.ResolveTask | internal/agentrunner/claude_runner.go:1833-1843 | forgets the first call with that id and its placeholder, nothing else |
| SubagentWait.NeverSleepsPastContext | internal/agentrunner/claude_runner.go:1870-1887 | once the context is done a waiter that has not returned always has an enabled step of its own or its watcher's that brings it nearer, and no hook undoes that |
| SubagentWait.NeverSleepsWhenMatched | internal/agentrunner/claude_runner.go:1848-1887 | if stops never overtake starts, no interleaving leaves the waiter asleep with starts equal to stops |
| SubagentWait.OnlyALateStartStrands | internal/agentrunner/claude_runner.go:1848-1852 | a step leaves it asleep with nothing to wait for if and only if it is a start catching up with its own stop |
| SubagentWait.LateStartStrands | internal/agentrunner/claude_runner.go:1848-1864 | a concrete run in which that happens |
| SubagentWait.ReturnsOnlyWhenMatched | internal/agentrunner/claude_runner.go:1882-1886 | the waiter returns only when counts match or the context is done |
| TurnPipeline.PersistedTurnIsLiveTurn | internal/agentrunner/claude_runner.go:603-638 | end to end, for any message stream with fresh ids, any interleaving of hooks and any ending, an error result included: what is persisted is the stored live view and its content is the runner's own text |
| TurnPipeline.Relay | internal/agentrunner/claude_runner.go:603-607 | wrapped callbacks and hooks in any order deliver the stream without its held-back acknowledgments |
| TurnPipeline.Run | internal/agentrunner/claude_runner.go:603-638 | drain, then collect unless an error was returned: what is delivered, which error comes back and with what text, session id and proposals, for each ending |
| ClientCache.ClaudeRunner.TryLock | internal/agentrunner/claude_runner.go:749-757 | succeeds exactly when the key was free, and then holds it |
| ClientCache.ClaudeRunner.Evict | internal/agentrunner/claude_runner.go:469-479 | returns the cached client with its own cancel and removes the key from all four maps, or changes nothing |
| ClientCache.ClaudeRunner.CacheClient | internal/agentrunner/claude_runner.go:879-887 | writes the four maps together; they keep agreeing when the client is new |
| ClientCache.ClaudeRunner.TouchClient | internal/agentrunner/claude_runner.go:891-895 | changes the last use only, even when the client has meanwhile gone |
| ClientCache.ClaudeRunner.ListExpired | internal/agentrunner/claude_runner.go:493-502 | lists exactly the keys idle for more than the timeout, once each |
| ClientCache.ClaudeRunner.TakeAll | internal/agentrunner/claude_runner.go:519-528 | hands over every client with its cancel and empties the four maps |
| RunnerProtocol.ConnectionsAreConserved | internal/agentrunner/claude_runner.go:469-541 | in every interleaving each connection is cached under one key, held by one caller, or disconnected once, and never two of these: the three counts sum to one |
| RunnerProtocol.CachingNeverOverwrites | internal/agentrunner/claude_runner.go:833-887 | a caller about to cache its connection finds no live entry for its key |
| RunnerProtocol.MapsAlwaysAgree | internal/agentrunner/claude_runner.go:469-541 | clients, selections and cancels always have one domain inside the last-used domain, and each cancel is its client's |
| RunnerProtocol.HooksBelongToTheHolder | internal/agentrunner/claude_runner.go:551-571 | two turns of one key never overlap, and the tracker and decision hook found under a held key are its holder's own or none, exactly between being installed and cleared |
| RunnerProtocol.NothingInstalledBetweenTurns | internal/agentrunner/claude_runner.go:769-811 | a key nobody holds has neither |
| RunnerProtocol.ClientMatchesTurn | internal/agentrunner/claude_runner.go:836-873 | a turn only ever uses a connection made for its own key and its own selection, and the one cached for its key if any is |
| RunnerProtocol.SweepTakesClientInUse | internal/agentrunner/claude_runner.go:493-502 | a sweep lists a cached client in use if and only if its turn began to use it longer ago than the idle timeout |
| RunnerProtocol.SparedExactly | internal/agentrunner/claude_runner.go:424-433 | in no interleaving does a sweep list a client in use within its turn's budget, if and only if that budget is at most the idle timeout |
| RunnerProtocol.DefaultsAreSpared | internal/serverapp/serverapp.go:123-129 | so neither default budget is cut short by a listing |
| RunnerProtocol.SweepsSpareExactly | internal/agentrunner/claude_runner.go:491-505 | over a whole run no sweep ever has a client in use still to close, but for turns already older than the idle timeout when listed, if and only if no turn ever takes up a key still on some sweep's list |
| RunnerProtocol.ListedWithinBudgetIsExposed | internal/agentrunner/claude_runner.go:891-895 | within a budget up to the idle timeout, every client in use on a sweep's list is of that kind |
| RunnerProtocol.FreshTurnLosesItsClient | internal/agentrunner/claude_runner.go:491-505 | a concrete run with the default budgets: a key listed as idle comes back to life before it is closed, and the late close takes the fresh connection |
| RunnerProtocol.LongTurnLosesItsClient | internal/agentrunner/claude_runner.go:889-895 | for every budget above the idle timeout, a concrete run in which a review turn within it loses its connection to another key's sweep |
| RunnerProtocol.Perform | internal/agentrunner/claude_runner.go:749-811 | every effect of the protocol on the shared maps is performed by the runner's own critical section |
| RunnerProtocol.StampWithoutClient | internal/agentrunner/claude_runner.go:891-895 | last uses and clients keep one domain through every step but a touch that lands after its client was closed |
| RunnerProgress.OwedIsClosed | internal/agentrunner/claude_runner.go:469-505 | in every interleaving: once a caller no longer owes a key, the client cached under it when it came to owe it is in no cache, and was disconnected or is in the hands of a caller about to disconnect it |
| RunnerProgress.CloseOneCloses | internal/agentrunner/claude_runner.go:469-486 | so a CloseSession that has ended has closed the client cached under its key when it was called |
| RunnerProgress.CloseEveryCloses | internal/agentrunner/claude_runner.go:519-541 | and a CloseAll that has ended has disconnected every client cached when it took the maps |
| RunnerProgress.DebtsExactly | internal/agentrunner/claude_runner.go:574-637 | what a turn comes to owe at each step: at a sweep exactly the idle keys; its own key exactly when its client was made for another selection, its first query met a stale session, or its stream ended without a result; otherwise nothing |
| RunnerProgress.TurnClosesWhatItOwes | internal/agentrunner/claude_runner.go:833-848 | whatever a turn or its sweep so decides to close is out of the cache for good before it goes on |
| RunnerProgress.RefusedExactly | internal/agentrunner/claude_runner.go:543-548 | a turn or execution is turned away exactly when another caller holds its key |
| RunnerProgress.ConnectsExactly | internal/agentrunner/claude_runner.go:851-873 | a connection comes of a connect that works and of nothing else, in the hands of the caller that asked and made for its key and selection |
| RunnerProgress.TurnReuses | internal/agentrunner/claude_runner.go:836-849 | a turn that finds a client of its selection goes on to use that very client, neither closing it nor connecting, whatever others do in between |
| RunnerProgress.TurnSpeaks | internal/agentrunner/claude_runner.go:573-594 | in every interleaving an ended turn has called out in one of these ways only: no client could be dialed; one query that was not stale; a stale one and a second try through a newer client dialed for it, if that could be; a session to resume is tried before a fresh one |
| RunnerProgress.ExecutionSpeaks | internal/agentrunner/claude_runner.go:684-697 | an execution dials once, afresh, and a close never |
| RunnerProgress.NeverStuck | internal/agentrunner/claude_runner.go:543-640 | no caller is ever stuck: it has a step, and every step brings it nearer its end |
| RunnerProgress.CanEnd | internal/agentrunner/claude_runner.go:543-640 | from every reachable state any caller can be run to its end by its own steps alone |
| Escalations.SendNeverBlocks | internal/api/stage_permission.go:69-70 | in every interleaving a resolver that took an id finds its channel empty |
| Escalations.OnlyTheOwnerResolves | internal/api/stage_permission.go:58-71 | at most one resolve per id succeeds, and only from the owning session |
| Escalations.DecisionWasResolved | internal/api/stage_permission.go:89-104 | a waiter returns a decision only if that very decision was resolved for its id and session, and the id is then gone |
| Escalations.AnswerIsInOnePlace | internal/api/stage_permission.go:69-103 | a delivered answer is in the channel or with the waiter, never both and never lost |
| Escalations.SuccessMayGoUnheard | internal/api/stage_permission.go:98-103 | a concrete run in which a resolve reports success to a turn already cancelled |
| Escalations.HeardUnlessCancelled | internal/api/stage_permission.go:98-103 | once the turn has come back, an answer reported delivered was heard if and only if the turn was not cancelled while it waited |
| Escalations.ClaimsExactly | internal/api/stage_permission.go:58-68 | in every interleaving a resolver takes an id if and only if it was registered by a turn of the same session that is not back, and nobody took it before |
| Escalations.CanBeAnswered | internal/api/stage_permission.go:58-104 | whatever happened before, a turn still waiting for an answer nobody took can be answered by its session, either way, and comes back with that answer |
| Escalations.EscalationRegistry.Register | internal/api/stage_permission.go:44-54 | adds the entry with an empty channel |
| Escalations.EscalationRegistry.Claim | internal/api/stage_permission.go:58-68 | takes the id exactly when it is pending and the session's own, otherwise changes nothing |
| SessionCoherence.NeverWithinReach | internal/api/stage_conversation.go:586-711 | after any sequence of handlers, evictions and restarts with executors switching freely and every store call but the clears free to fail, no discarded message is in the transcript, a live session or a session a resume id leads to |
| SessionCoherence.NoTurnSeesDiscarded | internal/api/stage_conversation.go:341-423 | so no turn of any executor is ever shown one |
| SessionCoherence.DeletedCoherent | internal/api/stage_conversation.go:586-595 | deleting keeps that true if and only if no id whose clear failed leads to a session holding the deleted message |
| SessionCoherence.RegeneratedCoherent | internal/api/stage_conversation.go:662-727 | regenerating keeps it true if and only if no id that was neither cleared nor overwritten leads to a session holding what was replaced |
| SessionCoherence.RegeneratingContext | internal/api/stage_conversation.go:697-709 | a regenerating turn is shown exactly the kept prefix, or the end of it that fits, and the new message |
| SessionCoherence.FailedClearLetsItBack | internal/api/stage_conversation.go:885-889 | a concrete run in which one logged-and-ignored clear failure shows a deleted message to the model again |
| SessionCoherence.TranscriptMoves | internal/api/stage_conversation.go:429-432 | what each request adds to the transcript and what it takes out: a saved post the new user message and its reply at the end, a deletion that one message, a regeneration everything from the message on, and nothing else ever |
| SessionCoherence.EntriesStay | internal/api/stage_conversation.go:341-432 | over whole runs every message stays, in order and marked as it was, at the place the later deletions before it leave it, until a deletion of that very message or a regeneration at or before it |
| SessionCoherence.TakenOutStaysOut | internal/api/stage_conversation.go:586-727 | and once out it never comes back |
| SessionCoherence.PostContext | internal/api/stage_conversation.go:341-423 | an ordinary turn is shown exactly: its live session, else the session its id resumes, else the transcript or the end of it that fits; then the new message |
| SessionCoherence.ConversationGoesOn | internal/agentrunner/claude_runner.go:833-873 | whatever other executors do in between and whatever live sessions are lost, the next turn of an executor is shown exactly what its last completed turn was shown and replied, and the new message, through the live session or the stored id |
| SessionCoherence.SavedPostIsKept | internal/api/stage_conversation.go:429-432 | in every run a saved post leaves at the end of the transcript the message its turn was shown last, as the user's, and its reply, and in a live session all that was shown and said |
| SessionCoherence.UnfinishedTurnLeaves | internal/agentrunner/chat_client_runner.go:117-122 | a turn that did not complete leaves a chat session without its message, a CLI session with it, and drops or keeps the resume id accordingly |
| SessionCoherence.UnreachedTurnLeaves | internal/api/stage_conversation.go:877-889 | a turn that never reached a model leaves everything as it was, but for the id it had |
| SessionCoherence.ClosingEndsAll | internal/api/finalize.go:45-49 | in every run closing leaves no live session and everything else as it was |
| SessionCoherence.StageConversation.CloseSessions | internal/api/finalize.go:45-49 | the loop ends every runner's live session and nothing else |
| SessionCoherence.StageConversation.ClearSessionIDs | internal/api/stage_conversation.go:907-911 | the loop clears every configured executor's id but those whose clear failed |
| SessionCoherence.StageConversation.RunChat | internal/agentrunner/chat_client_runner.go:81-154 | seeds from history only without a live session and appends the pair only on success |
| SessionCoherence.StageConversation.RunCli | internal/agentrunner/claude_runner.go:833-873 | prefers the live connection, then the resume id, then a fresh session from history; a refused resume fails the turn |
| SessionCoherence.StageConversation.PersistSessionID | internal/api/stage_conversation.go:877-889 | records the turn's id whatever it is, clearing it when there is none |
| SessionCoherence.StageConversation.StartConversation | internal/api/stage_conversation.go:436-530 | refused unless the transcript is empty; keeps only the reply |
| SessionCoherence.StageConversation.PostMessage | internal/api/stage_conversation.go:341-432 | one turn from history or session, then both messages appended (what that must leave, `SavedPostIsKept` says) |
| SessionCoherence.StageConversation.DeleteMessage | internal/api/stage_conversation.go:580-597 | out-of-range refused; otherwise the message, every live session and every clearable id are gone |
| SessionCoherence.StageConversation.RegenerateMessage | internal/api/stage_conversation.go:650-727 | only from a user message; sessions and ids go before the turn, the transcript is replaced after it |
| CommitGraph.AttemptsDisjoint | internal/agentrunner/worktree.go:252-262 | for a retry chain no commit is attributed to two attempts |
| CommitGraph.AttemptsCover | internal/agentrunner/worktree.go:229-262 | together they list exactly what the last attempt adds to the base: always when the first forked from it, otherwise if and only if no base commit entered the chain later |
| Worktrees.BranchNamesDistinct | internal/agentrunner/worktree.go:45-47 | no two attempts of any tasks share a branch name |
| Worktrees.ForkStartsAtTip | internal/agentrunner/worktree.go:97-169 | a fork starts clean at the requested tip on the default branch's account, disturbs no other worktree and no branch but its own stale one, and on any error leaves the worktrees alone |
| Worktrees.ForkExactly | internal/agentrunner/worktree.go:97-169 | a fork succeeds if and only if both ids are safe, the checkout is on the given default branch, the attempt's own branch is not checked out, the requested ref, the current branch by default, exists and is another one, the place is free and git adds it; and the exact condition of each error |
| Worktrees.FirstExecutionForks | internal/agentrunner/worktree.go:134-168 | so a task's first execution always gets its workspace, at the tip of the default branch |
| Worktrees.RetryAfterFailedFork | internal/agentrunner/worktree.go:144-162 | a leftover branch of a failed attempt never blocks the retry that reuses its id |
| Worktrees.RetryDescends | internal/agentrunner/worktree.go:86-92 | a retry forked from its predecessor's branch descends from where the predecessor stopped, however many commits it makes |
| Worktrees.RemovedWasPushed | internal/agentrunner/worktree_cleanup.go:162-211 | without force a removed worktree was clean and every commit reachable from its HEAD is reachable from the pushed branch |
| Worktrees.PassIs | internal/agentrunner/worktree_cleanup.go:93-212 | though each attempt is judged against what earlier ones left, a pass takes away exactly the worktrees and branches determined from the state before it |
| Worktrees.PassLosesExactly | internal/agentrunner/worktree_cleanup.go:141-212 | without force a pass loses a commit if and only if a branch it will delete leads to it and no other branch, no remote one and no worktree does |
| Worktrees.PassLosesNothingExactly | internal/agentrunner/worktree_cleanup.go:141-212 | it loses nothing if and only if the tip of every branch it will delete is part of another branch, of a remote one or of a worktree's HEAD |
| Worktrees.PassLosesOnly | internal/agentrunner/worktree_cleanup.go:141-159 | in particular it can lose a commit only through the branch of an attempt already gone or off its own branch |
| Worktrees.DetachedHeadLosesWork | internal/agentrunner/worktree_cleanup.go:179-208 | a concrete worktree whose detached HEAD passes the check while its branch still held unpushed work |
| Worktrees.PassReportsEach | internal/agentrunner/worktree_cleanup.go:118-122 | one result per attempt, in order |
| Worktrees.PassRemovesReported | internal/agentrunner/worktree_cleanup.go:93-123 | a worktree is gone after a pass exactly if it was gone before or reported removed |
| Worktrees.DryRunTouchesNothing | internal/agentrunner/worktree_cleanup.go:147-149 | without apply the whole git state is unchanged and nothing is reported removed |
| Worktrees.OutcomeExactly | internal/agentrunner/worktree_cleanup.go:125-212 | the exact condition of each of the five outcomes of one attempt |
| Worktrees.PassOutcomes | internal/agentrunner/worktree_cleanup.go:93-123 | in a pass each attempt's outcome is decided as if it were the only one |
| Worktrees.DryRunForetells | internal/agentrunner/worktree_cleanup.go:147-149 | a dry run names exactly what applying removes, wherever git obliges, and reports the rest alike |
| Worktrees.RetryChainIsRemoved | internal/agentrunner/worktree_cleanup.go:75-92 | when the last attempt of a chain was pushed, every clean attempt of it is removed |
| Worktrees.MergedTaskIsRemoved | internal/agentrunner/worktree_cleanup.go:75-123 | so a merged task whose last attempt is the pushed branch is cleaned up completely |
| Worktrees.NothingPushedNothingRemoved | internal/agentrunner/worktree_cleanup.go:93-123 | and one whose pushed branch is unknown loses nothing unforced |
| Worktrees.Checkout.CleanupOneWorktree | internal/agentrunner/worktree_cleanup.go:125-212 | one attempt's outcome and the new git state, branch by branch of the routine |
| Worktrees.Checkout.CleanupTaskWorktrees | internal/agentrunner/worktree_cleanup.go:93-123 | the loop computes the pass, or reports every attempt failed when the checkout cannot be found |
| Worktrees.Checkout.ResolveExecutionWorkspace | internal/agentrunner/worktree.go:97-169 | the new workspace or the error, and the refs and worktrees left behind either way, all as `ForkExactly` and `ForkStartsAtTip` have it |
| CleanupPass.RunCleanupPass | internal/api/pr.go:251-314 | the loop's report and flag, and the stage it leaves the task at |
| CleanupPass.CompletesExactlyWhenClean | internal/api/pr.go:298-313 | a pass completes a task if and only if every attempt came back removed or already gone and the store calls worked, and then no recorded worktree is left |
| CleanupPass.SweepCompletesCleanup | internal/api/pr.go:298-314 | a pass writes down its own results if it can and changes nothing else; its only say over the stage is the store's own completion of cleanup |
| CleanupPass.CompletedByPass | internal/api/pr.go:298-314 | over every run of overlapping passes a task parked at cleanup leaves it, for completed, if and only if some pass ends clean, everything it listed being gone |
| CleanupPass.StageMovesAsTheTask | internal/task/lifecycle.go:255-278 | each step of a pass does to the stage what the store's completion of cleanup does, or nothing |
| CleanupPass.ReportsNeverMix | internal/api/pr.go:269-298 | the persisted report is always one whole pass's |
| CleanupPass.UndisturbedPassIsSwept | internal/api/pr.go:251-314 | left alone, a pass taken attempt by attempt does what the routine does as a whole |
| CleanupPass.LeftBehindExactly | internal/api/pr.go:251-314 | with passes overlapping and attempts still forking and being recorded, a step leaves a recorded worktree behind a completed task if and only if it completes past an attempt recorded since the listing that still has one, or records such an attempt afterwards |
| CleanupPass.CompletedMeansNothingLeft | internal/task/lifecycle.go:208-213 | over every such run a task past cleanup never has a recorded worktree left if and only if no step does that |
| CleanupPass.PassesMayOverlap | internal/api/pr.go:251-314 | while no attempt is recorded, overlapping passes, forced or not, and removals by hand leave none behind, and without forks worktrees only shrink |
| CleanupPass.LateRecordIsLeftBehind | internal/task/lifecycle.go:208-213 | a concrete run: an attempt still under way at cleanup is recorded once the task has completed, its worktree left for good |
| Lifecycle.LatestOkExactly | internal/task/lifecycle.go:155-172 | with any number of attempts under way, a step makes the latest execution at review or later no success if and only if it records a success below a failure, or a failure above the success under review |
| Lifecycle.LatestOkOverRuns | internal/task/lifecycle.go:155-172 | over a whole run the latest execution at review and later is always a success if and only if no attempt is recorded out of order |
| Lifecycle.LedByLatestExactly | internal/task/lifecycle.go:155-172 | it is the very execution whose success led there until, and only until, one attempt overtakes another |
| Lifecycle.StageFactsHold | internal/api/pr.go:60-78 | in every run without an attempt recorded out of order: at review and later the latest execution is a success with a branch; past review the latest review is the approval naming it; every verdict names a recorded success |
| Lifecycle.OneAtATimeIsOrderly | internal/api/execution.go:188-223 | with one attempt at a time a run is such, the latest at review is what led there, and none is under way then |
| Lifecycle.OverlapMisnamesReview | internal/api/execution.go:188-223 | a concrete run of two overlapping requests that reaches review with a failed latest execution |
| Lifecycle.RejectedStaysLatest | internal/api/stage_conversation.go:1287-1292 | in any state, the rejected attempt stays the latest recorded one through every step except, exactly, recording an execution with a higher id while the rejection is the latest review |
| Lifecycle.RejectedLatestOverRuns | internal/api/stage_conversation.go:1287-1292 | over any run from a rejection on, while it is the latest review, the rejected attempt is the latest recorded one if and only if no execution with a higher id has been recorded since |
| Lifecycle.RejectionOutlivedByFailure | internal/api/stage_conversation.go:1287-1292 | a concrete run back at Requirements with a rejection latest and a later failed attempt recorded |
| Lifecycle.RetryContinuesReviewedWork | internal/api/execution.go:591-615 | in every run, while the latest review asks for changes the next attempt starts from the branch of the execution it named, with its notes, and no failed one competes if and only if that branch exists or none is on offer; in an orderly run it is a success and has one |
| Lifecycle.ContinuationStays | internal/api/execution.go:575-590 | until the next review, no retry and no overlapping attempt changes what is continued from |
| Lifecycle.BothPromptsExactly | internal/api/execution.go:188-215 | feedback and an earlier failure are both supplied if and only if an offered failure is chosen although notes are owed for an attempt without a branch |
| Lifecycle.NeverBothPrompts | internal/api/execution.go:665-670 | no run reaches that unless the execution sent back has no branch, and no orderly run does |
| Lifecycle.OverlapBothPrompts | internal/api/execution.go:665-670 | a concrete run of overlapping attempts that does |
| Lifecycle.EntersExactly | internal/task/lifecycle.go:26-392 | the one or two ways into each stage: a step enters it if and only if it is one of these |
| Lifecycle.LastEntry | internal/task/lifecycle.go:26-392 | in every run, at every moment: the task never left its first stage, or one of the ways into its stage was taken and it has stayed there since |
| Lifecycle.CompletedPassedAll | internal/task/lifecycle.go:208-278 | in every run a completed task was approved from review, stood at its pull request's review until that was marked merged, stood at cleanup until that was completed, and has stood completed since; the pull request merged is the last recorded one, recorded after an approval |
| Lifecycle.RecordedExactly | internal/task/execution.go:254-329 | in every run the executions are exactly what the attempts came to, each with the id and fork it was begun with and the result it was reported with, but for successes come too late |
| Lifecycle.ReviewsExactly | internal/task/lifecycle.go:155-190 | in every run the reviews are exactly the verdicts given, in order, each about the execution newest then |
| Lifecycle.ContinuesExactly | internal/api/execution.go:633-655 | an attempt may be continued if and only if it is the newest, it failed with commits and no review owns the fork; the new one then forks its branch and is told why it failed |
| Lifecycle.InsertedIs | internal/task/execution.go:382-391 | the listing stays sorted by id, gains exactly the new record, and ends with it when it is the newest |
| Lifecycle.ResolveReviewContinuation | internal/api/execution.go:591-615 | the loop finds the reviewed execution's branch, the latest review permitting |
| Lifecycle.ResolveFailureContinuation | internal/api/execution.go:633-655 | offers exactly the latest attempt, when it failed with commits and no review owns the fork |
| Lifecycle.TaskStore.FinalizeReviewStage | internal/task/lifecycle.go:131-208 | records the verdict against the latest execution and moves the stage by it; approval only from review |
| Lifecycle.TaskStore.StartExecution | internal/api/execution.go:180-215 | re-validates the human's choice against a fresh lookup and reserves the next id |
| Lifecycle.TaskStore.RecordExecution | internal/task/execution.go:254-329 | records once per id, a success only from implementation, which it advances |
| Lifecycle.Serve | internal/task/lifecycle.go:131-392 | a task's history served request by request by the store's methods is the run all of this is about, `EntersExactly`, `RecordedExactly` and `ReviewsExactly` included |
| Utf8.DecodeEncode | frontend/src/api.ts:312-321 | the streaming decoder returns the encoded text, byte order mark at the very start aside |
| Utf8.FeedSplit | frontend/src/api.ts:316-320 | where the byte stream is cut never shows in the decoded text |
| Utf8.DecodesOnlyEncodings | frontend/src/api.ts:312-321 | whatever bytes arrive, if decoding replaces nothing they are the encoding of what comes out, a leading byte order mark and a last sequence cut short aside |
| Sse.StreamSSE | frontend/src/api.ts:304-333 | for any chunking, even inside a character, the loop emits the events of the whole body |
| Sse.TakeLines | frontend/src/api.ts:322-331 | the inner loop emits every complete data line's payload and keeps exactly the unfinished line |
| Sse.PayloadExactly | frontend/src/api.ts:322-331 | a line is a data line if and only if, blanks around it aside, it is the prefix and a payload, which is neither empty nor ends in a blank |
| Sse.LinesExactly | frontend/src/api.ts:322-331 | the lines, each ended by its newline, and the unfinished rest make up the text |
| Sse.WireRoundTrip | internal/api/stage_conversation.go:303-307 | for newline-free JSON objects the parser inverts the printer exactly and in order |
| Sse.CutShortIsPrefix | frontend/src/api.ts:314-332 | a body cut at any byte yields a prefix of the events |
| Routes.ComponentRoundTrip | frontend/src/url.ts:81-103 | percent-decoding undoes percent-encoding (section 2.1 of RFC 3986) |
| Routes.DecodesExactly | frontend/src/url.ts:36-77 | decoding takes exactly the texts that spell something, and gives what they spell: no overlong sequence, no surrogate, no stray byte (RFC 3629) |
| Routes.EscapesExactly | frontend/src/url.ts:36-77 | an escape stands for the byte of its two hexadecimal digits, letters of either case |
| Routes.EncodeFails | frontend/src/url.ts:81-103 | encoding fails exactly on a lone surrogate |
| Routes.EncodedIsOneSegment | frontend/src/url.ts:81-103 | an encoded id holds no slash and is empty only for the empty id |
| Routes.ParseInvertsPrint | frontend/src/url.ts:36-103 | parsing inverts printing on every canonical route |
| Routes.ParsedIsCanonical | frontend/src/url.ts:36-77 | whatever decodable path is loaded, it parses to a canonical route |
| Routes.ParseFailsExactly | frontend/src/url.ts:36-77 | parsing throws on exactly the recognized paths with an id that does not decode; every unrecognized path gives the default |
| Routes.ParsesExactly | frontend/src/url.ts:36-77 | every path, malformed ones included, parses to the one route its segments show; the chat tab for /chat alone |
| Routes.SegmentsExactly | frontend/src/url.ts:36-37 | a path's segments are its non-empty stretches between slashes |
| Routes.PrintsTidied | frontend/src/url.ts:81-103 | any route, canonical or not, prints as its tidied form, which its address parses to |
| Routes.PlainPathParses | frontend/src/url.ts:36-77 | a path without a percent sign never throws, and its ids are its segments |
| Routes.MalformedEscapeThrows | frontend/src/url.ts:47-49 | a concrete path, a lone percent sign for an id, on which it throws |
| Routes.ParsedPrints | frontend/src/url.ts:81-103 | what a path parses to can be printed if and only if its ids hold no lone surrogate |
| Routes.CorrectionSettles | frontend/src/App.tsx:17-20 | whatever decodable path is loaded, the corrected address exists, parses to the same route and needs no further correction |
| Routes.PathsDistinct | frontend/src/url.ts:81-103 | distinct canonical routes never share an address |
| History.RecentWithinBudget | internal/agentrunner/claude_runner.go:1098-1110 | the longest suffix that fits, or the last message alone; truncated exactly when something was dropped |
| History.LongestIsUnique | internal/agentrunner/claude_runner.go:1092-1097 | there is only one such suffix |
| History.ReplayWithinBudget | internal/agentrunner/claude_runner.go:1075-1090 | the rendered lines of a suffix that fits stay within the budget in bytes |
| History.SystemPromptWithHistory | internal/agentrunner/claude_runner.go:1075-1090 | the whole prompt, unchanged without history, the omission noted exactly when there is one |
| History.RenderedReadsBack | internal/agentrunner/claude_runner.go:1086-1088 | reading the rendered lines gives back the messages, role and content each in place |
| History.ReplayReadsBack | internal/agentrunner/claude_runner.go:1080-1089 | after the prompt come the heading, the omission exactly when there is one, and the messages kept, in order |

## Left out

- HTTP decoding, status codes, headers and logging, React rendering and hooks, the tray application and embedded assets: plumbing around the modelled core.
- The Execute path's own event loop and tracker wrapper (internal/agentrunner/claude_runner.go:1586-1660 and 1961-1983): the same suppression as the modelled wrapper, with call names remembered by id.
- Overlapping handlers on one conversation: a delete racing an in-flight turn is not ordered by the code, so SessionCoherence takes one handler at a time.
- Configuration changes between restarts: an executor removed from the configuration keeps its resume id, which no clear then reaches; SessionCoherence keeps the set of executors fixed.
- Callback errors that abort the message loop early: the conversation's callbacks always accept (internal/api/stage_conversation.go:804), and Drain and ProcessMessage model such callbacks.
- The reserved log of an attempt whose process died: RecordExecution's log check always passes here, since a request reserves its id and its log together.
- Execution metrics, artifacts and three-dot diffs, the post-run workspace cleanup turn and the safety commit: they report on an attempt without steering the stage machine.
- Pushing and opening the pull request: the pushed branch is an input to cleanup, and RecordPullRequest an action of the stage machine.
- Dot segments: an id of one or two dots is a segment the browser itself would resolve before parsePath sees it.
- JSON parsing of event payloads and the exceptions it throws: Sse delivers the payload texts.
- YAML persistence, prompt wording, string matching on error messages, capability and selection validation, tooltip truncation and cmd/modelprobe: they add no state or branching of their own.
- CleanupPass.LeftBehindExactly: one attempt's cleanup, one save of the report and one completion are each a single step, so git operations of two passes on the same attempt and the store's read-then-write of one task file are not interleaved further.
- Worktrees.RetryAfterFailedFork: git also refuses to delete a branch that a stale worktree record, its directory deleted by hand, still holds; CheckedOut knows no such records, so nothing is said about a retry that meets one (cleanup prunes them first).
- Two requests that read the same next execution id before either creates its log (internal/task/execution.go:179 and internal/task/execution_log.go:119-133): Begin reserves an id in one step.
- When a turn's context ends the turn itself may still linger; RunnerProtocol only says which facts hold within its budget.
