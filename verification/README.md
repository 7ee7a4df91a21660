# Amparo agent core: a verified model

This project models the agent core of Amparo in Dafny and proves what its
loops, protocols and small algorithms keep. Nothing here runs the program; each
module is a model of one part of it, written from the source.

The parts:

- `Sse`: the accumulator that turns a chunked byte stream into one assistant
  turn. The incremental reader refines a reader of the whole text. It covers
  the subset of section 9.2.6 of the WHATWG HTML standard that the code reads.
- `Gate`, `Execution`, `AgentLoop`, `Conversation`, `Counters`, `GateSafety`,
  `Coverage`, `Endings`, `Skills`, `Turns`: one iteration of the agent loop,
  concurrent calls included, what every iteration keeps, when it ends, and what it
  says. Everything outside the loop (models, policies, humans, tools, the
  scheduling of a batch) is a set of functions on an arbitrary world, so any
  behaviour of theirs is covered.
- `Checkpoints`, `Lifetime`, `Saves`, `Crashes`: what a checkpoint restores, the
  run over its iterations, what it saves and reports, and lives of a task with
  crashes at any point and with ended runs resumed.
- `Swarm`, `Family`: the budget, ordinals, reports and replay cache that all
  generations of `spawn_agent` share, and gate safety at any depth.
- `Ledger`: the privacy ledger's frame stack and call trackers.
- `Approvals`: the approval router and the gates around it.
- `Scheduler`: promises, scans, fires and the one claim per chat.
- `Journal`, `Codecs`, `Sessions`: the append-only journal under torn writes, the
  directory scans, suspend and kill.
- `Principal`, `PathSegment`: the 56-bit FNV-1a principal and percent-encoding.
- `Text`, `Messages`, `Wrappers`: shared vocabulary.

Code that works step by step is a method or a class here, proved equal to a
function of its inputs or of its old state; the theorems are about those
functions, over all inputs, runs and interleavings. A concurrent part is a
machine whose moves are its critical sections; theorems hold for every sequence
of moves.

Results that contradict what a reader, or the source's own comments, might expect:

- The dry run predicts approval with a fixed threshold. On a call the policy
  allows it is right about every agent exactly for that threshold, which is the
  default (`Gate.DryRunThreshold`).
- The evidence finding compares counts, and answers of blocked calls count as
  tool results, so a dropped result can go unnoticed
  (`Counters.EvidenceFindingExact`).
- "A human approves every spawn" holds unless the threshold is raised to
  `SystemControl` (`Family.SpawnAsksHuman`), and an override can raise the
  children's ceiling (`Family.SwarmIsLawful`).
- The replay cache looks at the call id only. The stream accumulator names a call
  `call_0` anew each turn when the provider gives no id (`Sse.ReassemblyByIndex`),
  so a later, different spawn under that id is answered with the old child's
  result and never starts (`Swarm.RetryReplays`).
- A one-shot run ends with its calls unanswered. Suspended and resumed, it sends
  them so (`Crashes.RevivedOneShotAsksUnanswered`).
- Two children spawned in one batch break the ledger's nesting: a child's rows
  are right exactly while no other frame is open above its own
  (`Ledger.StampedRightExactly`, `Ledger.OverlapMisstamps`).
- A gate that gives up, after a failed send or a timeout, denies whoever holds
  its key by then; it harms nobody exactly when the entry is gone or its own
  (`Approvals.GiveUpHarmsSuccessorExactly`). The comment on the outer timeout says
  the inner gate unregisters its entry; dropping the inner ask leaves it there
  (`Approvals.CancelLeavesEntry`).
- "Fired at most once" needs the saves to succeed and the load and the claims to
  be one step (`Scheduler.ClaimsAndFiresAreSafe`,
  `Scheduler.UnsavedFireFiresAgain`, `Scheduler.StaleScanFiresAgain`), and a
  running fire is taken for missed exactly when it outlasts the grace
  (`Scheduler.RunningFireIsMissedExactly`).
- A torn line swallows the next completed marker (`Journal.AppendIsReadBack`),
  so a kill is not always idempotent (`Sessions.KillIsIdempotentExactly`); a
  suspend revives a killed task (`Sessions.SuspendRevives`), and a save after a
  kill makes the task unkillable (`Sessions.SaveAfterKillCannotBeKilled`).

What is asked of the environment, where a theorem needs it:

- `Conversation.HonestExecutor`: a tool result carries the id and name of its
  call.
- `Journal.CodecOk`: a marker is one line that reads back, and neither a part of
  a line nor a line made of several writes reads. A JSON object opens
  a brace at its first character and closes it at its last; `Codecs` shows with
  a small encoding of that kind that the contract can be met.
- A clean task: the archival strip changes none of its texts.

Verify with `dafny verify dfyconfig.toml`.

## Model

| member | source | states |
|---|---|---|
| `Sse.TurnBuilder.ApplyDelta` | crates/amparo-agent/src/sse.rs:44-91 | one frame in place is one fold step on the assembly: finish reason replaced, content and reasoning appended, fragments merged by index |
| `Sse.TurnBuilder.ApplyFragmentsInPlace` | crates/amparo-agent/src/sse.rs:66-90 | the loop over `tool_calls` merges every fragment in order |
| `Sse.TurnBuilder.ApplyFragmentInPlace` | crates/amparo-agent/src/sse.rs:67-89 | an index of 64 or more changes nothing; otherwise the list grows to the index and only that slot changes |
| `Sse.AccumulateTurn` | crates/amparo-agent/src/sse.rs:114-143 | the incremental reader returns what the whole-text reference returns, for every stream of chunks and errors |
| `Sse.StreamMeans` | crates/amparo-agent/src/sse.rs:114-143 | what any text means: the turn of its `data:` lines in order, white space around the data ignored, up to the `[DONE]` line; an open last line does not count, and an error before `[DONE]` ends the turn |
| `Sse.PayloadExactly` | crates/amparo-agent/src/sse.rs:121-130 | the payload of a line is what follows `data:` without the white space around it, and other lines have none |
| `Sse.TextsOfTurn` | crates/amparo-agent/src/sse.rs:44-65 | the content of a turn is all its content deltas joined in order; it has reasoning exactly when some delta had, and then all of it joined; the finish reason is the last one given |
| `Sse.ChunkingIsInvisible` | crates/amparo-agent/src/sse.rs:118-136 | however a text is cut into chunks, the turn is that of the uncut text |
| `Sse.UnterminatedLineIgnored` | crates/amparo-agent/src/sse.rs:121-142 | text after the last newline has no effect |
| `Sse.DoneStopsReading` | crates/amparo-agent/src/sse.rs:131-134 | once a `[DONE]` line is complete, later chunks and even errors are not read, and the result is a turn |
| `Sse.DoneIsFinal` | crates/amparo-agent/src/sse.rs:121-134 | a completed `[DONE]` line stays the end of the turn whatever is delivered later |
| `Sse.ReassemblyByIndex` | crates/amparo-agent/src/sse.rs:93-106 | the finalized calls are, in ascending index below 64, exactly the indices with a nonempty name, each with its own fragments joined in order and the last id or `call_i` |
| `Sse.SameProjections` | crates/amparo-agent/src/sse.rs:66-90 | any two interleavings with the same fragments per index give the same calls |
| `Sse.IndicesAreIndependent` | crates/amparo-agent/src/sse.rs:66-90 | two neighbouring fragments of different indices may swap |
| `Gate.GateCallExact` | crates/amparo-agent/src/agent.rs:2057-2155 | a call passes exactly when it is registered, within the ceiling, not denied, and approved by a human if the policy escalates or the tier reaches the threshold; the evidence ends its events |
| `Gate.GateDecidesExactly` | crates/amparo-agent/src/agent.rs:2057-2155 | which calls the policy judges, which a human is asked about, and which objection is the decision, each if and only if; and the world each oracle saw |
| `Gate.DryRunPredictsLive` | crates/amparo-agent/src/agent.rs:374-404 | the dry run blocks exactly what the live chain blocks without asking, and predicts the question exactly unless the tier lies between the two thresholds |
| `Gate.DryRunThreshold` | crates/amparo-agent/src/agent.rs:374-404 | for any call: every agent with a threshold has its question foreseen rightly if and only if the threshold is `ExternalEffector` or the verdict is no plain allow |
| `Execution.ExecuteCall` | crates/amparo-agent/src/agent.rs:2159-2188 | a call is attempted until its first success, at most three times, each attempt in the world the one before left; the result, the world and the events are those of exactly these attempts |
| `AgentLoop.ExpandSkill` | crates/amparo-agent/src/agent.rs:2209-2360 | the steps of a skill one by one through the gate, stopping at the first blocked one |
| `Skills.SkillHappens` | crates/amparo-agent/src/agent.rs:2253-2347 | a prefix of the steps, each under its own id with its own arguments, was requested, gated, and run until success at most three times, one after the other, or blocked as the last; the result tells just the records |
| `Skills.SkillTellsTools` | crates/amparo-agent/src/agent.rs:2253-2310 | the reported tools are exactly those of the recorded steps, and of the steps that ran, once each |
| `Skills.UnknownSkillDoesNothing` | crates/amparo-agent/src/agent.rs:2214-2244 | an unknown skill fails without an event |
| `AgentLoop.RecordRequests` | crates/amparo-agent/src/agent.rs:1398-1405 | requested names join the used list once each |
| `AgentLoop.GateBatch` | crates/amparo-agent/src/agent.rs:1398-1472 | the serial gate phase over all calls of a batch |
| `Turns.GateAllTells` | crates/amparo-agent/src/agent.rs:1412-1472 | the gate phase is its calls handled one by one: refused under its own id with the reason, expanded if it is a skill, else left to run; what is answered, told, ready and recorded is just that, in order |
| `AgentLoop.GateOne` | crates/amparo-agent/src/agent.rs:1416-1471 | one call is blocked and answered, expanded as a skill, or made ready |
| `AgentLoop.BlockCall` | crates/amparo-agent/src/agent.rs:2015-2044 | a blocked call gets exactly one more tool message, under its own id, and nothing becomes ready or used |
| `Execution.ExecuteReady` | crates/amparo-agent/src/agent.rs:1474-1500 | the calls of a batch run as futures polled in any order, and a history accounts for all of it: the attempts of each call came one after the other until the first success or the third failure, which is its result in the model's order |
| `Execution.BatchIsAccountedFor` | crates/amparo-agent/src/agent.rs:1474-1500 | so under every schedule: no attempt of a call starts before all earlier ones failed, none follows a success or a third failure, and the world went from attempt to attempt as they finished |
| `Execution.ScheduleIsFollowed` | crates/amparo-agent/src/agent.rs:1474-1500 | any schedule that finishes the batch is followed as it is |
| `Execution.EverythingFinishes` | crates/amparo-agent/src/agent.rs:1474-1500 | whatever the schedule, every item of the batch finishes |
| `AgentLoop.AbsorbResults` | crates/amparo-agent/src/agent.rs:1585-1625 | each result is answered, counted, and moves the same-tool run |
| `Turns.AbsorbAllTells` | crates/amparo-agent/src/agent.rs:1584-1625 | each result is answered with its output under its id and told to the model, its name recorded, and the last success with something to say remembered |
| `AgentLoop.ShortcutResults` | crates/amparo-agent/src/agent.rs:1528-1539 | the one-shot exit counts its results and answers none |
| `Turns.ShortcutTells` | crates/amparo-agent/src/agent.rs:1528-1539 | the one-shot exit records the names of its results and their number, and changes nothing else |
| `AgentLoop.ToolBatch` | crates/amparo-agent/src/agent.rs:1381-1668 | the whole tool half of an iteration |
| `Turns.ToolTurnTells` | crates/amparo-agent/src/agent.rs:1381-1668 | what the tool half leaves: the answers, refusals first, one message with all there is to tell and the nudge, the lists and the memory; or after a one-shot exit the summary, the counts and an unchanged conversation |
| `AgentLoop.TakeTurn` | crates/amparo-agent/src/agent.rs:1085-1823 | one iteration after its checkpoint: trim, privacy, request, empty-turn recovery, batch or verification |
| `Turns.TurnTells` | crates/amparo-agent/src/agent.rs:1085-1380 | no permission and no reply leave all as it was, an empty reply is nudged once, and any other reply joins the conversation as it was said, unmasked, with its reasoning and calls, and clears the mark of an empty one |
| `Turns.AnswerTurnTells` | crates/amparo-agent/src/agent.rs:1670-1823 | a candidate answer raises the stripped question about task, answer, evidence and tools, and the verdict or what is missing joins the conversation |
| `Turns.SecondEmptyReplyEnds` | crates/amparo-agent/src/agent.rs:1255-1352 | two empty replies in a row end the run |
| `Turns.WindowExactly` | crates/amparo-agent/src/agent.rs:1086-1092 | trimming keeps the first message and the last thirty |
| `Turns.OutgoingExactly` | crates/amparo-agent/src/agent.rs:2413-2438 | a request is the conversation, its contents masked exactly if the policy asks for redaction |
| `Conversation.WindowIsGood` | crates/amparo-agent/src/agent.rs:1086-1092 | trimming keeps at most 31 messages, the system message first, and every remaining call with its answers |
| `Conversation.OutgoingIsGood` | crates/amparo-agent/src/agent.rs:2413-2438 | stripping the texts of a request keeps it well formed |
| `Conversation.BatchAnswers` | crates/amparo-agent/src/agent.rs:1412-1500 | a batch is answered by the blocked calls first and the passed calls after, each call exactly once |
| `Conversation.GateStepIds` | crates/amparo-agent/src/agent.rs:1416-1471 | each call adds its id either to the answers or to the ready items, and to nothing else |
| `Conversation.ExecuteAllIds` | crates/amparo-agent/src/agent.rs:1474-1500 | however a batch is scheduled, there is one result per ready item, in order, under the item's own id and name |
| `Conversation.ExecutedKeepsId` | crates/amparo-agent/src/agent.rs:2159-2188 | the result of a call with retries carries the call's id and name |
| `Conversation.TurnKeepsGood` | crates/amparo-agent/src/agent.rs:1361-1668 | an iteration leaves a conversation in which every call is answered at once, if and only if it did not end the run by the one-shot exit |
| `Endings.VerdictExact` | crates/amparo-agent/src/agent.rs:2466-2478 | a verification reply refuses exactly when its trimmed text starts with `INCOMPLETE`; the feedback is what follows the colon, or all of it without one |
| `Endings.AnswerIsVerified` | crates/amparo-agent/src/agent.rs:1748-1851 | a candidate answer ends the run if and only if the verification reply is missing, empty, or no refusal |
| `Endings.NothingBlockedMeansAllPassed` | crates/amparo-agent/src/agent.rs:1416-1471 | a batch has no blocked observation if and only if every call passed the gate |
| `Endings.OneShotExactly` | crates/amparo-agent/src/agent.rs:1506-1581 | a batch ends the run if and only if every call passed, every result is a success, and the lower-cased prompt is `open`, `launch` or `start` something with none of the five joining words; the answer is the summary of the results, one per call |
| `Endings.TurnEndsExactly` | crates/amparo-agent/src/agent.rs:1094-1851 | an iteration completes the task with an answer if and only if the answer was accepted, is the summary of one simple request that passed and succeeded, or is earlier good work after a second empty reply; it fails it if and only if it may not ask, gets no reply, or a second empty one without earlier work |
| `Endings.RunCompletionIsDeserved` | crates/amparo-agent/src/agent.rs:1062-1905 | a run that reports completion has an answer its last iteration deserved; a failed run reports at most a candidate, and only with its iterations used up |
| `Counters.TrailingRunIsLongest` | crates/amparo-agent/src/agent.rs:1617-1624 | the reference for the same-tool count is the longest constant tail of the answered names |
| `Counters.AbsorbCounts` | crates/amparo-agent/src/agent.rs:1617-1624 | answering one result keeps the last name, the saturating run length and the saturating call count in step with the history |
| `Counters.WindowCounts` | crates/amparo-agent/src/agent.rs:1086-1092 | tool messages before a trim are those left plus those dropped |
| `Counters.GateBatchOk` | crates/amparo-agent/src/agent.rs:1416-1471 | gating answers each blocked call, moves no counter of results, and keeps the name lists duplicate-free and contained |
| `Counters.TurnKeepsCounts` | crates/amparo-agent/src/agent.rs:1085-1823 | every iteration keeps the counters equal to what the whole history says, every nudge follows the run of equal names, and every audit sees exact counts |
| `Counters.EvidenceFindingExact` | crates/amparo-agent/src/qc.rs:211-224 | the evidence finding fires exactly when trimming dropped more tool messages than blocked calls were answered, and never without a dropped one |
| `GateSafety.SkillRunsPrefix` | crates/amparo-agent/src/agent.rs:2253-2347 | a skill records a prefix of its steps, only the last can be a block, recorded plus skipped is all, and success means no step was blocked |
| `GateSafety.TurnIsGateSafe` | crates/amparo-agent/src/agent.rs:1416-1500 | in every turn each executor run is preceded by a gate pass of the very same call |
| `GateSafety.PollsAreSafe` | crates/amparo-agent/src/agent.rs:1474-1500 | under every interleaving of the attempts of a batch, each has its gate pass behind it |
| `Coverage.PollsAreBacked` | crates/amparo-agent/src/agent.rs:1474-1500 | under every interleaving, the passes of a call cover the runs it made and those it may still make |
| `Coverage.BatchRunsCovered` | crates/amparo-agent/src/agent.rs:1416-1500 | at no moment of a batch has a call run more than three times per pass of its own |
| `Coverage.TurnIsCovered` | crates/amparo-agent/src/agent.rs:1085-1823 | nor at any moment of an iteration |
| `Checkpoints.ConversationRoundTrip` | crates/amparo-agent/src/agent.rs:1939-2010 | save and resume give a conversation back exactly when its system message is the current one and no text holds anything to strip |
| `Checkpoints.ResumeRestoresExactly` | crates/amparo-agent/src/agent.rs:944-1017 | the whole loop state comes back if and only if the task is clean |
| `Checkpoints.ResumeKeepsGood` | crates/amparo-agent/src/agent.rs:944-947 | whatever the strip does, a resumed conversation is as well formed as the saved one |
| `Checkpoints.ResumeKeepsToolCount` | crates/amparo-agent/src/agent.rs:944-947 | saving and resuming loses no tool message |
| `Lifetime.RunLoop` | crates/amparo-agent/src/agent.rs:1062-1905 | the loop over the iterations, with its checkpoints, is the recursion over single turns |
| `Lifetime.Run` | crates/amparo-agent/src/agent.rs:857-932 | a fresh task starts from the system message, the continuity message and the prompt |
| `Lifetime.Resume` | crates/amparo-agent/src/agent.rs:944-1017 | a resume runs the same loop from the restored state |
| `Saves.OpeningExactly` | crates/amparo-agent/src/agent.rs:866-889 | a fresh task opens with the system prompt, the continuity message if there is one, and the prompt as typed; what the loop quotes is stripped if the policy asks |
| `Saves.SavesExactly` | crates/amparo-agent/src/agent.rs:1062-1905 | each iteration saves first, running and itself counted, and the last save is of the final state with the status, iterations and answer of the report, every text stripped |
| `Saves.ExhaustedReportsLast` | crates/amparo-agent/src/agent.rs:1856-1905 | a run that uses up its iterations fails and reports its last candidate answer |
| `Lifetime.TurnAsksOnce` | crates/amparo-agent/src/agent.rs:1085-1180 | an iteration makes at most one chat request, of the trimmed conversation |
| `Lifetime.OneIterationFewer` | crates/amparo-agent/src/agent.rs:1062-1063 | starting with one more iteration used gives the same run, or the same run cut off by the budget at most one request short |
| `Lifetime.ResumeSimulates` | crates/amparo-agent/src/agent.rs:1064-1083 | resuming the checkpoint written at the head of an iteration of a clean task repeats that run with exactly one iteration fewer |
| `Crashes.WireKeeps` | crates/amparo-agent/src/agent.rs:1062-1083 | any part of an iteration, from any conversation, adds only gated and covered runs and at most one request |
| `Crashes.WireStaysFormed` | crates/amparo-agent/src/agent.rs:1062-1083 | from a good conversation its requests are well formed |
| `Crashes.EveryLifeIsOk` | crates/amparo-agent/src/agent.rs:944-1905 | over any number of crashes at any point, resumes, and resumes of runs that had ended: gated executor runs, at every moment at most three runs per pass of a call, and no more requests than `max_steps`; while no one-shot exit was resumed also well-formed requests and exact counters, nudges and audits, those of an iteration about to be lost included |
| `Crashes.ReviveKeepsExactly` | crates/amparo-agent/src/session.rs:412-418 | resuming an ended run that was suspended keeps its conversation good and its counters in step if and only if it did not end by the one-shot exit |
| `Crashes.RevivedOneShotAsksUnanswered` | crates/amparo-agent/src/agent.rs:1541-1573 | a resumed one-shot exit sends a request whose last calls are unanswered |
| `Crashes.LostTurnIsOk` | crates/amparo-agent/src/agent.rs:1062-1083 | whatever part of the next iteration a crash lets happen nudges and audits rightly |
| `Crashes.LoopIsLife` | crates/amparo-agent/src/agent.rs:1062-1905 | the loop is such a life without crashes |
| `Crashes.RunIsOk` | crates/amparo-agent/src/agent.rs:1027-1905 | so a whole run from any good state inherits the guarantees |
| `Swarm.SpawnTools.Arrive` | crates/amparo-agent/src/spawn.rs:202-211 | the replay check and the empty-task refusal |
| `Swarm.SpawnTools.Proceed` | crates/amparo-agent/src/spawn.rs:213-336 | the budget, ordinal, report and cache sections, one at a time |
| `Swarm.IdInjective` | crates/amparo-agent/src/spawn.rs:238-238 | `{parent}.{n}` determines parent and ordinal, because a decimal has no dot |
| `Swarm.NumberedMeansDistinct` | crates/amparo-agent/src/spawn.rs:231-238 | children numbered per parent have pairwise different ids, none of them the root's |
| `Swarm.SwarmConserves` | crates/amparo-agent/src/spawn.rs:213-301 | under every interleaving over all generations: budget left + reserved + ever started is the cap, reports and running children are exactly the started ones, ids are distinct |
| `Swarm.AnswersAreOwn` | crates/amparo-agent/src/spawn.rs:202-336 | under every interleaving, whatever a call runs, reports or was answered with is a child started for it, and so is what the cache holds for its key |
| `Swarm.AnsweredWithOwnRun` | crates/amparo-agent/src/spawn.rs:287-335 | a call in flight is answered with the child it ran itself and the outcome that very run ended with, however the rest of the swarm goes on |
| `Swarm.FourSections` | crates/amparo-agent/src/spawn.rs:213-336 | a call that nothing comes between takes one from the budget, starts its parent's next child, and reports, caches and returns its outcome |
| `Swarm.RefusedExactly` | crates/amparo-agent/src/spawn.rs:202-227 | a blank task is refused exactly when nothing is cached, and a call for want of budget exactly when none is left |
| `Swarm.RefusedChangesNothing` | crates/amparo-agent/src/spawn.rs:209-227 | a refused spawn changes neither budget, ordinals, reports nor cache |
| `Swarm.RetryReplays` | crates/amparo-agent/src/spawn.rs:203-207 | once a call has run its child, every call under the same id gets that result back and starts nothing, however the swarm goes on and whatever task it names |
| `Family.SafeIsLawful` | crates/amparo-agent/src/agent.rs:223-346 | a gate-safe trace shows, for each run, a registered tool within the ceiling, a verdict that is no denial, and a human yes where one was due |
| `Family.DescendantsAreLawful` | crates/amparo-agent/src/spawn.rs:246-285 | every agent below the root obeys the one ceiling of the spawn tool, at any depth |
| `Family.GenerationsAreAlike` | crates/amparo-agent/src/spawn.rs:246-285 | every generation is made of the same parts: tools and tiers, limits, privacy and the ceiling override are handed on, and a child has no skill to expand |
| `Family.SwarmIsLawful` | crates/amparo-agent/src/spawn.rs:96-120 | the whole swarm obeys its ceilings over crashes and resumes; the children's ceiling is no higher than the root's exactly when no higher override was given |
| `Family.CappedNeverSpawns` | crates/amparo-agent/src/spawn.rs:178-200 | an agent below `ExternalEffector` never spawns, and with the threshold not above it every spawn has a human yes |
| `Family.SpawnAsksHuman` | crates/amparo-agent/src/spawn.rs:6-7 | a human is asked about a spawn exactly when the policy escalates or the threshold is not `SystemControl` |
| `Ledger.LedgerSink.PushTask` | crates/amparo-agent/src/ledger_sink.rs:114-135 | a named start pushes a frame whose parent is the innermost frame or the constructor's chain, unless it is on top already |
| `Ledger.LedgerSink.PopTask` | crates/amparo-agent/src/ledger_sink.rs:142-154 | an end pops its own frame, or the innermost one when it names none |
| `Ledger.LedgerSink.Emit` | crates/amparo-agent/src/ledger_sink.rs:168-286 | one event moves frames, trackers and rows as the reference step says |
| `Ledger.TaskIsStamped` | crates/amparo-agent/src/ledger_sink.rs:103-154 | a whole task with nested children writes exactly the rows of its tree, and restores the stack if and only if its id was not on top already |
| `Ledger.RowsNameTheTree` | crates/amparo-agent/src/ledger_sink.rs:103-109 | every row of a tree names a task of the tree with that task's real parent |
| `Ledger.BookStamps` | crates/amparo-agent/src/ledger_sink.rs:168-266 | an event writes at most one row, in the name of the chain it runs under |
| `Ledger.StartsUnderCurrent` | crates/amparo-agent/src/ledger_sink.rs:103-135 | a starting or resumed task comes under the task booked before it; the sink's own task keeps its own parent |
| `Ledger.FramesAbove` | crates/amparo-agent/src/ledger_sink.rs:114-154 | under any interleaving after a task's start the stack is what lay below, its frame and the frames open above, or holds no frame of it any more |
| `Ledger.StampedRightExactly` | crates/amparo-agent/src/ledger_sink.rs:103-154 | an event of a child is booked under its own chain if and only if its frame is on the stack and no other task's frame is open above; otherwise the innermost open task gets it |
| `Ledger.OverlapMisstamps` | crates/amparo-agent/src/ledger_sink.rs:114-135 | for any two overlapping children, events are right before the second starts and the second's, as a child of the first, after |
| `Ledger.ConcurrentSpawnsMisstamp` | crates/amparo-agent/src/ledger_sink.rs:114-135 | a run of it: the first child's search is recorded as the second's |
| `Ledger.AtMostOneRowEach` | crates/amparo-agent/src/ledger_sink.rs:186-252 | for any stream, network rows and tracked calls together never exceed the network calls requested |
| `Ledger.TrackersTellTheHistory` | crates/amparo-agent/src/ledger_sink.rs:186-205 | a call is tracked if and only if its latest request is open, and the tracker tells that request's tool, site and approval |
| `Ledger.StripsAreRecorded` | crates/amparo-agent/src/ledger_sink.rs:253-269 | each privacy strip leaves exactly one row with its counts, in order, whatever else happens |
| `Ledger.OthersLeaveNoRow` | crates/amparo-agent/src/ledger_sink.rs:168-286 | an event that is no strip and closes no open request leaves no row |
| `Ledger.ClosingRow` | crates/amparo-agent/src/ledger_sink.rs:206-252 | the row that closes a call says its tool, site, outcome and gate as the history has them |
| `Approvals.ApprovalRouter.Register` | crates/amparo-chat/src/router.rs:53-66 | a registration drops the sender it supersedes |
| `Approvals.ApprovalRouter.Take` | crates/amparo-chat/src/router.rs:74-92 | only the requester's press removes the entry and gets the sender |
| `Approvals.ApprovalRouter.Unregister` | crates/amparo-chat/src/router.rs:99-107 | removing an entry notifies its waiter with false |
| `Approvals.OnlyTheRequesterApproves` | crates/amparo-chat/src/gate.rs:75-150 | in every interleaving a gate that returned true was auto-approved, or its own user pressed Approve on its own buttons, routed to its own sender |
| `Approvals.VerdictsAreFinal` | crates/amparo-chat/src/gate.rs:112-149 | a verdict never changes, so a press after the end changes none |
| `Approvals.SendersAreNeverLost` | crates/amparo-chat/src/router.rs:53-107 | every sender is in exactly one place: the map, one press, used, or dropped |
| `Approvals.StrangersChangeNothing` | crates/amparo-chat/src/router.rs:81-87 | the router is unchanged exactly when the key is unknown or the presser is not the requester |
| `Approvals.PressDecides` | crates/amparo-chat/src/driver.rs:812-835 | the requester's press on a registered gate, sending or waiting, becomes its verdict, and a second press is already decided |
| `Approvals.AskRegisters` | crates/amparo-chat/src/gate.rs:75-100 | automatic approval touches no entry; else an ask registers an open sender of its own and drops the one it supersedes |
| `Approvals.EveryWaitEnds` | crates/amparo-chat/src/gate.rs:101-149 | a waiting gate ends with the value sent, with no once its sender was dropped, and with no after a timeout or a failed send, which take the entry away |
| `Approvals.GiveUpHarmsSuccessorExactly` | crates/amparo-chat/src/gate.rs:101-145 | in every state, a gate that gives up after a failed send or a timeout leaves every other sender alone if and only if the entry of its key is gone or its own; otherwise the holder is denied |
| `Approvals.FailedSendDeniesSuccessor` | crates/amparo-chat/src/gate.rs:101-112 | a run that hurts: the superseding gate is denied with nobody having pressed |
| `Approvals.CancelLeavesEntry` | crates/amparo-chat/src/gate.rs:176-181 | the outer timeout, at any time before the end, leaves the router entry behind, and the next press is routed to nobody |
| `Scheduler.DueScan` | crates/amparo-chat/src/schedule.rs:105-128 | the due and the missed indices, each ascending and complete, and disjoint |
| `Scheduler.IndicesExact` | crates/amparo-chat/src/schedule.rs:110-127 | an index list ascends and holds exactly the set positions |
| `Scheduler.Driver.OnMessage` | crates/amparo-chat/src/driver.rs:488-506 | a message claims its chat unless the chat is busy |
| `Scheduler.Driver.Release` | crates/amparo-chat/src/driver.rs:80-84 | dropping a claim frees exactly its chat |
| `Scheduler.Driver.ScanSchedules` | crates/amparo-chat/src/driver.rs:869-909 | one tick: claims for the due promises of free chats, then the missed copies |
| `Scheduler.Driver.ClaimDue` | crates/amparo-chat/src/driver.rs:873-892 | the claim loop, in index order |
| `Scheduler.Driver.HoldMissed` | crates/amparo-chat/src/driver.rs:893-904 | the missed promises are held for saving, busy or not |
| `Scheduler.Driver.MissOne` | crates/amparo-chat/src/driver.rs:914-931 | a miss is saved, or left pending when the save fails |
| `Scheduler.Driver.RecordFire` | crates/amparo-chat/src/driver.rs:1080-1087 | a fire ends in one save that may fail |
| `Scheduler.ClaimsAndFiresAreSafe` | crates/amparo-chat/src/driver.rs:869-1092 | in every interleaving with saves that fail or not: the busy set is the chats in flight, one task per chat, fires only inside `[at, at + grace]`, and at most one more fire than failed saves per promise |
| `Scheduler.MessageClaims` | crates/amparo-chat/src/driver.rs:488-506 | a message to a free chat claims it and starts a task whose end gives everything back; to a busy chat it does nothing |
| `Scheduler.EndFrees` | crates/amparo-chat/src/driver.rs:80-84 | the end of a task frees its chat for the next message and ends no other |
| `Scheduler.ScanExactly` | crates/amparo-chat/src/driver.rs:869-904 | of the loaded due promises the first of each free chat fires at the scan's clock, and the missed ones are held |
| `Scheduler.SavesExactly` | crates/amparo-chat/src/driver.rs:914-1087 | a fire is saved fired, or missed if it could not run, a miss missed, and a failed save changes nothing; only new promises are added and only pending ones cancelled |
| `Scheduler.SettledStaysSettled` | crates/amparo-chat/src/schedule.rs:46-58 | a promise that left pending never becomes pending again |
| `Scheduler.NoExpiredPromiseStaysPending` | crates/amparo-chat/src/driver.rs:893-904 | after a scan of the whole queue and its saves, nothing past its window is pending |
| `Scheduler.WaitingIsNotMissedNext` | crates/amparo-chat/src/schedule.rs:120-125 | a promise waiting at one scan is not missed at a scan at most one grace later |
| `Scheduler.DueAtLeast` | crates/amparo-chat/src/schedule.rs:105-128 | with scans at most a tick apart and `n` ticks in the grace, a promise is due in `n` scans running before it can be missed |
| `Scheduler.DueTwice` | crates/amparo-chat/src/driver.rs:49-54 | with 30 s and 60 s that is two scans |
| `Scheduler.UnsavedFireFiresAgain` | crates/amparo-chat/src/driver.rs:1082-1087 | a fire whose save fails fires again exactly at a scan inside the window |
| `Scheduler.RunningFireIsMissedExactly` | crates/amparo-chat/src/driver.rs:893-904 | in every state, a scan takes a pending promise whose fire is running for missed if and only if the grace is over, and the fire runs on |
| `Scheduler.MissedWhileRunning` | crates/amparo-chat/src/driver.rs:893-931 | such a promise is recorded missed, and fired afterwards |
| `Scheduler.StaleClaimExactly` | crates/amparo-chat/src/driver.rs:874-887 | a claim fires exactly when the loaded copy is due and the chat is free, whatever became of the promise since it was loaded |
| `Scheduler.StaleScanFiresAgain` | crates/amparo-chat/src/driver.rs:870-892 | claims made from a queue loaded before the fire was saved and released fire it again, with every save succeeding |
| `Journal.JournalFile.Append` | crates/amparo-agent/src/session.rs:332-377 | the marker is numbered by the lines there are, an open one included, and appended with its newline |
| `Journal.JournalFile.Read` | crates/amparo-agent/src/session.rs:382-404 | lines that do not decode are skipped |
| `Journal.JournalsReadInOrder` | crates/amparo-agent/src/session.rs:326-404 | for every history of appends and torn writes, each event read back has its own line number as sequence, so sequences strictly increase |
| `Journal.AppendIsReadBack` | crates/amparo-agent/src/session.rs:332-404 | a completed append is read back if and only if the file was empty or ended in a newline; otherwise the open line is lost with it |
| `Codecs.CodecExists` | crates/amparo-agent/src/session.rs:326-331 | what the journal asks of its serializer is consistent: an encoding with braces only at its ends meets it |
| `Sessions.Latest` | crates/amparo-agent/src/session.rs:254-295 | the scan for the newest checkpoint with a wanted status: it finds one if there is one, and no wanted checkpoint started later, or together with it under a greater id |
| `Sessions.ListIncomplete` | crates/amparo-agent/src/session.rs:479-517 | the scan for the resume list: exactly the running and suspended checkpoints, starts not rising, ids not rising at equal starts |
| `Sessions.SortedIsStable` | crates/amparo-agent/src/session.rs:512-516 | the resume list is the stable descending permutation: start times and then ids do not rise, same contents, equal keys in directory order |
| `Sessions.BeforeExactly` | crates/amparo-agent/src/session.rs:282-289 | the order of ids is decided at the first position where they differ |
| `Sessions.LatestIsHeadOfList` | crates/amparo-agent/src/session.rs:466-517 | for every directory order, ties and broken files included, the newest resumable checkpoint is the head of the list, and the list is exactly the running and suspended ones |
| `Sessions.JsonCheckpointStore.SuspendTask` | crates/amparo-agent/src/session.rs:412-430 | suspend re-saves as suspended and journals, or finds nothing |
| `Sessions.JsonCheckpointStore.KillTask` | crates/amparo-agent/src/session.rs:440-458 | kill saves and journals unless the journal already ends in a kill |
| `Sessions.KillIsIdempotentExactly` | crates/amparo-agent/src/session.rs:440-458 | a second kill changes nothing if and only if the journal ended in a newline before the first, or its readable part already ended in a kill |
| `Sessions.MarkersAreWritten` | crates/amparo-agent/src/session.rs:412-458 | on a journal without an open line, suspend and kill leave exactly their own marker, with the next number and the steps used, set the status, and touch no other task |
| `Sessions.DirForExactly` | crates/amparo-agent/src/session.rs:243-250 | a tenant's directory is the tenant with each colon replaced |
| `Sessions.SuspendRevives` | crates/amparo-agent/src/session.rs:412-418 | suspend makes any task resumable, a killed one too |
| `Sessions.SaveAfterKillCannotBeKilled` | crates/amparo-agent/src/session.rs:440-450 | a killed task that saves once more runs again, and a further kill leaves it running if and only if its journal ends in the old one |
| `Principal.Fnv1a56Masked` | crates/amparo-agent/src/principal.rs:23-32 | the 64-bit loop masked at the end is the recurrence run on 56-bit numbers |
| `Principal.TruncationCommutes` | crates/amparo-agent/src/principal.rs:26-31 | truncating once at the end and truncating at every step agree |
| `Principal.StepIsBijective` | crates/amparo-agent/src/principal.rs:28-29 | each step is a bijection of the 56-bit ring, with an explicit inverse, and separates bytes |
| `Principal.SuffixKeepsDifference` | crates/amparo-agent/src/principal.rs:27-30 | a common suffix neither makes nor removes a collision |
| `Principal.XorByte` | crates/amparo-agent/src/principal.rs:28-28 | mixing in a byte changes the low byte only |
| `Principal.PrincipalIsItsHash` | crates/amparo-agent/src/principal.rs:37-39 | a principal is `agent:` and at most 14 lower-case hexadecimal digits, equal exactly when the hashes are |
| `Principal.OneByteApart` | crates/amparo-agent/src/principal.rs:37-39 | two session ids differing in exactly one byte never share a principal |
| `Principal.PublishedVectors` | crates/amparo-agent/src/principal.rs:46-50 | the published vectors of the empty text and of `a` |
| `PathSegment.EncodePathSegment` | crates/amparo-agent/src/web_approval.rs:174-183 | the loop over the bytes is the byte-by-byte encoding |
| `PathSegment.RoundTrip` | crates/amparo-agent/src/web_approval.rs:174-183 | percent-decoding gives every id back |
| `PathSegment.EncodingIsInjective` | crates/amparo-agent/src/web_approval.rs:174-183 | different ids have different segments |
| `PathSegment.EncodedIsSegment` | crates/amparo-agent/src/web_approval.rs:165-183 | an encoded id consists of safe characters and `%XX` triples only |
| `PathSegment.SegmentsSmuggleNothing` | crates/amparo-agent/src/web_approval.rs:165-173 | no `/`, `?`, `#` or `&` occurs in such a segment |
| `PathSegment.FixedPointsAreSafe` | crates/amparo-agent/src/web_approval.rs:165-183 | an id comes out unchanged, or just as long, if and only if all its bytes are safe |

## Left out

- JSON, RFC 3339 and UTF-8 decoding: frames, markers, instants and characters are given decoded. Bytes are decoded chunk by chunk in the source, so `Sse` speaks of chunks cut on character boundaries.
- The texts of nudges, prompts, observations and summaries are parameters (`Gate.Wording`); so are the policy target of a call and the parsing of its arguments.
- Inside one batch attempts start and finish in any order, but an executor reads and changes the world in one step, when it finishes; events of a sub-agent's own run belong to that run.
- The fallback of a call whose executor is missing, which the gate rules out.
- Token and cost accounting, the case library, rollback hints, blackboard rows, session labels and the council's rules other than evidence.
- Reply post-processing before verification (think tags) is part of the `verify` function of the environment.
- A failing checkpoint save: `Crashes` takes the save at the head of an iteration as done. The lifecycle markers of `run` and `resume` are not part of a run's events.
- PII strip and restore are arbitrary functions; the privacy decision is fixed per agent.
- Swarm: the task text handed to a child is not carried along; the ordinal bump and the spawn event are one section; unbounded numbers stand for the machine words, which the cap keeps small. Ids are unique within one swarm in one process, as in the source.
- Ledger: time stamps and failing row writes; the host part of a URL is given with the request.
- Approvals: message texts and edits, and time itself: timeouts are moves that may happen at any moment.
- Scheduler: queue files that do not parse are simply not loaded; the order of a loaded queue is arbitrary, which includes the sorted one. Building the fired task and its report is not modelled; a fire that is refused on the way counts as a fire in the bound.
- Sessions: file permissions, temporary files and I/O errors other than a missing checkpoint; a save is an atomic update. The standard library's stable sort is an insertion sort here, shown to be the stable sort.
- Network clients, chat transports, command-line parsing, the web interface and the hub side of fan-out approval.
