# Verification of the FlexSMC gateway

FlexSMC runs secure multi-party computations on a network of peers that a gateway coordinates.
A task becomes an instruction (participants and a list of phases); a worker of the gateway opens
one chat to every participant, sends the phases one after the other, gathers the replies and
streams them to the client, which aggregates them and may resume a halted job with fewer peers.
This project models that machinery in Dafny and proves what it guarantees, for all peers, all
failures, all timings and all orders in which Go visits its maps.

## How the modules fit together

| module | about |
|---|---|
| `Protocol`, `MapOrder` | messages, status flags as bit vectors; maps visited in any order |
| `Chat` | one chat as a state machine: two capacity-1 channels, handler, stream, peer |
| `Channels` | all chats of a job as mutable channels with everybody else's steps in between |
| `JobModel` | the job engine as functions on values, given what the peers did |
| `JobEngine`, `JobSteps` | the engine as an object whose methods are proved equal to those functions |
| `JobInvariant`, `JobRuns`, `JobLifetime`, `JobHistory` | theorems on one query, one run, any history of runs, reschedules and aborts |
| `JobVerdicts` | how a run ends and what a reschedule hands to the next one, decided by what the client knows |
| `JobTraffic` | what was said on a job's channels over any history: the phases asked and answered are those of the messages |
| `JobLimits`, `JobScenarios`, `Numbering` | where recycling falls short of what one expects, exactly when, and in which runs |
| `Handover`, `Linearization` | workers, queue and clients interleaved at single steps, and why their jobs have histories |
| `Aggregator` | the client's incremental evaluation of the stream against a batch rule |
| `Session`, `SessionEngine`, `MockSession` | the peer's sessions, token pool and bridge |
| `Watcher`, `Participants`, `Selection`, `Pipeline` | who is online, and building the instruction |

Where the source works step by step on mutable state the model does too: `ActiveJob`, `Network`,
`TokenPool`, `FrescoSession`, `MockSession`, `PeerWatcher`, `Registry`, `JobInstruction` and
`Pipeline` are classes whose methods loop and assign as the source does. Each is tied to a
specification on values, and the theorems are about those values. What the environment decides
(answers of peers and backend, expired contexts, iteration orders) comes in as arbitrary choices
that are returned as ghost results, so that every theorem holds for all of them; the contracts say
which choices the contexts and the backend allow. Between any two
operations the job's log has every command that was ever put on its channels, one to one and in
order, and every feedback pulled from them (`JobEngine.ActiveJob.Valid`), so that no operation can
say more or less on any channel than its specification does.

## What the proofs found

* `recycleJob` drops unused chats before it installs the new instruction, so it compares with the
  participants of the *previous* one. A peer left out keeps its chat for one more run, possibly with
  the channel ID that another peer has just been given, and a peer that was left out once and is
  named again loses its chat and joins in the middle of the protocol. `JobLimits` has the exact
  conditions, `JobScenarios` complete histories of a job with two peers.
* After PREPARE no new table is sent, but a new instruction numbers its participants from 1 again:
  dropping any peer but the last ones makes the stamped IDs disagree with the table
  (`Numbering.DroppedPeerBreaksIDs`; `JobScenarios.LeftoverSharesAnID` is a complete history).
* If a job was recycled but could not be enqueued in time, neither a worker nor the client can do
  anything with it any more; its chats stay open (`JobHistory.StrandedForever`,
  `JobScenarios.StrandedWithAChat`).
* A communication failure seen by the worker counts with all bits of `STREAM_ERR` (129) and aborts a
  job of the orchestration, while the same class reported in a status is masked and halts it
  (`JobRuns.OrchestrationFlags`).
* The aggregator never yields a value for a stream that starts above phase 0, so a job resumed after
  its first phase fails for the client even if every peer succeeded (`Aggregator.ResumedIsEmpty`;
  `JobScenarios.FinishedButEmpty` is a complete history).
* The interface asks a client to turn to a job only after it saw `Result()` closed. Less is enough and
  necessary: aborting is safe at any time, and recycling can make a worker panic iff the job is halted
  but its feedback not yet closed at that moment (`Handover.ActingIsSafeIff`). The repository's own
  client can get there, because the aggregator returns early on inconsistent results or an expired
  context (`Aggregator.ReturnsEarly`, `Handover.LeftTooEarly`).

## Model

| member | source | states |
|---|---|---|
| `Protocol.IncludesUnion` | orchestration/worker/job.go:324-328 | comparing the accumulated flags once decides like comparing each flag alone |
| `Protocol.StatusClasses` | proto/job/job.proto:125-142 | every error status has the one class the engine decides by, success has none, and the masks are made of the classes they are named for |
| `Chat.EnvKeeps` | node/gateway.go:122-152 | no step of the handler or the peer breaks the chat's invariant, or touches what the engine did |
| `Chat.InstructKeeps` | directory/talk.go:71-87 | on a chat with no command outstanding the buffer has room, and the invariant is kept |
| `Chat.PullKeeps` | orchestration/worker/job.go:341-362 | what is pulled answers the command instructed last, and leaves nothing outstanding |
| `Chat.ReachableInv` | node/gateway.go:122-152 | the invariant holds after every interleaving of engine, buffers, handler, stream and peer |
| `Chat.StopAndWait` | directory/talk.go:33-59 | in every interleaving at most one message is in flight, the i-th pulled feedback answers the i-th command, neither side ever meets a full buffer, closed chats included |
| `Chat.PeersWord` | node/gateway.go:122-148 | in every interleaving the peer takes a prefix of the commands unchanged, and the i-th feedback pulled is what it said to the i-th command, or STREAM_ERR after a failed receive, and then no feedback ever follows |
| `Chat.WhyReturned` | node/gateway.go:122-148 | a handler stops only when its chat is closed and every command taken, or its stream failed |
| `Chat.LateReplyWithoutClosing` | orchestration/worker/job.go:308-314 | a chat instructed again after a failed pull can deliver the late reply for the new command: revoking it is necessary |
| `Channels.Network.Interfere` | node/gateway.go:122-152 | other parties' steps keep all chats sound and leave commands, pulls and closings alone |
| `Channels.Network.RequestChat` | directory/peerinfo.go:121-138 | a new chat is a line never used before with nothing on it iff a handler would take it in time; else there is none and the context is done |
| `Channels.Network.Instruct` | directory/talk.go:71-87 | requires an open chat with nothing outstanding; fails only by the context, and then sent nothing |
| `Channels.Network.PullRespUntilDone` | orchestration/worker/job.go:341-362 | a result answers the last command of this chat; without one the context is done and nothing was taken; a context done before does not keep feedback that waits from being taken |
| `Channels.Network.Close` | directory/talk.go:98-100 | requires that the channel is open, as a second close panics; closes this one only |
| `JobModel.ErrFlagClassifies` | orchestration/worker/job.go:290-311 | the code's tests on the computed flag agree with those on the peer's status, for a failed pull and for any status |
| `JobInvariant.RevokeConserves` | orchestration/worker/job.go:223-238 | revoking any peers keeps the account of chats: each line live or closed, never both, closed once |
| `JobInvariant.RevokeTwice` | orchestration/worker/job.go:223-238 | revoking in two steps equals revoking the union, so a peer listed twice is closed once |
| `JobInvariant.OpenPeersFacts` | orchestration/worker/job.go:181-218 | opening keeps all old chats; a new one is on a line its own peer took, with its own channel ID |
| `JobInvariant.OpenPeersConserves` | orchestration/worker/job.go:181-218 | opening keeps the account of chats, for every order and every subset of peers that answer |
| `JobInvariant.OpensAll` | orchestration/worker/job.go:181-218 | success connects all participants; nothing is opened and nobody missing iff all were connected before |
| `JobRuns.HandledIffIncluded` | orchestration/worker/job.go:297-327 | the flags accumulated over both loops are included in the handled ones iff each failure's own flags are |
| `JobRuns.QueryDecision` | orchestration/worker/job.go:322-333 | no error iff no chat failed; halted iff every accumulated bit is handled; with flags 0 every failure aborts |
| `JobRuns.OrchestrationFlags` | orchestration/orchestration.go:61 | with the flags 32 and 128 a failed query halts iff every chat delivered a status without the fault class |
| `JobRuns.RepliesCount` | orchestration/worker/job.go:286-320 | responses and failed peers together make up the chats visited |
| `JobRuns.RepliesAreClean` | orchestration/worker/job.go:286-320 | every response kept is what some chat answered, free of error classes |
| `JobRuns.RepliesExactly` | orchestration/worker/job.go:286-320 | each response without an error class is kept once for each chat that gave it, and no other |
| `JobRuns.NamedPeers` | orchestration/worker/job.go:280-299 | the peers named by the error of a query are exactly those whose chats failed, in either loop |
| `JobRuns.QueryPartition` | orchestration/worker/job.go:267-336 | responses plus distinct failing peers equal the chats at entry; the error names exactly the failing peers |
| `JobRuns.QueryKeepsChats` | orchestration/worker/job.go:308-329 | chats that failed on the communication layer are gone; other failing ones are kept iff the job halts; the rest is untouched |
| `JobLifetime.QueryKeeps` | orchestration/worker/job.go:267-336 | a query keeps the account of chats, and only asked phases are answered |
| `JobLifetime.PhaseKeeps` | orchestration/worker/comm.go:92-105 | one phase keeps the whole invariant; the feedback is closed iff the query failed, and progress moves iff it did not |
| `JobLifetime.AllAnswered` | orchestration/worker/comm.go:91-105 | without an error every live chat has answered this phase without an error class |
| `JobLifetime.PhaseBarrier` | orchestration/worker/comm.go:91-105 | one phase keeps the barrier: live chats have answered all phases below progress |
| `JobLifetime.RunLength` | orchestration/worker/comm.go:91-105 | a run queries at most as often as tasks remain, hence ends |
| `JobLifetime.PhasesKeep` | orchestration/worker/comm.go:91-105 | the loop over the remaining tasks keeps invariant and barrier |
| `JobLifetime.ProcessKeeps` | orchestration/worker/comm.go:72-110 | a complete run keeps the invariant, closes the feedback, and never moves progress back |
| `JobLifetime.ProcessBarrier` | orchestration/worker/comm.go:72-110 | the barrier survives a run that starts at phase 0 or with all participants connected |
| `JobLifetime.RestampKeeps` | orchestration/worker/job.go:107-116 | setting channel IDs changes nothing else, and succeeds iff every peer of the instruction has a chat |
| `JobLifetime.RecycleKeeps` | orchestration/worker/job.go:94-133 | recycling, refused or not, keeps invariant, progress and barrier |
| `JobLifetime.RecycleSucceedsIff` | orchestration/worker/job.go:94-116 | a recycle succeeds iff the job is halted, the tasks are no fewer and all new participants are connected; which error it returns otherwise; whatever the map order |
| `JobLifetime.RecycleBracket` | orchestration/worker/job.go:107-126 | a recyclable job is recycled; the live chats are then those of the previous participants, peers of the new instruction among them carry one of their new IDs, all others keep theirs |
| `JobLifetime.ResumesConnectedIff` | orchestration/worker/job.go:184-191 | a recycled job finds all participants connected, so opens nothing, iff they were participants before |
| `JobLifetime.AbortKeeps` | orchestration/worker/job.go:143-154 | aborting a halted job closes its chats and ends it for good |
| `JobHistory.ChatsConserved` | orchestration/worker/job.go:143-154 | over every history: opened is live plus closed, no line closed twice, and once the job is over each line ever opened has been closed exactly once |
| `JobHistory.ProgressMonotone` | orchestration/worker/job.go:364-373 | over every history progress never falls and never passes the number of tasks |
| `JobHistory.PhaseBarrier` | orchestration/worker/comm.go:91-105 | over every history with shrinking participants: live chats answered all phases below progress cleanly, nobody was asked a phase above it, a resumed run finds everybody connected |
| `JobHistory.ProcessChats` | orchestration/worker/job.go:181-205 | a run has chats with peers it had before and with its participants only |
| `JobHistory.NoStrangers` | orchestration/worker/job.go:107-126 | over any chain of shrinking recycles a job has chats with its first participants only; after each successful recycle, enqueued or not, every peer of the new instruction is connected under a channel ID given to it there |
| `JobHistory.OverForever` | orchestration/worker/job.go:97-103 | a finished or aborted job is refused by reschedule and abort, and stays exactly as it is |
| `JobHistory.PhasesWithoutFlags` | orchestration/orchestration.go:85 | with flags 0 the loop over the phases cannot halt |
| `JobHistory.LastRun` | orchestration/orchestration.go:85 | after a reschedule with flags 0 the next run ends the job with all chats closed |
| `JobHistory.StrandedForever` | orchestration/worker/comm.go:50-61 | a recycled job that was not enqueued never changes again, whatever anybody does |
| `JobHistory.RescheduleLeaksIff` | orchestration/worker/comm.go:50-61 | a reschedule that could not enqueue leaves open chats nobody can close iff the job was recyclable and a previous participant connected |
| `JobHistory.RunDelivers` | orchestration/worker/comm.go:91-105 | the stream holds, for each phase queried and no other, exactly the clean responses of that query in order |
| `JobHistory.FinishedRun` | orchestration/worker/comm.go:91-109 | a run without error did every phase; its stream holds one response of every chat for each phase from its start on |
| `JobHistory.FailedRun` | orchestration/worker/job.go:381-392 | a run with an error stopped below the last phase, or sent nothing |
| `JobVerdicts.OpenedIff` | orchestration/worker/job.go:188-205 | a peer has a chat afterwards iff it had one or took a talk request; whoever is named missing was a participant without one |
| `JobVerdicts.MissingPeers` | orchestration/worker/job.go:188-217 | the peers a run misses are exactly its participants without a chat, if no peer is listed twice |
| `JobVerdicts.OpeningVerdict` | orchestration/worker/job.go:207-217 | a run that misses somebody halts iff its client handles COMM errors and aborts otherwise, at the job's phase, naming whom it missed; halted, it keeps all chats and can be recycled with exactly the instructions for peers it has reached; aborted, it has closed them and cannot |
| `JobVerdicts.CleanButLast` | orchestration/worker/comm.go:91-105 | the loop ends with an error iff the last query had a missing answer or one with an error class; all before were clean |
| `JobVerdicts.PhasesVerdict` | orchestration/worker/job.go:322-333 | the error of the loop: its phase, exactly the failing peers, halted iff the client handles every flag raised, and which chats are left |
| `JobVerdicts.RunVerdict` | orchestration/worker/comm.go:72-110 | every run ends without error iff it was flawless, at the last task; else it halts iff the client's flags handle what happened and is aborted with all chats closed iff not; an expired one contacts nobody |
| `JobVerdicts.RescheduleHandsOver` | orchestration/worker/job.go:121-130 | a reschedule of a recyclable job hands the new instruction, the phase, an open feedback, and the flags given with it, else the old ones, to the next run; a refused one changes none of them |
| `JobVerdicts.FlagsDecideNextRun` | orchestration/worker/job.go:127-129 | whether the run after a reschedule halts or aborts is decided by the flags passed with the reschedule, by the old ones if none were |
| `JobVerdicts.LastReschedule` | orchestration/orchestration.go:85 | after a reschedule with flags 0 that got into the queue, whatever the next run meets, the job is over with every chat closed |
| `JobLimits.LiveAreNewIff` | orchestration/worker/job.go:117-126 | exactly when recycling a recyclable job leaves just the chats of the new participants, as its comment intends |
| `JobLimits.BarrierAfterResumeIff` | orchestration/worker/job.go:107-119 | after the resumed job has tried to open what it misses, whoever answered, the barrier holds iff progress is 0 or no new chat was opened |
| `JobLimits.NoNewChatIff` | orchestration/worker/job.go:181-218 | if everybody answers, no new chat is opened iff the participants shrank |
| `JobLimits.DistinctIDsIff` | orchestration/worker/job.go:107-126 | live chats carry distinct IDs iff no chat of a participant left out keeps an ID that is given anew to a previous participant; for every recyclable job with distinct IDs |
| `JobScenarios.ReturningPeerLosesItsChat` | orchestration/worker/job.go:240-256 | a complete history, from the submission through two halts, after which a peer that is named again has had its chat closed all the same, and the next run breaks the barrier |
| `JobScenarios.LeftoverSharesAnID` | orchestration/worker/job.go:240-256 | a complete history after which two live chats have the same channel ID, and one of them disagrees with the table of the PREPARE that all peers have answered |
| `JobScenarios.FinishedButEmpty` | orchestration/aggregation/aggregator.go:59-61 | a complete history of a resumed job that finishes, all peers having computed the same result, and is an empty job for the client |
| `JobScenarios.StrandedWithAChat` | orchestration/worker/comm.go:50-61 | a complete history after which a job has an open chat that nothing anybody can do will ever close |
| `JobEngine.ActiveJob.constructor` | orchestration/worker/job.go:81-92 | a new job is at phase 0 with no chats, an open feedback and no error |
| `JobEngine.ActiveJob.IsJobHalted` | orchestration/worker/job.go:162-170 | true iff the last error is a halt |
| `JobEngine.ActiveJob.RevokePeerChat` | orchestration/worker/job.go:229-238 | closes and forgets this peer's chat if there is one, and nothing else; no message is touched |
| `JobEngine.ActiveJob.RevokePeerChats` | orchestration/worker/job.go:223-227 | revokes the set of the listed peers, each chat once |
| `JobEngine.ActiveJob.CloseUnusedChats` | orchestration/worker/job.go:240-256 | revokes exactly the peers that are no participants of the job's current instruction, and says nothing on any channel |
| `JobEngine.ActiveJob.CloseAllChats` | orchestration/worker/job.go:258-263 | closes every live chat once, in any order, leaves none, and says nothing on any channel |
| `JobEngine.ActiveJob.OpenPeerChats` | orchestration/worker/job.go:181-218 | opens what is missing on new lines; halts or aborts by the COMM flag and misses exactly the participants without a chat of which no handler would take one in time, which takes the context running out; says nothing on any channel |
| `JobEngine.ActiveJob.Instruct` | directory/talk.go:71-87 | the command goes out with the chat's own channel ID, or the context is done and it did not |
| `JobEngine.ActiveJob.Disseminate` | orchestration/worker/job.go:274-282 | every live chat is instructed once; the failed ones are listed, and raise STREAM_ERR; none fails while the context lasts |
| `JobEngine.ActiveJob.Collect` | orchestration/worker/job.go:283-320 | every chat is pulled once; responses, failing peers, kicked chats and accumulated flags are those of the specification; no answer is missing while the context lasts |
| `JobEngine.ActiveJob.QueryTargetsSync` | orchestration/worker/job.go:267-336 | result, error and new state are those of the specification, each result answers the command that this query put on that chat, and nothing else was put on any channel or pulled from it: the log grows by this exchange; every command is delivered and every answer collected unless the context ends |
| `JobEngine.ActiveJob.SendFeedback` | orchestration/worker/job.go:377-379 | requires an open feedback; appends one result tagged with the progress |
| `JobEngine.ActiveJob.HaltOrAbort` | orchestration/worker/job.go:381-392 | requires an open feedback; sets the error, closes it, and closes all chats iff the error aborts; says nothing on any channel |
| `JobEngine.ActiveJob.RemainingTasks` | orchestration/worker/job.go:364-369 | the tasks from progress on, none if there are no more |
| `JobEngine.ActiveJob.RunPhase` | orchestration/worker/comm.go:92-104 | one turn of the loop is one phase of the specification, and the command sent, the only one, is the task at the job's progress |
| `JobEngine.ActiveJob.RunPhases` | orchestration/worker/comm.go:91-105 | the loop is the sequence of phases of the specification, on the channels too, and stops at an error or at the last task |
| `JobEngine.ActiveJob.ProcessJob` | orchestration/worker/comm.go:72-110 | the whole run is a run of the specification, and what it put on the channels is what that run logs; it is expired iff the job's context was done at its start, misses exactly the participants without a chat that no handler would serve before the opening's context ran out, and a command or an answer only if the job's context did |
| `JobEngine.ActiveJob.Work` | orchestration/worker/comm.go:64-70 | a worker that takes the job adds one whole run to its history, expired, incomplete or with losses only as the contexts and handlers allow |
| `JobEngine.ActiveJob.Restamp` | orchestration/worker/job.go:109-116 | sets the IDs in map order and stops at the first peer without a chat, keeping what it has set |
| `JobEngine.ActiveJob.RecycleJob` | orchestration/worker/job.go:94-133 | state and error are those of the specification; the context changes iff it succeeds; says nothing on any channel |
| `JobEngine.ActiveJob.RescheduleOpenJob` | orchestration/worker/comm.go:44-62 | recycle, then enqueued or not, as one action of the job's history; not enqueued only if its context ran out |
| `JobEngine.ActiveJob.Abort` | orchestration/worker/job.go:143-154 | works iff the job is halted; closes all chats and clears the error; one action of the job's history |
| `JobEngine.ChannelsConserved` | orchestration/worker/job.go:143-154 | at any point between its operations the object has closed exactly the command channels that no live chat uses, and all of them once its job is over |
| `JobEngine.ChannelsKeepBarrier` | orchestration/worker/comm.go:91-105 | on the object's channels at any point between its operations: what was asked and answered is what was said; every command ever sent was the job's task for its phase in some run, none above progress; and unless a reschedule named new peers, each live chat's peer has taken a command of every phase below progress and said what was pulled for it, without an error class |
| `JobTraffic.PhaseRecords` | orchestration/worker/job.go:267-336 | what one phase puts on the channels is what it puts into the ledger |
| `JobTraffic.HistoryRecorded` | orchestration/worker/comm.go:72-110 | over every history the commands on a line are in the order of their phases, the phases asked on it are exactly theirs, and those answered exactly those of the commands whose feedback came without an error class |
| `JobTraffic.SpokenBarrier` | orchestration/worker/comm.go:91-105 | the phase barrier in messages: with shrinking participants each live chat was sent a command of every phase below progress and answered it cleanly, and no command of a later phase was sent to anybody |
| `JobTraffic.EveryCommandIsATask` | orchestration/worker/job.go:274-282 | whatever was ever sent on a line of the job was sent in some run of its history and is the task that the instruction had then for that phase, under the channel ID of the line's chat |
| `Handover.StepKeeps` | orchestration/worker/comm.go:44-110 | every single step of any worker, and of any client that does not recycle too early, keeps the ownership invariant |
| `Handover.OnePartyAtATime` | orchestration/worker/comm.go:64-110 | unless a client recycles too early, in every interleaving, clients that leave or abort at any time included, one party at a time works on a job's chats, no job is run twice at once or queued while running, and no operation on a feedback channel panics |
| `Handover.TrueOutcome` | orchestration/worker/job.go:381-392 | a client that saw the feedback closed reads the true outcome, and finds a halted job at rest |
| `Handover.OverForGood` | orchestration/worker/job.go:97-103 | a job that is over stays over under every further interleaving in which nobody recycles too early |
| `Handover.RefusedForGood` | orchestration/worker/job.go:143-154 | once a job is over its client is refused for ever and never works on the chats again |
| `Handover.ActingIsSafeIff` | orchestration/worker/job.go:94-133 | in every state reached, for a client that may act: acting leads to no panic in any continuation iff it does not recycle a job that is halted with its feedback still open; so an abort never does |
| `Handover.EarlyRecyclePanics` | orchestration/worker/job.go:381-387 | from every such state, full queue included, recycling has a continuation in which the worker closes the new channel and the next run panics |
| `Handover.ContractIsTimely` | orchestration/worker/job.go:38-40 | a client that acts after it saw the close is never too early |
| `Handover.LeftTooEarly` | orchestration/orchestration.go:67-98 | a concrete interleaving in which a client that left its results early recycles too early, and a worker panics |
| `Linearization.InProgressAfter` | orchestration/worker/comm.go:64-70 | how each step changes which jobs are queued or running |
| `Linearization.StepLinks` | orchestration/worker/comm.go:44-110 | every step keeps control state and jobs in agreement, and each job a history |
| `Linearization.EveryJobHasAHistory` | orchestration/worker/comm.go:44-110 | after every interleaving in which no client recycles too early each job is what some sequence of whole runs, reschedules and aborts makes of it, so that all theorems on histories hold for it; error, end and queue membership in the control state are true of it |
| `Aggregator.ConsistentIff` | orchestration/aggregation/aggregator.go:79-108 | consistent results are those that are all absent or all the same number |
| `Aggregator.AnalyzeResultConsistency` | orchestration/aggregation/aggregator.go:79-108 | accepts iff the results are all absent or all present and equal |
| `Aggregator.Process` | orchestration/aggregation/aggregator.go:18-70 | for every stream, closing error and number of tasks, and wherever the context ends it, the outcome is that of the rule, including when an index is out of range |
| `Aggregator.ScanOfSorted` | orchestration/aggregation/aggregator.go:38-49 | on a stream that does not mix phases the incremental checks fail iff some phase before the last one is inconsistent |
| `Aggregator.ReturnsEarly` | orchestration/aggregation/aggregator.go:43-46 | once a result follows on an inconsistent phase the evaluation is over, whatever the worker still sends and however it ends |
| `Aggregator.ThirdResultEndsIt` | orchestration/aggregation/aggregator.go:43-46 | two peers that disagree on the first phase and any answer to the second one are such a stream |
| `Aggregator.RefinesBatch` | orchestration/aggregation/aggregator.go:18-70 | on every complete stream from phase 0 the incremental outcome equals grouping by phase, failing iff some phase is inconsistent, and taking the last phase's value |
| `Aggregator.ResumedIsEmpty` | orchestration/aggregation/aggregator.go:59-66 | on a complete stream from a later phase there is never a value: an empty job iff the phases before the last are consistent |
| `Aggregator.FinishedStream` | orchestration/aggregation/aggregator.go:34-52 | the stream of every finished run is complete from the phase it started at, and empty if it had no chat or nothing to do |
| `Aggregator.AggregatesRuns` | orchestration/orchestration.go:67 | the outcome on the stream of every run of the engine: the error of a failed one unless an earlier phase was inconsistent; of a finished one the batch outcome from phase 0, no value from a later phase, an empty job without chats; out of range iff a job without tasks finished |
| `Aggregator.ValueIsUnanimous` | orchestration/orchestration.go:67 | end to end: a job whose first run finishes yields a value iff in every phase all peers gave the same result, and it is the one all of them gave in the last phase; otherwise the client learns that they disagreed |
| `Session.MoreIffRunning` | smc/smc_fresco.go:131-169 | on a running session NextCmd promises more iff the session is running afterwards, and exactly for which replies |
| `Session.AnswersOwnCommands` | smc/smc_fresco.go:131-152 | a session answers a command of its own by the backend's reply and any other, or a failed call, by DENIED; its ID stays |
| `Session.InitStores` | smc/smc_fresco.go:104-125 | Init succeeds iff the backend accepts it, and then the session has the given ID and is running |
| `Session.InitAccounts` | smc/smc_fresco.go:104-125 | Init stops the session iff it fails, and then returns one token |
| `Session.TearDownAccounts` | smc/smc_fresco.go:171-193 | tearing down stops the session and returns its token once; a second time does nothing |
| `Session.StoppedSessionMisleads` | smc/smc_fresco.go:118-188 | used after it stopped a session can promise more, or return its token again |
| `Session.BridgeStepKeeps` | node/modules/smcadvisor.go:62-150 | every step of the bridge uses running sessions only, initialises at most once, answers each command once, and accounts for the token |
| `Session.BridgeRunKeeps` | node/modules/smcadvisor.go:85-150 | in every run a bridge initialises once at most and has sent one message for each command it took |
| `Session.BridgeAnswers` | node/modules/smcadvisor.go:85-150 | in every run each answer is the backend's reply to that command if it is of the session the first command opened, else DENIED, ABORTED if the session could not be opened, SUCCESS_DONE for a debug command; and the bridge goes on exactly while these promise more and its stream holds |
| `Session.TokensConserved` | smc/smc_fresco.go:29-63 | in every run of any number of bridges free tokens plus sessions not stopped equal the pool |
| `Session.ReturnNeverBlocks` | smc/smc_fresco.go:181-193 | a returned token always finds room, one at most is returned, and none by a stopped session |
| `Session.AllTokensBack` | smc/smc_fresco.go:181-193 | once all bridges ended the pool is full again |
| `SessionEngine.TokenPool.Put` | smc/smc_fresco.go:190-191 | blocks iff the channel is full; the send of a holder never does |
| `SessionEngine.FrescoSession.constructor` | smc/smc_fresco.go:50-57 | a session is running and has taken one token |
| `SessionEngine.FrescoSession.CondFreeResources` | smc/smc_fresco.go:181-193 | stops a session that asked for it and returns its token, otherwise nothing; never blocks for a holder |
| `SessionEngine.FrescoSession.TearDown` | smc/smc_fresco.go:171-179 | state and pool are those of the specification; on a session in order it returns the token at most once and never blocks |
| `SessionEngine.FrescoSession.Init` | smc/smc_fresco.go:104-125 | for every session and reply state, pool, result and blocking are those of the specification; a running session stays in order and never blocks |
| `SessionEngine.FrescoSession.NextCmd` | smc/smc_fresco.go:131-169 | for every session, stopped ones included, and every reply state, pool, answer, promise and blocking are those of the specification; a running session stays in order and never blocks |
| `SessionEngine.FrescoSession.Bridge` | node/modules/smcadvisor.go:85-151 | for every stream, every reply of the backend and every choice of skipped debug commands the loop is a run of the bridge automaton on the first of these messages in order, with the answers and the stop of `BridgeAnswers`, and ends with the session stopped and its token back |
| `MockSession.MockSession.NextCmd` | smc/smc_mock.go:85-120 | the session's step is that of the phase automaton; a token is back iff it is torn down |
| `MockSession.MockSession.AllowPhaseTransition` | smc/smc_mock.go:178-206 | the transition is allowed by the table, and any other one aborts |
| `MockSession.MockSession.TearDown` | smc/smc_mock.go:158-169 | ends the session and returns its token unless that has been done |
| `MockSession.AliveIff` | smc/smc_mock.go:85-206 | a session is alive iff all its commands were PREPAREs of its own |
| `MockSession.Accepts` | smc/smc_mock.go:85-206 | more is promised iff all commands are its PREPAREs, a result is computed iff a SESSION command follows at least one and only those, everything else is denied |
| `Watcher.PeerWatcher.AddOrInc` | directory/watcher.go:63-78 | one connection more for this peer, none changed for others; the change is that of the number of peers online |
| `Watcher.PeerWatcher.DelOrDec` | directory/watcher.go:80-97 | one connection less, unless there is none; a peer at zero is removed; the change is that of the number of peers online |
| `Watcher.PeerWatcher.Watch` | directory/watcher.go:42-61 | every peer's count is the reflected counter of the notifications; the changes add up to the peers online; entries stay at least 1 |
| `Watcher.PeerWatcher.AvailablePeers` | directory/watcher.go:103-113 | exactly the peers with a positive count |
| `Watcher.BalanceCounts` | directory/watcher.go:42-61 | a peer's balance is the number of its online notifications less that of its offline ones |
| `Watcher.Lowest` | directory/watcher.go:80-97 | there is a lowest point of the balance of notifications, and this is it |
| `Watcher.ReflectedCounter` | directory/watcher.go:63-97 | the count is the balance of all notifications minus its lowest point, if that is negative |
| `Watcher.OnlineIff` | directory/watcher.go:42-113 | a peer is online iff since some moment it sent more online than offline notifications |
| `Participants.ParticipantsToList` | directory/participant.go:23-30 | the list has exactly one entry for each participant, in any order |
| `Participants.LessTransitive` | directory/participant.go:18 | the order of peer IDs is transitive |
| `Participants.LessTotal` | directory/participant.go:18 | of two different IDs exactly one is less |
| `Participants.LessDecides` | directory/participant.go:18 | IDs are ordered as in a dictionary: a beginning comes first, else the first difference decides |
| `Participants.Swap` | directory/participant.go:19 | exchanges two entries and keeps all others |
| `Participants.SortbyPeerID` | directory/participant.go:21 | in place, the list is sorted by peer ID and a permutation of what it was |
| `Participants.ListsReordered` | directory/participant.go:21 | reordering keeps a list of the participants one |
| `Selection.Bounds` | orchestration/pipeline/onlinefilter.go:22-33 | for all options 1 <= minimum <= maximum <= MaxInt32 |
| `Selection.SelectedPeers` | orchestration/pipeline/onlinefilter.go:41-51 | the filter leaves min(maximum, online members) distinct online peers; with sorting the first ones |
| `Selection.FirstUnique` | orchestration/pipeline/onlinefilter.go:34-40 | the first so many peers of a pool are unique |
| `Selection.KeptFacts` | orchestration/pipeline/groupmap.go:18-22 | the group map keeps all registered peers, and of more than 2^32 just as many |
| `Selection.FilterOutcome` | orchestration/pipeline/onlinefilter.go:41-58 | on the group map's output the filter fails iff fewer of its peers are online than required |
| `Selection.RenumberedFacts` | orchestration/pipeline/contchans.go:14-25 | renumbering in any order keeps the peers and keys them exactly 1 to n |
| `Selection.ProductionRun` | orchestration/pipeline/pipeline.go:33-48 | for every registry a run succeeds iff enough peers that the group map kept (all, up to 2^32) are online, and then gives distinct registered online peers keyed 1 to n, as many as allowed, and a plan whose PREPARE table lists exactly them |
| `Selection.RetriedProduction` | orchestration/pipeline/pipeline.go:55-68 | there are at most three attempts; retrying fails iff each of three saw too few peers; otherwise the result is that of the first that saw enough |
| `Selection.SameSelection` | orchestration/pipeline/onlinefilter.go:34-40 | with sorting any two runs in which the group map kept the same peers select the same ones; up to 2^32 registered peers it always did |
| `Selection.DebuggingRun` | orchestration/orchestration.go:33-35 | the debugging pipes select alike and plan a countdown of pings whose last one alone announces no more |
| `Selection.DebuggingKeys` | orchestration/pipeline/groupmap.go:18-22 | the participants of a debugging run keep keys from 1 to the number of registered peers |
| `Selection.PlainProduction` | orchestration/pipeline/onlinefilter.go:22-54 | outside debug mode one online peer is enough and all are taken, whatever the options say |
| `Selection.DebugProduction` | orchestration/pipeline/onlinefilter.go:24-39 | in debug mode minNumPeers is how many must be online, maxNumPeers how many are taken at most unless it is below that, sortPeerIDs takes the first ones; each option ignored if absent, textual or not positive |
| `Selection.PlanOptions` | orchestration/pipeline/phasebuilder.go:42-82 | PREPARE, then LINK iff useLinkingPhase is there, then SESSION with batchOpSize if given and positive, else 0; all of one session |
| `Selection.PingOptions` | orchestration/pipeline/pingpong.go:24-41 | the aggregators 1001 and 1002 plan 10 and 100 pings, any other one, each announcing whether more follow |
| `Pipeline.Registry.GetOrCreate` | directory/registry.go:42-51 | one object for each ID: the known one, or a new one that is added |
| `Pipeline.Registry.GetAll` | directory/registry.go:63-74 | every registered object exactly once, in any order |
| `Pipeline.ProcessGroupMap` | orchestration/pipeline/groupmap.go:16-25 | distinct registered peers under distinct keys, all of them, and of more than 2^32 just as many; up to MaxInt32 the keys are 1 to n |
| `Pipeline.Limits` | orchestration/pipeline/onlinefilter.go:22-39 | the bounds and the wish to sort that the debugging options ask for |
| `Pipeline.DeleteOthers` | orchestration/pipeline/onlinefilter.go:44-53 | the loop leaves min(maximum, online) online participants, the first ones on a sorted list; the int32 counter is exact |
| `Pipeline.ProcessOnlineFilter` | orchestration/pipeline/onlinefilter.go:19-67 | for every map order the selection and the error are as promised, and the int32 conversion of the length is exact |
| `Pipeline.Renumber` | orchestration/pipeline/contchans.go:15-22 | for some order of the map the new keys are exactly 1 to n and the values those in that order |
| `Pipeline.ProcessContinousChanID` | orchestration/pipeline/contchans.go:14-25 | the participants are the previous ones renumbered |
| `Pipeline.GivePort` | orchestration/pipeline/phasebuilder.go:31-33 | a port below 10000 is replaced by 10000 plus the channel ID |
| `Pipeline.Table` | orchestration/pipeline/phasebuilder.go:26-39 | one row for each participant under its key, with its port, which is kept if it was 10000 or more and replaced otherwise |
| `Pipeline.ProcessPhaseBuilder` | orchestration/pipeline/phasebuilder.go:16-85 | refuses an instruction with phases; otherwise PREPARE with the table, LINK iff the option is there, SESSION with the batch size |
| `Pipeline.ProcessDbgPingPong` | orchestration/pipeline/pingpong.go:13-44 | refuses an instruction with phases; otherwise the countdown of 1, 10 or 100 pings |
| `Pipeline.Pipeline.Apply` | orchestration/pipeline/pipeline.go:41-46 | each pipe has one of its promised outcomes, and keeps the participants objects of the registry |
| `Pipeline.Pipeline.Process` | orchestration/pipeline/pipeline.go:33-48 | a pass through the selected pipes, the debugging ones iff the aggregator is 1000 or more, up to the first error |
| `Pipeline.Pipeline.ProcessWithRetry` | orchestration/pipeline/pipeline.go:55-68 | up to three passes, each on what the watcher knows after the pauses before it |
| `Numbering.StampedAsTabled` | directory/talk.go:78 | on the first run of a produced instruction every chat stamps the ID under which the PREPARE table lists its peer |
| `Numbering.ResumedAgreesIff` | orchestration/worker/job.go:114-115 | after a recycle the stamps agree with the table sent before iff every participant kept its channel ID |
| `Numbering.DroppedPeerBreaksIDs` | orchestration/pipeline/contchans.go:17-22 | leaving out any but the last peers breaks that agreement |

## Left out

- gRPC, TLS, pairing, mDNS discovery, `Gateway.Run`, `Peer.Operate`: input and output around libraries that are not part of this model.
- Real time, tickers, ping activity and back-off: a context is something that may become done and stays done; in `Channels` it ends within a bounded wait.
- The FRESCO backend: any answer or failure; `ResetAll`, session metadata and the connection to the backend are not modelled.
- Liveness of a worker whose client abandons the stream: its unbuffered send can block for ever; safety for such clients is proved in Handover.
- The final return value of `Request` (its `err` is shadowed) and its early returns that leave a halted job un-aborted: the guarantees are those of the job.
- Concurrent calls of `GetOrCreate`, which can yield two objects for one ID: the registry is used sequentially.
- Distinctness of ports and endpoints, and the IP address of an endpoint: ports persist across jobs and need not differ.
- `benchmark/`, statistics, scripts, certificates, generated marshalling, `JobImplication.String`, text messages in results, peer metadata in a response.
- The copy of the task in a PREPARE and the options in a debug command; which debug commands the peer deals with itself is an input of `SessionEngine`.
- Result values are real numbers or absent: NaN, which differs from itself, is excluded.
- `progress` and the number of tasks are unbounded, the source counts phases in an int32; connection counts are unbounded, the source uses a machine word.
- Peer IDs are strings compared character by character, the source compares bytes; the same for the ASCII host names in use.
- Handover: the queue, workers and clients are a state machine on values; submitting that fails by its context creates no job and is no step.
- Linearization: a run takes effect on the job's value in one step, when its outcome becomes visible; the single sends, pulls and closings in between are those of JobEngine.
- JobEngine.ActiveJob.RescheduleOpenJob: does not model the queue itself, only whether the job got into it; the queue is in Handover and Linearization.
- JobEngine.ActiveJob.IsParticipant: compares peer IDs, the source compares the identity of objects; the same with one object for each ID.
- Channels.Network.RequestChat: does not model which of several waiting handlers of a peer takes the chat, since each serves one chat and then ends.
- MockSession.MockSession.NextCmd: does not model the pauses, nor Init on a session already in use.
- Participants.SortbyPeerID: models the library's sort by an insertion sort, of which only sortedness and permutation are used.
- JobHistory.PhaseBarrier: requires that participants only shrink, because otherwise it is false; `JobLimits.BarrierAfterResumeIff` has the exact condition.
- JobTraffic.SpokenBarrier: requires that participants only shrink, as JobHistory.PhaseBarrier does.
- Numbering.ResumedAgreesIff: does not model what a peer's backend does with an ID that disagrees with its table.
