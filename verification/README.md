# Verified model of agent.cpp

A Dafny model of the parts of agent.cpp where state, concurrency and recovery meet, with proofs about every run of
them. `dafny verify dfyconfig.toml` checks the whole project.

**The durable graph runtime.** Structured workflows are compiled by the builders to flat nodes with exit targets; the
executor interprets the flat graph, forks and joins branches, writes checkpoints and resumes from them. Leaves (Agent,
Function and Tool nodes), loop conditions and routers are arbitrary functions in an environment `Env`.

| file | contents |
|---|---|
| `graphs`, `executor`, `transitions` | the flat graph and one turn, one chain, one fan-out of its interpreter, as functions; every run is a way along the nodes and edges |
| `workflows`, `builders` | structured workflows and their meaning; the builders as loops over node lists |
| `compilation`, `compiler_theorem` | the compiled graph means what the workflow means, exactly for workflows without gaps |
| `congruence`, `durable`, `resume`, `stops` | checkpoints, branch records, resuming; however often a run is stopped and resumed, it ends as if it had not been |
| `checkpoints`, `answers` | what a checkpoint tells, which resumes are taken, and who hears an answer |
| `partial_resume`, `resume_calls` | fan-outs that are answered over any number of resume calls, each of which may be stopped midway |
| `step_needs`, `scripted_runs`, `overruns`, `renewed_steps`, `step_limits` | exactly which step limits make a stop visible |
| `joins`, `nested_schedules`, `schedule_lengths` | what a join gives its parent; interleavings at every depth end alike, after as many turns |
| `worker_slots`, `slot_accounts`, `runner` | worker slots of nested fan-outs, where they go, the driving loops |

**The engine host protocol.** Several callers share one host process over a pipe, with a rotating reader, call numbers,
host generations and shared-memory segments that pass between the processes.

| file | contents |
|---|---|
| `bytes`, `arena`, `codec`, `codec_round_trip`, `codec_frames`, `codec_streams` | the wire format, its round trip, the decode arena bound, payload placement; writer and reader objects |
| `frame_stream`, `remote_calls`, `remote_safety`, `remote_engine` | reassembly of the stream, the call protocol as a step system, one outcome per call, the critical sections as an object |
| `shm_ownership`, `shm_safety`, `shm_accounts`, `response_segments` | ownership of request and response segments over all interleavings, which mappings stay, the host's table |
| `host_jobs`, `host_safety`, `host_queues` | the host's reader, job pool, workers and control thread |
| `callback_frames`, `host_runs` | callbacks and errors as the host sends and the core reads them; one Run on a worker |

**Batching, storage and text.**

| file | contents |
|---|---|
| `batching`, `batching_transparency`, `batch_sequences`, `batch_rounds` | leader and follower rounds; every generation produces what it would produce alone; no cache sequence is lost |
| `async_writer`, `checkpoint_store`, `checkpoint_refinement` | the background writer; the key-value checkpoint adapter against the in-memory one |
| `graph_claims`, `static_cycles` | which nodes of a JSON graph belong to which body, and the cycles it warns about |
| `history_pruning`, `chunker` | pruning a history by groups; cutting a text |

Concurrent code is a step system: a step is one critical section or one blocking call, and a theorem quantifies over
every sequence of enabled steps. Where the code changes state in a loop there is also an object or a loop proved
against the functions of the step system. Fields called history in the comments only record what happened.

## Findings

Where a promise does not hold of the code, the exact condition is proved.

- A nested `make_sequential` without steps, in front of other steps, swallows them: `chain_exits` with an empty target
  leaves the exits of the step before it free. The compiled graph means what the workflow means if and only if no such
  gap exists (`CompilerTheorem.CompilerCorrect`, `CompilerTheorem.EmptyStepSwallows`).
- A resumed run gets the whole `max_steps` again, and so does each of its branches, so a run that alone ends at the
  limit can get through when it is stopped (`StepLimits.OneStopShows`: two nodes, a limit of one). For a workflow
  without gaps, stops at stored checkpoints never show, whatever its nodes do, if and only if the limit is not too short for it
  (`StepLimits.StopsShowExactly`). `StepNeeds.TooShort` reads that off the workflow and the limit: the top-level chain,
  or a branch of a fan-out it can reach, can be asked for more nodes than the limit. Limits of fan-outs nested deeper do
  not show, since those run within one turn. For every graph: stops do not show unless the uninterrupted run ends at
  the limit (`Stops.ManyStops`), and without exception a resumed run is the stopped one with its budgets renewed
  (`Resume.ResumeRenews`).
- The key-value adapter agrees with the in-memory checkpointer after a checkpoint is saved if and only if its contents
  are not empty and its step is neither before the latest nor the largest 64-bit number
  (`CheckpointRefinement.PutAgreesExactly`), and after events are appended if and only if the 64-bit count of batches
  does not wrap or there never was an event (`CheckpointRefinement.AppendAgreesExactly`).
- `store_list` and `store_delete_thread` count with a 64-bit step up to and including the latest. They return, after
  exactly that many rounds, if and only if the latest is not the largest 64-bit number: `CheckpointStore.Adapter.List`
  and `CheckpointStore.Adapter.DeleteThread` say for any number of rounds whether the loop is over by then.
- `send_error` does not look at what `finish` returns. The core reads back exactly the frames of a run if and only if the
  final one is within the frame limit (`HostRuns.ReadsBackExactly`), which all are but an engine's error whose text is
  longer than the limit less 8 bytes (`HostRuns.FinalFits`).
- A side unmaps a shared segment when the other names it for retirement, and the name can get lost: a request that is to
  retire one cannot be encoded or is refused before it is looked into, or a response that replaced one is too long. The
  mapping then stays for the life of the host. Mappings are accounted for at all times if and only if no name of a
  mapped segment is lost this way (`ShmAccounts.MapsAccounted`, `ShmAccounts.SegmentForgotten`).

## Model

| member | source | states |
|---|---|---|
| Graphs.FindNode | src/core/graph/graph_executor.cpp:56-60 | the node found has the name and is in the graph; none is found exactly if no node has it |
| Graphs.FindEdge | src/core/graph/graph_executor.cpp:62-66 | the same for the outgoing edge of a node |
| Executor.FirstFailed | src/core/graph/graph_executor.cpp:765-766 | the reported failure is that of the first failed branch in branch order |
| Executor.FirstKeyClash | src/core/graph/graph_executor.cpp:783-792 | the branch reported for a state key conflict is the first that shares a written key with an earlier branch |
| Executor.FirstHistoryClash | src/core/graph/graph_executor.cpp:793-802 | the same for Agent histories |
| Executor.Settle | src/core/graph/graph_executor.cpp:896-933 | each node costs one step; a failed branch keeps the values and writes of its last completed node; a chain that stops stays on its node (`Transitions` says where one that goes on goes) |
| Executor.Run | src/core/graph/graph_executor.cpp:588-630 | a chain runs until it halts or reaches its end or join; the function terminates (`Transitions.RunAlong` says which way it takes) |
| Transitions.NextNode | src/core/graph/graph_executor.cpp:520-540 | a node that ran and is not sent into a loop body leads along its edge, static or routed, or to its exit where that says END or is missing, and the chain fails exactly if the router fails or names no node |
| Transitions.LeafTurn | src/core/graph/graph_executor.cpp:588-630 | a turn on a leaf calls its body once, with the values of the chain, its conversations and those around it, and the answer the chain carries; what comes back replaces the values, changes only the conversations touched, and pauses, fails or leads on |
| Transitions.LoopTurn | src/core/graph/graph_executor.cpp:493-514 | a loop controller goes into its body until its count or its condition says stop, does not ask the condition before the first pass, and forgets its count when it leaves |
| Transitions.FanTurn | src/core/graph/graph_executor.cpp:683-823 | each branch starts on a copy of the parent's values with no conversation of its own and the whole step budget; if the branches end clean the fan-out hands on what they have and leads along its edge, otherwise it stops and changes nothing |
| Transitions.RunAlong | src/core/graph/graph_executor.cpp:876-938 | every run of a chain, top-level or branch, is a way along the links of its graph: each node it logs is followed by one it is linked to, branches of its fan-outs go such ways from their entries, and it ends where the last node leads or stopped |
| Joins.PausesExactly | src/core/graph/graph_executor.cpp:768-781 | the pauses of all branches are reported branch after branch, each in its own order, unchanged but for the name of the branch |
| Joins.JoinRefused | src/core/graph/graph_executor.cpp:765-802 | a join is refused for the first branch that failed, else for the pauses, else for the first branch that wrote a key of an earlier one, else for the first that used a conversation of an earlier one, each given by its index |
| Joins.JoinExactly | src/core/graph/graph_executor.cpp:765-816 | a fan-out joins exactly if no branch failed or paused and no two wrote one key or used one conversation; then each key and conversation is that of the one branch that has it, or else the parent's |
| Builders.ChainExits | src/core/graph/graph_builders.cpp:29-32 | the loop points exactly the free exits at the target |
| Builders.Append | src/core/graph/graph_builders.cpp:34-38 | nodes and edges are appended in order and the larger step limit wins |
| Builders.MakeSequential | src/core/graph/graph_builders.cpp:50-60 | the loop builds the chained node list of the steps, each step's free exits at the next entry |
| Builders.MakeParallel | src/core/graph/graph_builders.cpp:62-76 | the fan node lists the entries and all branches return to it |
| Builders.MakeLoop | src/core/graph/graph_builders.cpp:78-93 | the controller has the body's entry and the body returns to it |
| Builders.Compile | src/core/graph/graph_builders.cpp:42-93 | applying the builders along a workflow gives the graph of that workflow |
| Builders.BuildNodes | src/core/graph/graph_builders.cpp:29-93 | the nodes that the nested builders leave are those of a direct translation in which every node already has its final exit |
| Compilation.Sim | src/core/graph/graph_executor.cpp:493-630 | the interpreter, placed at the entry of a compiled workflow inside any surrounding graph, runs to its exit with the same nodes visited in the same order, the same data, writes, budget and outcome as the structured workflow |
| CompilerTheorem.ValidFacts | src/core/graph/graph_executor.cpp:72-111 | a compiled graph that validation accepts has distinct good names and the node list of the direct translation |
| CompilerTheorem.SolidRuns | src/core/graph/graph_executor.cpp:876-938 | for every environment, input and step limit, running the compiled graph of a workflow without gaps equals evaluating the workflow |
| CompilerTheorem.CompilerCorrect | src/core/graph/graph_builders.cpp:29-93 | compiled and structured runs agree on every environment, input and step limit if and only if the workflow has no gap |
| CompilerTheorem.EmptyStepSwallows | src/core/graph/graph_builders.cpp:50-60 | for all names, a task, an empty sequence and a task compile to an accepted graph in which the last task is lost |
| CompilerTheorem.RunAvoids | src/core/graph/graph_executor.cpp:520-537 | nodes that no exit, branch or body leads to are never visited |
| CompilerTheorem.RepeatMeaning | src/core/graph/graph_executor.cpp:493-514 | a loop that finishes ran its body n times, at least once, at most max_iterations, and stopped at the first n at which the condition held |
| Congruence.RunAlike | src/core/graph/graph_executor.cpp:588-630 | chains that differ only in temp values and in budget end alike, unless the poorer one runs out of steps |
| Congruence.JoinAlike | src/core/graph/graph_executor.cpp:765-816 | joins of branches that end alike give the same failure, the same pauses or the same joined data |
| Durable.RebuildGivesBack | src/core/graph/graph_executor.cpp:556-584 | parent values plus recorded changes minus erased keys give back a branch's values, temp values aside, even on a reloaded parent |
| Durable.MoveKeepsFinish | src/core/graph/graph_executor.cpp:743-823 | no turn of any branch, nor opening or joining a fan-out, changes what the run ends with |
| Durable.ScheduleIndependent | src/core/graph/graph_executor.cpp:653-677 | after any interleaving of branch turns a run that can go no further equals the left-to-right sequential one, with its values, histories, writes, error and node order |
| NestedSchedules.MoveKeepsFinish | src/core/graph/graph_executor.cpp:683-823 | no turn at any depth of nested fan-outs changes what the tree of chains ends with |
| NestedSchedules.AnyInterleaving | src/core/graph/graph_executor.cpp:653-677 | whatever order the turns of all branches at all depths came in, a tree of chains at rest equals the sequential run |
| ScheduleLengths.MoveCounts | src/core/graph/graph_executor.cpp:653-677 | each turn, at whatever depth, is one of the turns that are left |
| ScheduleLengths.SameLength | src/core/graph/graph_executor.cpp:653-677 | every schedule of nested fan-outs comes to rest, and after the same number of turns |
| NestedSchedules.SomeTurn | src/core/graph/graph_executor.cpp:588-630 | while a tree of chains is not at rest, some chain in it can take a turn |
| Resume.MoveKeepsSound | src/core/graph/graph_executor.cpp:556-584 | after every turn each branch record rebuilds to where its branch is |
| Resume.CrashResume | src/core/graph/graph_executor.cpp:1013-1086 | resuming the checkpoint of any point of a run, in the middle of a fan-out included, ends with the same values, histories and status, unless the whole run ends at the step limit |
| Stops.ResumedSound | src/core/graph/graph_executor.cpp:1013-1086 | a resumed run is a run like any other: its records rebuild to its branches, finished and failed ones included |
| Stops.ManyStops | src/core/graph/graph_executor.cpp:1013-1086 | over any list of stops, each at any point of any schedule, and of the resumed runs too, the run ends as if it had not been stopped, unless it ends at the step limit |
| Stops.StopsAndResumes | src/core/graph/graph_executor.cpp:876-938 | the same for every fresh run, without a condition on the points where it stops |
| StepNeeds.NestedLimitsHide | src/core/graph/graph_executor.cpp:825-843 | no limit is too short for a fan-out inside a branch, however many nodes it needs |
| StepNeeds.Takes | src/core/graph/graph_executor.cpp:588-630 | whatever the nodes do, a chain that gets through a workflow starts at least as many nodes as one pass through every loop needs and at most as many as all iterations need, and one that may start that many does not run out |
| StepNeeds.NoOverrun | src/core/graph/graph_executor.cpp:765-766 | the failure a fan-out reports is never a branch that ran out of steps, unless some branch can be asked for more nodes than the limit while no branch before it is bound to fail |
| StepNeeds.EnoughSteps | src/core/graph/graph_executor.cpp:876-938 | a limit that is not too short ends neither a run nor a branch of its top-level chain, in any environment |
| Overrunning.Reached | src/core/graph/graph_executor.cpp:683-823 | if a branch can overrun, some environment brings the run to that fan-out and that branch to its limit, with every branch before it finished or paused |
| RenewedSteps.TopGetsThrough | src/core/graph/graph_executor.cpp:1013-1086 | a chain that needs finitely many nodes gets through any positive limit when it is stopped at the checkpoint after each |
| RenewedSteps.BranchesGetThrough | src/core/graph/graph_executor.cpp:709-732 | so do the branches of a fan-out, each to the end it has with steps enough |
| StepLimits.StopsShowExactly | src/core/graph/graph_executor.cpp:876-938 | for workflows without gaps: over all environments, inputs and lists of stops at points where a checkpoint is stored, the stopped run ends as the uninterrupted one, if and only if the limit is not too short for the workflow |
| StepLimits.OneStopShows | src/core/graph/graph_executor.cpp:1013-1086 | two nodes and a limit of one: alone the run ends at the limit, stopped after its first node it gets through |
| Resume.ResumeRenews | src/core/graph/graph_executor.cpp:1013-1086 | without exception: resuming equals going on with renewed budgets |
| Checkpoints.StepCounts | src/core/graph/graph_executor.cpp:896-928 | the step number of a run counts the nodes that its top-level chain has completed |
| Checkpoints.StepGoesOn | src/core/graph/graph_executor.cpp:1029-1033 | a resumed run counts on from the checkpoint |
| Checkpoints.TurnTells | src/core/graph/graph_executor.cpp:556-584 | after a turn of a branch its record, and no other, says where it is, whether it is done, paused or failed, what it wrote, and exactly which values differ from the parent's or are gone; after a failure it keeps what it had |
| Checkpoints.PendingExactly | src/core/graph/graph_executor.cpp:689-700 | the branches of a fan-out that have had no turn, and only those, are pending |
| Checkpoints.GoesOnExactly | src/core/graph/graph_executor.cpp:689-700 | a fan-out goes on from its records exactly if the run is at it and the graph still gives it these branches; otherwise it starts afresh |
| Checkpoints.UnjoinedGoesOn | src/core/graph/graph_executor.cpp:765-823 | a fan-out that does not join is stored with its records, and every resume that is taken goes on from them |
| Answers.LeafAnswered | src/core/graph/graph_executor.cpp:1061-1085 | a run that stopped at a leaf is taken up by calling that leaf with the stored values and conversations, with the input under temp:human_input if there is one, and with the whole answer if tool calls wait for it, else never as approved, and with nothing if there is no input either |
| Answers.AskedStored | src/core/graph/graph_executor.cpp:910-922 | a leaf that asks leaves a waiting checkpoint with its question, its conversations and its values without `temp:` ones |
| Answers.AskedAndAnswered | src/core/graph/graph_executor.cpp:393-409 | from the question to the answer: the leaf that asked is the one called, with what it left and what it asked for |
| Answers.StaysUntold | src/core/graph/graph_executor.cpp:600-601 | where no node is to be told anything, none is for the rest of the run, in any schedule |
| Answers.ToldOnce | src/core/graph/graph_executor.cpp:904-905 | after the first turn of a resumed run outside a fan-out no node is told anything |
| Answers.OthersUntold | src/core/graph/graph_executor.cpp:702-740 | a branch that did not pause is told nothing; one that paused and has no answer, of its own or for all, stays paused, and a failed run takes no answer for all |
| Answers.BranchAnswered | src/core/graph/graph_executor.cpp:714-733 | a branch that paused at a leaf is taken up by calling that leaf with what the branch left, the conversations around it and its own answer |
| Answers.BranchesToldOnce | src/core/graph/graph_executor.cpp:590-601 | each branch is told its answer by its first turn and nothing after it, in any interleaving |
| PartialResume.TurnsSave | src/core/graph/graph_executor.cpp:588-630 | during one call the record of each branch is the one its own turns save, whatever the other branches do |
| PartialResume.CallAdvancesRecords | src/core/graph/graph_executor.cpp:1041-1060 | one resume call, uniform or per branch, in any schedule, moves each record by exactly its own answer |
| PartialResume.AdvanceHolds | src/core/graph/graph_executor.cpp:690-741 | a record that holds a branch still holds it after both were answered and ran on |
| PartialResume.LifeHolds | src/core/graph/graph_executor.cpp:690-741 | the same over any sequence of resumes |
| ResumeCalls.SessionKeeps | src/core/graph/graph_executor.cpp:709-732 | over any list of resume calls, stopped midway or not, a branch recorded Done runs no node again and keeps its record, and so does a pause that none of the calls answered |
| ResumeCalls.CallHolds | src/core/graph/graph_executor.cpp:556-584 | one call, in any schedule and stopped after any turns, leaves records that hold each branch as its answer and its turns would have moved it in memory; an answer that led to no turn is lost |
| ResumeCalls.SessionHolds | src/core/graph/graph_executor.cpp:1041-1060 | the same over any list of calls, each reloading what the one before stored |
| ResumeCalls.SessionEnds | src/core/graph/graph_executor.cpp:765-816 | the call after any such list ends with the data, histories and status of the run in memory whose branches were given the same answers and turns and never stored |
| ResumeCalls.UncutLives | src/core/graph/graph_executor.cpp:690-741 | when no call was stopped, the answers alone say what the branches in memory are |
| ResumeCalls.AnsweredJoin | src/core/graph/graph_executor.cpp:1013-1086 | all that for every fan-out, paused, failed or stopped in the middle, of any fresh run with any stops before it |
| PartialResume.GroupingFree | src/core/graph/graph_executor.cpp:1041-1060 | calls that leave a branch unanswered do not change what it ends with |
| PartialResume.TopAnswered | src/core/graph/graph_executor.cpp:1061-1085 | a pause outside a fan-out resumes as if the answer had been given in memory (`Answers.AskedAndAnswered` says what the node is told) |
| Runner.RunBranch | src/core/graph/graph_executor.cpp:588-630 | the branch loop computes the chain's end |
| Runner.TakeTurn | src/core/graph/graph_executor.cpp:825-843 | one turn of the loop, nested fan-outs included, computes the step |
| Runner.GraphRun.RunTracked | src/core/graph/graph_executor.cpp:588-630 | a top-level branch runs to its end by its own turns alone, with one checkpoint of the run as it then is after each; other branches are untouched and each checkpoint written resumes to the run's end |
| Runner.GraphRun.Drive | src/core/graph/graph_executor.cpp:876-938 | the top-level loop, of a fresh or a resumed run, answered or not, ends as the run is defined to end; there are moves from its start to its end such that, if durable, the checkpoints written are, in order, one of the run as it then is after each turn of the top-level chain or of a branch and each join that does not end the run, and then that of the end, which tells how it ended; unless a human answered, every checkpoint before it resumes to that end |
| Runner.RunFresh | src/core/graph/graph_executor.cpp:1121-1129 | a fresh run ends as defined, stores exactly the checkpoints that its moves call for and its end, and every one on the way resumes to that end, unless it ends at the step limit |
| Runner.ResumeRun | src/core/graph/graph_executor.cpp:1013-1086 | given a checkpoint: a completed run is over at once and stores nothing; otherwise a resume is refused exactly if an answer is for nothing that waits, else it ends as the reloaded run does and stores exactly the checkpoints that its moves call for and its end; without an answer they resume to that end again |
| Runner.WrittenReached | src/core/graph/graph_executor.cpp:556-584 | each checkpoint written on the way is the run as some of its moves led to, at a point where one is stored, and says that it is underway |
| Runner.StepsInOrder | src/core/graph/graph_executor.cpp:923-931 | the step numbers of a run's checkpoints never go back |
| WorkerSlots.SlotTable.Acquire | src/core/graph/graph_executor.cpp:635-644 | the slots taken are free, in order, as many as wanted or as there are, and exactly they become used |
| WorkerSlots.SlotTable.Release | src/core/graph/graph_executor.cpp:646-649 | exactly the slots given back become free |
| WorkerSlots.StepKeeps | src/core/graph/graph_executor.cpp:653-677 | opening a fan-out, starting a worker, claiming and finishing a branch, leaving and joining keep slots, owners and claimed branches in order |
| WorkerSlots.FanOutSafe | src/core/graph/graph_executor.cpp:653-677 | over every interleaving of nested fan-outs no two running threads have one arena index and no branch is started twice |
| WorkerSlots.JoinComplete | src/core/graph/graph_executor.cpp:653-677 | when a fan-out can be joined, each of its branches was run exactly once and has finished |
| WorkerSlots.NeverStuck | src/core/graph/graph_executor.cpp:653-677 | while a fan-out is open some thread can move |
| SlotAccounts.SlotsAccounted | src/core/graph/graph_executor.cpp:634-677 | a slot in use belongs to a fan-out that is open, so none is lost; and a running branch has a thread with a slot of its own unless its fan-out got none |
| Arenas.Allocate | src/core/arena.cpp:30-39 | a block is aligned, inside the buffer and after all blocks handed out before; on failure nothing changes |
| Arenas.ArenaObject.Take | src/core/arena.cpp:30-39 | a block is aligned, in the buffer and apart from every block handed out since the last reset; there is none exactly if no aligned block of that size fits behind those |
| Arenas.ArenaObject.Reset | src/core/arena.cpp:41-41 | no block is outstanding, and whatever fits into the buffer at all can be taken again |
| Arenas.WordsFit | src/core/arena.cpp:30-39 | blocks of whole words cost their size; only the first pays for alignment |
| Bytes.BackI64 | src/core/engines/engine_ipc.hpp:343-347 | signed integers survive the wire |
| Codec.PutPart | src/core/engines/engine_ipc.hpp:141-152 | a part takes at least 40 bytes and 8 for each dimension |
| Codec.Placed | src/core/engines/engine_ipc.hpp:126-139 | a placed payload is in the segment, what was placed before it is kept, and the fill mark moves past it |
| CodecRoundTrip.DataBack | src/core/engines/engine_ipc.hpp:261-276 | a payload, inline or placed, is read back, empty ones as missing |
| CodecRoundTrip.PartBack | src/core/engines/engine_ipc.hpp:244-277 | a part is read back exactly, or the arena is out; not the latter if its need fits |
| CodecRoundTrip.MessageBack | src/core/engines/engine_ipc.hpp:279-305 | the same for a message with all its parts and calls |
| CodecRoundTrip.CountFits | src/core/engines/engine_ipc.hpp:154-167 | in a frame within the limit no count is cut by its 32 bits |
| CodecFrames.Frame | src/core/engines/engine_ipc.hpp:102-108 | there is a frame exactly if the payload is within the limit |
| CodecFrames.HeaderBack | src/core/engines/engine_ipc.hpp:382-390 | header and payload of a frame are found in front of whatever follows it |
| CodecFrames.RequestBack | src/core/engines/engine_ipc.hpp:308-328 | a request is read back exactly, or the arena is out; not the latter if its need fits |
| CodecFrames.ResponseBack | src/core/engines/engine_ipc.hpp:330-337 | the same for a response |
| CodecFrames.MessageCharge | src/core/engines/engine_ipc.hpp:370-373 | what decoding a message takes is at most four times its own wire bytes |
| CodecFrames.RunFrameRoundTrip | src/core/engines/engine_ipc.hpp:169-179 | any Run frame that finish accepts comes back: header, segment names and exactly the request with nothing left over, in a reset arena of 5n + 4096 bytes at any address |
| CodecFrames.ResponseFrameRoundTrip | src/core/engines/engine_ipc.hpp:181-185 | the same for Response frames |
| CodecFrames.SegmentOfMessages | src/core/engines/engine_ipc.hpp:169-179 | the segment of a request is filled by its parts alone, in order, whatever messages they are in |
| CodecFrames.PayloadsApart | src/core/engines/engine_ipc.hpp:126-139 | placed payloads lie in the segment, never overlap, and are all counted |
| CodecFrames.ExtentsOnWire | src/core/engines/engine_ipc.hpp:126-139 | the offsets and sizes written to the frame are, in order, exactly those places |
| CodecFrames.LargePlaced | src/core/engines/engine_ipc.hpp:194-204 | in a segment of shm_bytes exactly the payloads that reach the threshold are placed, in order |
| CodecStreams.Writer.Begin | src/core/engines/engine_ipc.hpp:93-98 | a frame opens with a zero size, its type and id |
| CodecStreams.Writer.Finish | src/core/engines/engine_ipc.hpp:102-108 | the size is patched in place to make the frame, or the buffer stays and false is returned |
| CodecStreams.Writer.Payload | src/core/engines/engine_ipc.hpp:126-139 | appends and places what the codec says |
| CodecStreams.Writer.PartOf | src/core/engines/engine_ipc.hpp:141-152 | appends a part |
| CodecStreams.Writer.MessageOf | src/core/engines/engine_ipc.hpp:154-167 | appends a message, its loops included |
| CodecStreams.Writer.RequestOf | src/core/engines/engine_ipc.hpp:169-179 | appends a request |
| CodecStreams.Writer.ResponseOf | src/core/engines/engine_ipc.hpp:181-185 | appends a response |
| CodecStreams.Writer.RunFrame | src/core/engines/engine_remote.cpp:795-803 | the calls that write a Run leave one whole frame of it behind what was in the buffer, or false exactly if it does not fit |
| CodecStreams.Writer.ResponseFrame | tools/engine-host/engine_host.cpp:378-388 | the same for a Response |
| CodecStreams.Reader.Take | src/core/engines/engine_ipc.hpp:348-355 | takes bytes or latches failure; never reads past the end |
| CodecStreams.Reader.Payload | src/core/engines/engine_ipc.hpp:261-276 | accepts a payload only inside the frame or the segment |
| CodecStreams.Reader.PartIn | src/core/engines/engine_ipc.hpp:244-277 | reads a part as the codec says, telling malformed frames from an arena that is out |
| CodecStreams.Reader.MessageIn | src/core/engines/engine_ipc.hpp:279-305 | reads a message; counts are checked before space is taken for them |
| CodecStreams.Reader.RequestIn | src/core/engines/engine_ipc.hpp:308-328 | reads a request |
| CodecStreams.Reader.ResponseIn | src/core/engines/engine_ipc.hpp:330-337 | reads a response |
| FrameStream.MoreArrives | src/core/engines/engine_remote.cpp:343-359 | what arrives later leaves the frames already complete as they are and joins what was left |
| FrameStream.BadStays | src/core/engines/engine_remote.cpp:346-349 | a size above the limit ends the stream at the same frame whatever follows |
| FrameStream.CutsDoNotMatter | src/core/engines/engine_remote.cpp:341-368 | however the stream is cut into reads the frames taken are those of the whole |
| FrameStream.StreamBack | src/core/engines/engine_ipc.hpp:375-390 | frames written one after the other are parsed back |
| RemoteCalls.FindCall | src/core/engines/engine_remote.cpp:307-311 | an active call with the number is found, or there is none |
| RemoteSafety.StepKeeps | src/core/engines/engine_remote.cpp:455-488 | every step of callers, reader, timers and host keeps the protocol invariant |
| RemoteSafety.OneOutcome | src/core/engines/engine_remote.cpp:219-268 | in every reachable state: a call was given exactly the frames with its number from its own host since it began, in order; one that ended well went through those up to the first final frame; one that failed was never given a final frame; one without outcome has a live host of its generation |
| RemoteSafety.CallbacksInOrder | src/core/engines/engine_remote.cpp:425-452 | the frames a call's thread has gone through are a prefix of those that came, with nothing final before the last |
| RemoteSafety.LogIsStream | src/core/engines/engine_remote.cpp:341-368 | in every reachable state the frames dispatched for the present host, with those held, are the frames of all bytes read from it, whoever read them |
| RemoteSafety.ReleasedByReader | src/core/engines/engine_remote.cpp:174-187 | a step that lets the host go is the reader's own, or nobody reads |
| RemoteSafety.ReadersHost | src/core/engines/engine_remote.cpp:469-488 | a caller in its blocking read is the only reader and its host is alive |
| RemoteSafety.NoLostWakeup | src/core/engines/engine_remote.cpp:455-488 | a caller asleep has nothing to wake up for and another one is reading |
| RemoteSafety.NeverStuck | src/core/engines/engine_remote.cpp:455-488 | a call that does not sleep can take its next step without the host, exactly unless it is the one reader in a blocking read with nothing delivered; its host is then alive and whatever comes from it, bytes or the end of the pipe, moves the call on |
| RemoteSafety.OwnStepsEnd | src/core/engines/engine_remote.cpp:455-488 | no caller spins: each of its own steps goes through frames it was given or brings it nearer to its end, to the blocking read or to sleep, and changes other calls only by waking them |
| RemoteSafety.HostLost | src/core/engines/engine_remote.cpp:174-268 | when the host goes, a new generation begins with nothing held back, every call that it owed a final frame fails and is awake, and all others keep what they have |
| RemoteEngine.Engine.FindSlot | src/core/engines/engine_remote.cpp:307-311 | the loop finds that call |
| RemoteEngine.Engine.Acquire | src/core/engines/engine_remote.cpp:491-515 | a free slot or a new one gets the next number and the present generation, everything else reset |
| RemoteEngine.Engine.GoDown | src/core/engines/engine_remote.cpp:219-226 | exactly the calls of the present host without outcome fail; the generation moves on and the buffer is empty |
| RemoteEngine.Engine.Receive | src/core/engines/engine_remote.cpp:341-368 | appending, dispatching and compacting give the step of the protocol; false exactly for a size above the limit; the read offset stays small |
| RemoteEngine.ProcessBytes | src/core/engines/engine_remote.cpp:425-452 | going through the bytes of an inbox sees its frames up to the first final one |
| ShmSafety.StepKeeps | tools/engine-host/engine_host.cpp:295-376 | every step of the core's calls and the host's jobs keeps the ownership invariant |
| ShmSafety.PayloadsIntact | src/core/engines/engine_remote.cpp:766-842 | in every reachable state of one host: a run that may read its request segment finds its own request there, mapped; a response on its way or held open lies in a busy segment that still holds it; every busy segment is owned or about to be released |
| ShmSafety.OwnedStays | tools/engine-host/engine_host.cpp:346-376 | no step chooses, rewrites, frees, retires or unmaps the response segment of a call that keeps its stage |
| ShmSafety.ReadStays | src/core/engines/engine_remote.cpp:766-798 | no step rewrites, or unmaps on the host, the request segment of a run that keeps its stage |
| ShmAccounts.OpenableStep | src/core/engines/engine_remote.cpp:517-533 | every step keeps: a request segment without a name is mapped by the host; one with a name belongs to a call on its way |
| ShmAccounts.RequestsStep | src/core/engines/engine_remote.cpp:766-799 | a step keeps the host's request mappings among the segments that the core knows, to use or to retire, exactly if it does not make the core forget one that is mapped |
| ShmAccounts.ResponsesStep | tools/engine-host/engine_host.cpp:346-395 | a step keeps the core's response mappings among those that the host has or is about to retire exactly if it is no error frame in place of an answer that retires a mapped one |
| ShmAccounts.MapsAccounted | src/core/engines/engine_remote.cpp:766-842 | over a host's life: it can open every request segment that it is told of, and each side has mapped only what the other still uses or will have it unmap, at all times, if and only if no name was lost |
| ShmAccounts.SegmentForgotten | src/core/engines/engine_remote.cpp:766-803 | a run in which a name is lost, because the request that was to retire the segment could not be encoded |
| ResponseSegments.Table.BestFit | tools/engine-host/engine_host.cpp:353-354 | the smallest free segment that fits, the first of equals, or none fits |
| ResponseSegments.Table.DropFree | tools/engine-host/engine_host.cpp:357-363 | the first free segment goes, or all are busy |
| ResponseSegments.Table.Place | tools/engine-host/engine_host.cpp:346-376 | the best free segment is used, or else one free segment makes way for a new one |
| ResponseSegments.Table.Release | tools/engine-host/engine_host.cpp:441-445 | exactly the segments of that call become free |
| ResponseSegments.PlaceIsSafe | tools/engine-host/engine_host.cpp:346-376 | placing keeps every busy segment; what it names is the call's and large enough; what it retires was free and is gone |
| HostSafety.StepKeeps | tools/engine-host/engine_host.cpp:398-462 | every step of reader, workers and control thread keeps the scheduling invariant |
| HostSafety.OneAnswerPerRun | tools/engine-host/engine_host.cpp:398-419 | at any time the runs received are those answered, each once, and those with a job of their own, and no run is both |
| HostRuns.RunJob | tools/engine-host/engine_host.cpp:281-396 | on every path, whatever fails, a run sends the callbacks it was asked for and then exactly one final frame with its number, the response if everything went well; what the core reads from the frames before the last is exactly the engine's callbacks that were asked for and fit a frame, in order; the response's segment stays taken exactly if the final frame names it |
| HostRuns.ReadsBackExactly | tools/engine-host/engine_host.cpp:171-186 | the core reads back exactly those frames if and only if the final one is within the frame limit |
| HostRuns.FinalFits | tools/engine-host/engine_host.cpp:177-186 | it is, unless it is an error whose text does not fit, and the host's own texts do |
| HostRuns.FinalReads | tools/engine-host/engine_host.cpp:281-396 | what the core reads from a final frame within the limit: the host's refusal, the engine's error or that the answer is too long, each with its status and text, or else the answer |
| CallbackFrames.CallbackBack | src/core/engines/engine_remote.cpp:425-452 | the core reads a chunk's kind and bytes and a progress report's step and total as the engine gave them |
| CallbackFrames.ErrorBack | src/core/engines/engine_remote.cpp:564-570 | the core reads the status and text of an error within the limit as they were sent, and an empty frame as malformed |
| CallbackFrames.ProcessFrames | src/core/engines/engine_remote.cpp:425-452 | frames that have arrived are worked off in order up to the first final one |
| CallbackFrames.HeardExactly | tools/engine-host/engine_host.cpp:254-274 | the callbacks read are exactly, in order, those that were asked for and are no chunk above the limit |
| HostRuns.HeardAsSent | tools/engine-host/engine_host.cpp:281-330 | the engine is asked exactly the request that the core wrote |
| HostRuns.AnswerComesBack | tools/engine-host/engine_host.cpp:378-395 | what the core decodes from the final frame is what the engine answered |
| HostSafety.CancelReachesItsRun | tools/engine-host/engine_host.cpp:433-440 | a run is told to stop exactly if a Cancel with its number came while it was known, although jobs are pooled |
| HostSafety.QueuedRunsHaveWorkers | tools/engine-host/engine_host.cpp:446-462 | queued runs have idle or starting workers unless the cap is reached, and no wakeup is lost: some worker will look at the queue |
| HostSafety.NeverStuck | tools/engine-host/engine_host.cpp:398-419 | while a run is owed its final frame some worker can go on |
| HostSafety.InstanceOutlivesRuns | tools/engine-host/engine_host.cpp:479-488 | no run is inside an instance that is destroyed or being destroyed |
| HostSafety.InstancesEnd | tools/engine-host/engine_host.cpp:479-500 | every engine instance made is the one in use, on its way out, or destroyed, and only one of these |
| HostQueues.Queues.OnRun | tools/engine-host/engine_host.cpp:446-452 | a pooled or new job takes the run with its cancel flag cleared |
| HostQueues.Queues.OnCancel | tools/engine-host/engine_host.cpp:434-440 | exactly the queued and running jobs with the number are flagged |
| BatchingTransparency.RowIsSolo | engines/llama/llama_engine.cpp:123-145 | one row of a round moves a generation on as decoding alone would |
| BatchingTransparency.RoundKeeps | engines/llama/llama_engine.cpp:106-154 | a whole round, successful or not, keeps the invariant of every generation |
| BatchingTransparency.StepKeeps | engines/llama/llama_engine.cpp:64-154 | so does every step of every generation |
| BatchingTransparency.Transparent | engines/llama/llama_engine.cpp:1101-1142 | in every reachable state a generation that has not failed has exactly the tokens it would have had alone |
| BatchingTransparency.PositionsInContext | engines/llama/llama_engine.cpp:1482-1485 | its sequence holds consecutive positions from 0, none at or past the context size |
| BatchingTransparency.OneResultEach | engines/llama/llama_engine.cpp:106-117 | results are only there for callers that wait for them, and a caller without one is in an open round that somebody leads |
| BatchSequences.NoSequenceLost | engines/llama/llama_engine.cpp:61-79 | at any time each cache sequence is free or used by one generation and not both, so a released one can be had again |
| BatchSequences.RoundResultsOnly | engines/llama/llama_engine.cpp:106-154 | a round hands out its own results, good if it was, and leaves those that wait to be collected |
| BatchSequences.FailsWithItsDecodes | engines/llama/llama_engine.cpp:106-154 | as long as every decode goes well no generation fails; one whose prompt cannot be decoded does |
| BatchRounds.RowsApart | engines/llama/llama_engine.cpp:126-136 | rows of different sequences do not see each other |
| BatchRounds.Rounds.BuildBatch | engines/llama/llama_engine.cpp:126-134 | row i is request i with its own token, position and sequence |
| BatchRounds.Rounds.Lead | engines/llama/llama_engine.cpp:123-153 | every joined caller gets one result, drawn with its own sampler from its own row, and its sequence moves on by one; nobody else is touched |
| BatchRounds.Rounds.DecodePrompt | engines/llama/llama_engine.cpp:213-235 | a prompt decoded in chunks leaves what decoding it at once leaves; on failure no position moves |
| AsyncWriter.StepKeeps | src/core/graph/graph_checkpointer.cpp:330-369 | every step keeps queue, hand, counters and error in agreement with what happened |
| AsyncWriter.WritesInOrder | src/core/graph/graph_checkpointer.cpp:301-369 | over every interleaving jobs are applied in order, at most capacity + 1 are outstanding, a flush that may return finds all queued before it applied and the first error since the flush before, and after the thread leaves everything is applied |
| AsyncWriter.StopsForGood | src/core/graph/graph_checkpointer.cpp:305-372 | after a stop request nothing more is queued, and the thread has left exactly if it took its leave, with everything in the store |
| AsyncWriter.NeverStuck | src/core/graph/graph_checkpointer.cpp:330-369 | flush and a full queue wait only for the store |
| AsyncWriter.Thread.Drain | src/core/graph/graph_checkpointer.cpp:353-369 | from the stop on the loop applies the whole queue in order and keeps the first error |
| CheckpointStore.DecimalBack | src/core/graph/graph_checkpointer.cpp:156-164 | step numbers are read back from their decimal text |
| CheckpointStore.KeysDiffer | src/core/graph/graph_checkpoint.cpp:18-24 | equal keys mean equal family, thread and suffix, whatever colons the thread ids have |
| CheckpointStore.WriteSlot | src/core/graph/graph_checkpointer.cpp:120-144 | writing under a key changes that slot and no other |
| CheckpointStore.Adapter.Put | src/core/graph/graph_checkpointer.cpp:134-144 | afterwards reading that step and reading the latest give the blob, an empty one as missing, and the latest step is this one; other steps, the event log and other threads read as before |
| CheckpointStore.Adapter.List | src/core/graph/graph_checkpointer.cpp:166-188 | the probing loop answers with the steps up to the latest that are there, after exactly that many rounds, or never if the latest is the largest 64-bit number |
| CheckpointStore.Adapter.AppendEvents | src/core/graph/graph_checkpointer.cpp:211-220 | the log that reads back is the one before and the batch, unless the count of batches wraps; checkpoints and other threads read as before |
| CheckpointStore.Adapter.ListEvents | src/core/graph/graph_checkpointer.cpp:222-235 | the loop joins the batches, or reports the first that is missing or corrupt |
| CheckpointStore.Adapter.DeleteThread | src/core/graph/graph_checkpointer.cpp:237-262 | the loop empties what the thread has, after exactly as many rounds as there are steps up to the latest, or never gets past them if the latest is the largest 64-bit number |
| CheckpointRefinement.RelatedAgree | src/core/graph/graph_checkpointer.cpp:146-235 | related stores answer latest, per step, list and event questions alike |
| CheckpointRefinement.StepKeeps | src/core/graph/graph_checkpointer.cpp:33-103 | each operation on both sides keeps them related, deletion and reuse included |
| CheckpointRefinement.SameAnswers | src/core/graph/graph_checkpointer.cpp:120-262 | after any operations whose steps, contents and counts the two conditions below allow, the adapter answers every question about every thread as the in-memory checkpointer does |
| CheckpointRefinement.BackwardsDiffers | src/core/graph/graph_checkpointer.cpp:166-188 | a checkpoint before the latest step hides the later ones from the adapter's list |
| CheckpointRefinement.PutAgreesExactly | src/core/graph/graph_checkpointer.cpp:134-144 | saving keeps the two in agreement if and only if the contents are not empty and the step is neither before the latest nor the largest 64-bit number |
| CheckpointRefinement.AppendAgreesExactly | src/core/graph/graph_checkpointer.cpp:211-220 | appending keeps the two in agreement if and only if the 64-bit count of batches has room or there never was an event |
| GraphClaims.SuccessorsExactly | src/core/graph/graph_json.cpp:331-349 | a node can lead to the closing node of a sequential one, or else to whatever its first edge names, routed cases and fallback included, except the end |
| GraphClaims.Chain | src/core/graph/graph_json.cpp:351-363 | the worklist ends with exactly the nodes reachable from the start without passing the stop, each once |
| GraphClaims.Exits.Claim | src/core/graph/graph_json.cpp:365-380 | succeeds exactly if no member belongs to another target; each claimed node then leaves to its owner's target and all other nodes as before |
| GraphClaims.Exits.AssignExits | src/core/graph/graph_json.cpp:382-407 | fails exactly if some node is asked to leave to two targets, the top level included; otherwise every node reachable from a loop's body or a branch without its controller leaves to the controller, every node of a step to the next step or, after the last, to the closing node, and every other node as before |
| StaticCycles.StaticNextExactly | src/core/graph/graph_json.cpp:431-438 | a loop node goes nowhere for certain, a sequential one to its first step, any other along its fixed edge or to its exit where that ends or is missing |
| StaticCycles.FindCycles | src/core/graph/graph_json.cpp:440-463 | what is reported are cycles, no node is in two of them, and the nodes on cycles are exactly the nodes reported |
| StaticCycles.NextLinked | src/core/graph/graph_json.cpp:431-438 | in a graph whose targets are nodes every static transition leads to a node |
| StaticCycles.WarnStaticCycles | src/core/graph/graph_json.cpp:429-463 | in each cycle reported every node goes on to the next, and a node is in one exactly if its static transitions lead back to it |
| StaticCycles.LeavesForGood | src/core/graph/graph_json.cpp:440-463 | a node whose way leads into a closed set it is not in, or to an end, is on no cycle |
| HistoryPruning.FreshCount | src/core/executor/turn_executor.cpp:79-106 | a message never counts as nothing |
| HistoryPruning.FreshCountExactly | src/core/executor/turn_executor.cpp:79-106 | a message counts as the sum of what the provider says to its role, content and each call's name and arguments, or, if that is nothing, as a quarter of their length and three more, rounded up |
| HistoryPruning.Counted | src/core/executor/turn_executor.cpp:79-106 | a message is counted once: what it counted as stays, whichever provider is asked later |
| HistoryPruning.FindFixedStart | src/core/executor/turn_executor.cpp:130-133 | the leading system messages are fixed; if there is nothing else, all but the last are |
| HistoryPruning.GroupSize | src/core/executor/turn_executor.cpp:145-157 | the group at a message is it and the tool messages that belong to it |
| HistoryPruning.FindDrop | src/core/executor/turn_executor.cpp:135-164 | the drop ends at a group and is the shortest such that fits, or ends at the last group because none fits |
| HistoryPruning.KeptWellFormed | src/core/executor/turn_executor.cpp:166-168 | dropping up to a group leaves no tool message without its call |
| HistoryPruning.Prune | src/core/executor/turn_executor.cpp:118-176 | the result is the fixed messages and a suffix from a group on with at least one message, as short a drop as fits or all but the last group, and well formed if the history was |
| Chunker.ParagraphExactly | src/core/rag/chunker.cpp:17-23 | a paragraph ends at a newline with another before it and only blanks between, within the window |
| Chunker.FindBreak | src/core/rag/chunker.cpp:35-45 | the last break of the strongest kind in the back half of the window, or the last place that is no tail byte |
| Chunker.WholeIsNoTail | src/core/rag/chunker.cpp:10-10 | in valid UTF-8 (section 3 of RFC 3629) characters begin exactly at bytes that are no continuation bytes |
| Chunker.CutIsWhole | src/core/rag/chunker.cpp:35-45 | with room for four bytes a window of valid UTF-8 that starts with a character ends with one |
| Chunker.Trimmed | src/core/rag/chunker.cpp:47-51 | only spaces are trimmed |
| Chunker.StepBack | src/core/rag/chunker.cpp:70-77 | the next window starts at the first place, at most the overlap back and after the start of the last one, that follows a space, or at its end |
| Chunker.ChunkText | src/core/rag/chunker.cpp:55-81 | refuses exactly the sizes that make no sense; otherwise ends with chunks of at most size bytes whose starts increase, overlapping by at most the overlap, that have every byte that is no space; each ends where its window is best cut, spaces aside, and the next starts where stepping back leads; and they split no character of valid UTF-8 when size is at least 4 |

## Left out

- Agent, Function and Tool nodes: one abstract leaf that maps the values and conversations it sees to new ones; prompts, tool execution, permission callbacks, hooks, statistics and events are not modelled.
- Scoped values: `user:` and `app:` keys, which are stored before the checkpoint, are not modelled; all values are per thread or `temp:`.
- Loop counters: kept in a private map instead of under an internal key of the values, so a leaf cannot touch them.
- Step counters: `max_steps` is counted down without 32-bit overflow; call numbers, the run's own step and generations are unbounded. The checkpoint adapter's steps and counts are 64-bit.
- Nesting of fan-outs: the interpreter takes a bound `fuel` on it; the theorems hold for every bound, and equivalence with the workflow for every bound that its nesting does not exceed.
- Congruence.PerThread: excludes nodes that look at a `temp:` value and nodes that erase a `temp:` key; a `temp:` value is not stored, so the first read something else after a resume, and the second change which written keys a nested join hands on.
- Resume.CrashResume: for graphs in general its exception, that the uninterrupted run ends at the step limit, is about that run's result; `StepLimits.StopsShowExactly` states it on the workflow and the limit. The same holds for the next two.
- Stops.ManyStops: as above.
- Stops.StopsAndResumes: as above.
- StepLimits.StopsShowExactly: is about graphs compiled from workflows; of graphs with conditional edges, which may loop for ever, only that stops do not show unless the run ends at the limit is proved (`Stops.ManyStops`).
- Checkpoint text: checkpoints, events and histories are records; JSON syntax and escaping are not modelled.
- Store failures: writes to the checkpoint store and the key-value store succeed; the background writer's store may fail.
- Asynchronous and exit durability: `Runner.GraphRun` has a flag for runs that only store their end; the queue between is the separate model of the background writer.
- Continuing and forking a thread: the data that a fresh run starts from is a parameter and its step counter starts at 0. `fork_graph_run` copies a stored checkpoint under another thread id, which the model does not name; `answer_abandoned_calls` adds messages to histories, whose messages the model does not look into.
- Named shared memory, unlinking and sweeping, process creation, pipes and clocks: system calls; timeouts are steps that may happen at any time.
- Host restarts across generations for shared memory: segment ownership is stated within one host's life, since the core drops its mappings when a host goes down.
- Frames that nobody waits for: the release that the core sends for a dropped response is not part of the ownership model, in which every response has its call.
- Restart budget of the host (`max_restarts` per minute): a clock question; starting again may succeed or fail at any time.
- Control commands other than Destroy and Create, end of input and shutdown of the host: the first are answered within one step of the control thread, the others end the process and with it every run of the model.
- Decoding and sampling: abstract functions of one sequence's own tokens and positions, and of a sampler's own state; after a failed decode the sequence's contents are left as they were, since its generation fails and the sequence is emptied on reuse.
- Media prompts, option scoring and clearing the cache during generation in the llama engine: foreign calls.
- Unreachable nodes of JSON graphs (`warn_unreachable`) and parsing of the document: the same worklist once more, and text syntax.
- Token budget: the allowance that pruning works with is a parameter; how it is computed from the configuration is not modelled.
- StaticCycles.FindCycles: names the nodes of each cycle in walking order, not the warning text.
