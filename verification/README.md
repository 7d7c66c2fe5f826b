# BytePS aggregation, pipeline and support arithmetic in Dafny

BytePS sums gradients over machines. Every machine has local ranks, one of them the root. The ranks
reduce a tensor partition among themselves, the root pushes it to a parameter server and pulls the
sum, and the ranks share the result. This project models the two protocols that make this work and
the arithmetic they rely on.

**The parameter server.** A handler turns pushes into engine messages and answers or parks pulls;
engine threads apply the messages. An answer hands the transport a pointer to the live buffer, so the
transport's reads of it, any number per reply, are steps of their own. `Aggregation` is the server as an object whose methods are proved
equal to value functions. `KeyProtocol` and `KeySteps` hold the invariant of one key against `n`
workers that push, wait, pull and wait. `RoundProtocol` lifts it to any number of keys and threads.
`RoundTheorems` and `RoundValues` state what holds in every run. `TornRun` is a run in which a
promise fails; `RoundValues.RightExactlyWhenNotBegun` says exactly when it does. `EngineThreads` is
the choice of an engine thread, `Reducer` the element loops, `Sums` and `Sequences` what they need.

**The ranks of a machine.** `Stages` gives the stage lists. `Pipeline` is one partition on all ranks:
tasks, counting tables, signals under way and the shared host buffer. `PipelinePairs` is about the
root and one other rank, `PipelineSteps` about one partition, `PipelineRun` about all partitions and
the ordered commands for collectives. `PipelineTheorems` states what holds in every run, and
`PipelineProgress` that every step uses up work, so rounds end. Signals may be delivered in any
order and any ready task may be taken, so every scheduling of the threads is covered. A collective
ends on a rank only after every rank has posted it and closed its group.

**Both together.** `WholeSum` puts the server behind the machines: what every rank of every machine
ends with is the sum over all ranks of all machines. `TensorSum` says so for a whole tensor with all
its partitions. `EndToEnd` reads the tokens that the pipeline moves as the elements they stand for,
so that one theorem runs through every thread of the machines and of the server.

**Support.** `Slices`, `AllReduce` and `Rings` are the division of work among ranks; `Partitions` and
`Declarations` the partitions, keys and their survival over suspend and resume; `ScheduledQueue` and
`TaskLifecycle` the queues and the walk of tasks, and `QueueTables` the proof that queue and table
objects do to the counts of a partition what the pipeline's steps do; `HalfFormat`, `HalfRounding` and `HalfConvert` the
software conversions between binary32 and binary16; `CommandCode` the packed command numbers; `TopK`
the error-feedback compressor; `CrossBarrier` the locks between the training thread and its poller.

Four promises hold only under a condition. Each has a lemma with an input that breaks it and a lemma
with the exact condition. A reply is the sum of its round if and only if the engine has applied no
push of the next round when the reply's last part leaves (`TornRun.OvertakingTearsReply`,
`RoundValues.RightExactlyWhenNotBegun`). Keys of distinct
partitions are distinct up to 2^16 partitions per tensor (`Partitions.TooManyPartitionsCollide`,
`Partitions.KeysDisjoint`). Keys survive suspend and resume unless names are asked for out of order
before the redeclaration (`Declarations.OutOfOrderSwaps`, `Declarations.KeptExactlyWhenInOrder`).
A thread's recorded load is what its keys weigh if and only if that fits 64 bits
(`EngineThreads.FullThreadLooksIdle`, `EngineThreads.LoadsWrap`).

## Model

| member | source | states |
|---|---|---|
| EngineThreads.LeastLoaded | byteps/byteps/server/server.h:174-182 | the index found is the first of a least load, or none if every load is at the largest value |
| EngineThreads.ChooseThread | byteps/byteps/server/server.h:163-187 | when the choice aborts; a known key stays with its thread and changes nothing; a new key goes to the first of the least-loaded threads, whose load alone grows by the length, modulo 2^64 |
| EngineThreads.LoadsWrap | byteps/byteps/server/server.h:163-187 | after any requests: exactly the requested keys have a thread, every load is the sum of the first lengths of its keys modulo 2^64, and it is that sum if and only if the sum fits |
| EngineThreads.FullThreadLooksIdle | byteps/byteps/server/server.h:184 | two keys that fill 64 bits leave their thread with load zero |
| EngineThreads.GreedyBalance | byteps/byteps/server/server.h:163-187 | as long as all first lengths together fit: the choice aborts exactly if an unknown key was pulled, loads are exact, and they differ by at most one length |
| EngineThreads.NewKeyToLightest | byteps/byteps/server/server.h:174-184 | over any history that fits, a key requested for the first time goes to the first thread whose keys weigh no more than those of any other |
| EngineThreads.Sticky | byteps/byteps/server/server.h:163-187 | a key that has a thread has the same one after any further requests |
| Aggregation.ParameterServer.constructor | byteps/byteps/server/server.cc:484-523 | an empty server with one queue and zero load per engine thread |
| Aggregation.ParameterServer.GetThreadID | byteps/byteps/server/server.h:163-187 | the scan returns the chosen thread and leaves the loads and cache of `ChooseThread` |
| Aggregation.ParameterServer.SendPushResponses | byteps/byteps/server/server.cc:317-319 | one acknowledgement per buffered request of the key, in order |
| Aggregation.ParameterServer.Push | byteps/byteps/server/server.cc:285-401 | the new server state, the messages sent and the failed checks of a push |
| Aggregation.ParameterServer.InitPush | byteps/byteps/server/server.cc:292-320 | initial pushes are buffered until all workers have sent one, then the buffer exists and all are acknowledged |
| Aggregation.ParameterServer.RoundPush | byteps/byteps/server/server.cc:321-401 | a copy for the first push of a round, a sum for the others, a closing message with the last |
| Aggregation.ParameterServer.Pull | byteps/byteps/server/server.cc:402-435 | a pull is answered, for its own key, if the round is finished and this sender not yet seen, else parked; counters reset with the last one |
| Aggregation.ParameterServer.Engine | byteps/byteps/server/server.cc:82-215 | one message is popped in order and applied to buffer, flags and parked pulls |
| Aggregation.ParameterServer.AllReceived | byteps/byteps/server/server.cc:152-179 | a closed round is published and its parked pulls are walked |
| Aggregation.ParameterServer.DrainParked | byteps/byteps/server/server.cc:161-178 | the walk with erasures equals the recursive walk, in flags and in replies |
| Aggregation.ParameterServer.VisitParked | byteps/byteps/server/server.cc:162-178 | one visit of the walk: answer and erase or step over, and stop when the round is complete |
| Aggregation.DrainAnswersAll | byteps/byteps/server/server.cc:161-178 | distinct parked senders that were not seen are all answered, in order, and the flags start over exactly when the round is complete |
| KeySteps.InitPushKeeps | byteps/byteps/server/server.cc:292-320 | an initial push keeps the invariant of its key |
| KeySteps.RoundPushKeeps | byteps/byteps/server/server.cc:321-396 | a round push keeps the invariant: the engine queue of a key holds the rest of one round at most |
| KeySteps.PullParkedKeeps | byteps/byteps/server/server.cc:430-433 | parking keeps the invariant: no parked pull belongs to a completed round |
| KeySteps.PullAnsweredKeeps | byteps/byteps/server/server.cc:417-429 | a direct answer keeps the invariant, also for a worker that is a round behind |
| KeySteps.SendKeeps | byteps/byteps/server/server.cc:54-80 | a read of the live buffer for a reply keeps the invariant: it finds the whole last round or what is applied of the next, and with the last read the worker is free |
| KeySteps.DataKeeps | byteps/byteps/server/server.cc:122-199 | copying or adding a push keeps the buffer the fold of what was applied, in arrival order, while replies are leaving |
| KeySteps.AllKeeps | byteps/byteps/server/server.cc:152-179 | closing a round keeps the invariant and answers exactly the parked pulls |
| RoundProtocol.PushView | byteps/byteps/server/server.cc:285-401 | a push changes one key's view as that key's own step, no other key's, and its thread stays the same |
| RoundProtocol.PullView | byteps/byteps/server/server.cc:402-435 | the same for a pull |
| RoundProtocol.PopView | byteps/byteps/server/queue.h:68-83 | popping the front of a thread's queue is popping the front of that key's messages |
| RoundProtocol.EngineView | byteps/byteps/server/server.cc:82-215 | an engine turn is one step of one key |
| RoundProtocol.StepShape | byteps/byteps/server/server.cc:285-435 | whatever an event of a key puts out is for that key and reaches that key's workers; no other key's workers notice |
| RoundProtocol.StepInv | byteps/byteps/server/server.cc:285-435 | no enabled step fails a check and every step keeps the invariant of all keys |
| RoundTheorems.ServerNeverCrashes | byteps/byteps/server/server.cc:404-405 | in every run no request and no engine turn fails a check |
| RoundTheorems.AcknowledgedAtOnce | byteps/byteps/server/server.cc:292-401 | in every run: the buffer of a key exists exactly when all workers have sent the initial push, until then they wait, and afterwards nobody ever waits for an acknowledgement |
| RoundTheorems.OutputsWanted | byteps/byteps/server/server.cc:54-80 | in every run whatever the server puts out is for the key of the request or message it handles and goes to a worker that waits for just that on this key and then waits no longer |
| RoundTheorems.ArrivalOrder | byteps/byteps/server/server.cc:161-178 | in every run requests are buffered and pulls parked in the order of arrival, and closing a round answers exactly the parked pulls of its key in that order |
| RoundTheorems.OnOwnThread | byteps/byteps/server/server.cc:321-433 | in every run the messages and flags of a key are on the thread the key was given, and nowhere else |
| RoundTheorems.NeverAnsweredEarly | byteps/byteps/server/server.cc:417-433 | whoever has been answered for round k can rely on every worker's round-k push having been applied, with workers a round ahead or behind |
| RoundTheorems.FlagsCount | byteps/byteps/server/server.cc:422-429 | the pull count is the number of seen senders, below the number of workers, and parked pulls are of the open round |
| RoundTheorems.WaitingMeansMissingPush | byteps/byteps/server/server.cc:430-433 | if a pull waits and the engine has nothing to do for the key, some worker has not pushed yet |
| RoundTheorems.AnsweredExactlyOnce | byteps/byteps/server/server.cc:161-178 | the pulls a worker made are the replies it has, plus one if it is parked or its reply is still leaving |
| RoundValues.ReplyValue | byteps/byteps/server/server.cc:54-80 | what every read of the live buffer for any reply finds in any run: the fold of the reply's whole round, or the begun fold of the next one, which only grows from read to read |
| RoundValues.InTimeIsWhole | byteps/byteps/server/server.cc:54-80 | a reply whose last read found nothing of the next round is in every part the fold of its round |
| RoundValues.InTimeExactly | byteps/byteps/server/server.cc:54-80 | a reply leaves in time if and only if no push of the next round is applied in the state of its last read |
| RoundValues.SumRefinement | byteps/byteps/server/server.cc:321-396 | in runs where nobody pushes for the next round before all replies of a round have left, every reply left in time and is in every part the fold of all workers' pushes of its round |
| RoundValues.FoldAnyOrder | byteps/byteps/common/cpu_reducer.cc:87-94 | for an associative and commutative sum the arrival order does not matter |
| RoundValues.CompleteExactlyInTime | byteps/byteps/server/server.cc:54-80 | a reply holds every worker's push of its round in every part if and only if it left in time |
| RoundValues.RightExactlyWhenNotBegun | byteps/byteps/server/server.cc:417-421 | a reply, made at once or after parking, is the sum of its round if and only if no push of the next round is applied in the state its last part leaves in |
| TornRun.OvertakingTearsReply | byteps/byteps/server/server.cc:54-80 | a run of two workers in which a reply made in time leaves half as the sum of its round and half as the other worker's next push |
| Reducer.Sum | byteps/byteps/common/cpu_reducer.cc:87-94 | in place, every element is the old one plus the source's, and nothing beyond the length changes |
| Reducer.Copy | byteps/byteps/common/cpu_reducer.cc:426-437 | words and the last bytes together copy exactly the given length |
| Reducer.ZipLaws | byteps/byteps/common/cpu_reducer.cc:87-94 | adding buffers is associative and commutative if adding elements is |
| Stages.GetPushQueueList | byteps/byteps/common/operations.cc:516-555 | the push part of the list for every role |
| Stages.GetPullQueueList | byteps/byteps/common/operations.cc:557-580 | the pull part of the list for every role |
| Stages.AddCompression | byteps/byteps/common/operations.cc:234-239 | find and insert put COMPRESS before the first PUSH and DECOMPRESS after the first PULL, add nothing else, and fail exactly without a PULL |
| Stages.StageListIsPick | byteps/byteps/common/operations.cc:516-580 | the list of a role is its stages in the order of the enumerators; compression can be inserted exactly if the job is distributed |
| Stages.StageListOrder | byteps/byteps/common/operations.cc:232-240 | every list is strictly increasing, has the role's stages and no others, COMPRESS right before PUSH, DECOMPRESS right after PULL |
| Stages.StageListMembers | byteps/byteps/common/operations.cc:516-580 | for every stage, exactly which roles have it |
| PipelinePairs.PairBounds | byteps/byteps/common/ready_table.cc:29-34 | a rank's signals, counted or under way, exceed the root's passes of a gate by at most one |
| PipelinePairs.CommandFindsTask | byteps/byteps/common/core_loops.cc:551-571 | a rank that is behind in a collective has its task in that queue with its signal sent |
| PipelinePairs.HeldQuiet | byteps/byteps/common/core_loops.cc:954-959 | while the push table is set back to full between COMPRESS and PUSH, no push signal is under way |
| PipelinePairs.ReadsAfterCopies | byteps/byteps/common/core_loops.cc:298-338 | while the root reads the buffer every rank has finished its copy out of that round |
| PipelinePairs.PullsAlone | byteps/byteps/common/core_loops.cc:1099-1183 | while a pull writes the buffer a rank copies neither out nor in |
| PipelinePairs.CopiesInAfterPull | byteps/byteps/common/core_loops.cc:1278-1353 | a rank copies in after its round's pull and before the next round's copy out |
| PipelinePairs.CopiesOutBeforeRead | byteps/byteps/common/core_loops.cc:787-870 | a rank copies out after the last pull and before the root reads |
| PipelineSteps.RankTakeKeeps | byteps/byteps/common/scheduled_queue.cc:135-193 | taking a task by table or by command on a non-root rank keeps the invariant |
| PipelineSteps.RankFinishKeeps | byteps/byteps/common/core_loops.cc:291-348 | finishing a stage and owing its signal keeps the invariant |
| PipelineSteps.SendKeeps | byteps/byteps/common/core_loops.cc:338 | sending the signal keeps the invariant |
| PipelineSteps.CopyKeeps | byteps/byteps/common/core_loops.cc:1309-1336 | the permission to copy fits the rank's table, which holds one |
| PipelineSteps.ListenKeeps | byteps/byteps/common/communicator.cc:187-217 | a signal fits the root's table, and the table counts the ranks that have signalled |
| PipelineSteps.RootTakeKeeps | byteps/byteps/common/scheduled_queue.cc:150-176 | passing a gate clears the table and uses one signal of every rank |
| PipelineSteps.RootFinishKeeps | byteps/byteps/common/core_loops.cc:925-967 | finishing a root stage keeps the invariant, COMPRESS with its reset included |
| PipelineSteps.RootReads | byteps/byteps/common/core_loops.cc:969-1097 | the buffer that is read for the push of round k is every rank's reduced slice of round k |
| PipelineRun.LookupFinds | byteps/byteps/common/core_loops.cc:551-571 | the task that a command names is in the rank's queue |
| PipelineRun.SyncFinds | byteps/byteps/common/core_loops.cc:590-652 | the task of a collective that ends on a rank is in that collective |
| PipelineRun.StepInv | byteps/byteps/common/core_loops.cc:482-661 | every step of a machine keeps the invariant and fails no check; a rank is in exactly the collectives it has posted and not ended |
| PipelineTheorems.WalkIsStageList | byteps/byteps/common/operations.cc:516-580 | the order in which a task walks is the stage list of its role |
| PipelineTheorems.NoCheckFails | byteps/byteps/common/ready_table.cc:29-34 | in every run no table exceeds its bound and no lookup fails |
| PipelineTheorems.CollectivesAgree | byteps/byteps/common/core_loops.cc:482-588 | every rank's collectives, with the group ends, are a prefix of the root's |
| PipelineTheorems.EndedOnlyTogether | byteps/byteps/common/core_loops.cc:590-594 | what has ended on one rank every rank has posted, as the same command at the same place |
| PipelineTheorems.CollectivesPosted | byteps/byteps/common/core_loops.cc:482-661 | a task has entered REDUCE or BROADCAST as often as its rank has posted it, and has left it as often as that has ended |
| PipelineTheorems.CollectivesMeet | byteps/byteps/common/core_loops.cc:482-661 | no rank has left a reduction or broadcast that some rank has not joined |
| PipelineTheorems.BarriersHold | byteps/byteps/common/core_loops.cc:291-348 | in every run: the root enters REDUCE, CONTEXT_PUSH, the read of the buffer and BROADCAST of a round only after every rank has left the stage that announces it, and a rank enters REDUCE, COPYD2H, COPYH2D and BROADCAST only after the root has begun what allows it |
| PipelineTheorems.SignalsConserved | byteps/byteps/common/core_loops.cc:298-338 | in every run every signal raised by leaving a stage is owed, under way, used by the root or counted, at most one waiting, and every permission to copy the root gives by entering a stage is under way, counted or used |
| PipelineTheorems.BufferOrdered | byteps/byteps/common/core_loops.cc:663-870 | at every point: what the root reads is whole and of its round, what a rank copies in is its round's pull, and a pull is alone in the buffer |
| PipelineTheorems.RoundsFlow | byteps/byteps/common/core_loops.cc:969-1183 | over every run the k-th push is everybody's k-th slice and every rank's k-th copy in is the k-th pull |
| PipelineTheorems.NoStall | byteps/byteps/common/core_loops.cc:482-661 | once every rank has handed in a round, some thread can move until all have finished it, where a collective can end only when every rank has closed its group |
| PipelineTheorems.QuietMeansFinished | byteps/byteps/common/core_loops.cc:149-209 | when no thread can move any more, every rank has finished every round that all ranks handed in |
| PipelineProgress.StepWork | byteps/byteps/common/core_loops.cc:149-209 | every step but handing in a partition leaves strictly less work, signals and commands included |
| PipelineProgress.StepsBounded | byteps/byteps/common/core_loops.cc:149-209 | a run has at most a fixed number of steps per partition and round that a rank hands in |
| ScheduledQueue.ReadyTable.AddReadyCount | byteps/byteps/common/ready_table.cc:29-34 | counts one key up, and fails at the bound without a change |
| ScheduledQueue.ReadyTable.SetReadyCount | byteps/byteps/common/ready_table.cc:36-39 | sets one key's count and no other |
| ScheduledQueue.ReadyTable.ClearReadyCount | byteps/byteps/common/ready_table.cc:41-47 | clears one key's count and no other |
| ScheduledQueue.Insert | byteps/byteps/common/scheduled_queue.cc:95-106 | a sorted queue with one more task is sorted and has the same tasks |
| ScheduledQueue.Queue.constructor | byteps/byteps/common/scheduled_queue.cc:26-90 | when a queue is scheduled, with how many credits, and for every stage and role which table opens it |
| ScheduledQueue.Queue.AddTask | byteps/byteps/common/scheduled_queue.cc:92-112 | the task is added, and a scheduled queue stays sorted |
| ScheduledQueue.Queue.GetTask | byteps/byteps/common/scheduled_queue.cc:135-193 | the first task is removed whose event has fired, whose length fits the credits and whose table is full, its length leaves the credits and its table is cleared; without one nothing changes |
| ScheduledQueue.Queue.GetTaskByKey | byteps/byteps/common/scheduled_queue.cc:195-220 | the first task of the key is removed, or there is none; fails on a scheduled queue and exactly if a task up to the one found has an event that has not fired |
| ScheduledQueue.Queue.ReportFinish | byteps/byteps/common/scheduled_queue.cc:227-233 | a scheduled queue gets the length back |
| ScheduledQueue.Queue.Reset | byteps/byteps/common/scheduled_queue.cc:235-240 | sets the count of a key if the queue has a table |
| ScheduledQueue.CreditsConserved | byteps/byteps/common/scheduled_queue.cc:135-233 | in every run credits and lengths under way add up to the start, and no task is lost or doubled |
| ScheduledQueue.TakesFirst | byteps/byteps/common/scheduled_queue.cc:95-106 | no eligible task has a higher priority than the one taken, or the same and a smaller key |
| ScheduledQueue.NoStall | byteps/byteps/common/scheduled_queue.cc:135-148 | with nothing under way and an open task that fits the credits, a task is granted that has no lower priority, and this one itself if it is first by priority and key among the open ones |
| QueueTables.CreateTables | byteps/byteps/common/global.cc:319-382 | which tables a process has for its role and how much each waits for |
| QueueTables.OpensExactly | byteps/byteps/common/scheduled_queue.cc:47-90 | for every stage and rank, the queue lets a partition through if and only if the pipeline's barrier does |
| QueueTables.Hear | byteps/byteps/common/communicator.cc:187-217 | a signal is counted in the table of the stage that waits for it, as the pipeline's step does, and fails exactly if that is full |
| QueueTables.HearCopy | byteps/byteps/common/core_loops.cc:1319-1330 | the same for the permissions to copy out and in |
| QueueTables.TakeTask | byteps/byteps/common/scheduled_queue.cc:135-193 | a task is taken only when the pipeline allows it, and the tables are then those after the pipeline's step |
| QueueTables.RestorePush | byteps/byteps/common/core_loops.cc:954-957 | after compression the tables are those after the pipeline's step |
| TaskLifecycle.Task.FinishOrProceed | byteps/byteps/common/core_loops.cc:149-209 | one stage leaves the list; the next queue, or the shared counter and the callback with the last partition; an empty list fails |
| TaskLifecycle.CallbackOnce | byteps/byteps/common/core_loops.cc:174-196 | in every run each partition visits its list in order, what is left shrinks by one per step, and the callback fires once, when all are done |
| Slices.LayoutOf | byteps/byteps/common/core_loops.cc:376-389 | every rank's share is the whole elements divided by the ranks, the remainder is left for the last rank; with a reduce root everything is left for that one |
| Slices.CopiesWholeSlice | byteps/byteps/common/core_loops.cc:828-843 | for whole elements the bytes copied are the rank's elements |
| Slices.CopiesShare | byteps/byteps/common/core_loops.cc:828-843 | for any length: where every rank's bytes start and how many there are, with and without a reduce root |
| Slices.SlicesTile | byteps/byteps/common/core_loops.cc:376-478 | every element is in exactly one rank's slice and the slices reach no further |
| Slices.RoundUpLeast | byteps/byteps/common/global.h:306-307 | rounding up gives the least multiple that is not smaller |
| Slices.FullPartitionEven | byteps/byteps/common/global.cc:209-218 | partitions of full size leave nothing over |
| AllReduce.OwnerHasSum | byteps/byteps/common/core_loops.cc:404-460 | after the reduction the owner of an element has its sum over the machine |
| AllReduce.OthersUntouched | byteps/byteps/common/core_loops.cc:404-460 | elements a rank does not own are left as they were by the reduction and by copying in |
| AllReduce.BufferFromOwners | byteps/byteps/common/core_loops.cc:845-863 | copies out in any order fill the buffer with every element from its owner |
| AllReduce.EveryRankHasBuffer | byteps/byteps/common/core_loops.cc:1239-1259 | after copies in and the gather every rank has the buffer |
| AllReduce.HierarchicalSum | byteps/byteps/common/core_loops.cc:376-478 | if the servers answer with the sum of the buffers, every rank ends with the sum over all ranks of all machines, whatever buffers and outputs held |
| WholeSum.ReplyByElement | byteps/byteps/server/server.cc:181-199 | in any run, a reply that left before the next round had begun is in every place the sum of what all workers pushed there, whichever read an element comes from |
| WholeSum.GradientsSummed | byteps/byteps/common/core_loops.cc:376-478 | gradients, reduced on machines, summed by the server in any arrival order, copied in and gathered, are the sum over all ranks on every rank |
| TensorSum.ElementsOnce | byteps/byteps/common/operations.cc:173-205 | every element lies in the partition its byte offset names, within the tensor |
| TensorSum.JoinedOnce | byteps/byteps/common/operations.cc:173-205 | the partitions put together make one tensor and no other |
| TensorSum.TensorSummed | byteps/byteps/common/operations.cc:163-206 | if the replies for all partitions left in time, the whole tensor on every rank of every machine is the sum over all ranks of all machines |
| TensorSum.TensorSummedWithoutLapping | byteps/byteps/common/operations.cc:163-206 | the same for every run in which nobody laps |
| EndToEnd.PushedIsCopiedOut | byteps/byteps/common/core_loops.cc:969-1097 | in every run of a machine the elements read for the k-th push are what its ranks copied out of the k-th reduction, and no others |
| EndToEnd.GotIsCopiedIn | byteps/byteps/common/core_loops.cc:1278-1353 | in every run of a machine the elements copied in for round k are those of the k-th pull, and no others |
| EndToEnd.MachinesSum | byteps/byteps/common/core_loops.cc:376-478 | for every run of all machines and of the server: with a reply that left in time every rank gathers the sum over all ranks of all machines |
| Rings.InitGlobalEnv | byteps/byteps/common/nccl_manager.cc:136-150 | switch size times number of switches is the number of ranks, and which size is used |
| Rings.ConstructRings | byteps/byteps/common/nccl_manager.cc:216-241 | the loops build the turned rings and their reverses |
| Rings.RingsTurn | byteps/byteps/common/nccl_manager.cc:216-241 | reduce ring i enters every switch at its rank i and goes around inside it one rank at a time; broadcast ring i is the same backwards |
| Rings.RingsArePermutations | byteps/byteps/common/nccl_manager.cc:216-241 | every ring has every rank once |
| Rings.GetRank | byteps/byteps/common/nccl_manager.cc:311-318 | the place found is the first where the ring of the key and operation has this rank |
| Rings.RootClosed | byteps/byteps/common/nccl_manager.cc:295-309 | the root of a key in closed form, for both operations |
| Rings.RootsAgree | byteps/byteps/common/nccl_manager.cc:295-309 | a key is reduced to the rank that broadcasts it |
| Rings.EveryRankRootOnce | byteps/byteps/common/nccl_manager.cc:295-309 | every rank is root of exactly one residue of the keys |
| Partitions.PartitionTensor | byteps/byteps/common/operations.cc:163-206 | the partitions are contiguous, not empty, at most the bound, cover the tensor, and there are as many as the rounded-up quotient |
| Partitions.InitKeys | byteps/byteps/common/operations.cc:379-397 | as many keys as partitions, counted up from the tensor's first |
| Partitions.EveryByteOnce | byteps/byteps/common/operations.cc:173-205 | every byte is in exactly one partition |
| Partitions.WholeElements | byteps/byteps/common/global.cc:209-218 | no partition cuts an element if the bound is a multiple of the width |
| Partitions.PartFitsCredits | byteps/byteps/common/scheduled_queue.cc:41-43 | every partition fits the credits of a scheduled queue |
| Partitions.KeysDisjoint | byteps/byteps/common/operations.cc:379-384 | two tensors share no key if and only if the first has no more partitions than there are keys up to the second |
| Partitions.KeysDistinct | byteps/byteps/common/operations.cc:379-384 | with at most 2^16 partitions a key determines tensor and partition |
| Partitions.TooManyPartitionsCollide | byteps/byteps/common/operations.cc:379-384 | one partition more meets the next tensor's first key |
| Partitions.KeyEncoder.EncodeDefaultKey | byteps/byteps/common/global.cc:815-864 | a key keeps its wire key, a new one is placed in the range of the server its hash names and counted to its load, or fails |
| Partitions.KeyEncoder.WireKeysDistinct | byteps/byteps/server/server.h:153-156 | different keys have different wire keys and the server decodes its own back |
| Partitions.PartitionsOnTheWire | byteps/byteps/common/global.cc:815-864 | distinct partitions of distinct tensors have distinct wire keys, at the servers the hash names |
| Declarations.Global.IsTensorDeclared | byteps/byteps/common/global.cc:598-616 | a new name gets the number of keys given so far as its key and is remembered once; all other keys stay |
| Declarations.Global.Shutdown | byteps/byteps/common/global.cc:574-584 | keys are forgotten and names kept |
| Declarations.Global.ReDeclareTensor | byteps/byteps/common/global.cc:618-623 | the names get keys again in the order they were first declared |
| Declarations.Global.SuspendResume | byteps/byteps/common/operations.cc:119-142 | with nothing declared in between every name has its old key |
| Declarations.KeyForever | byteps/byteps/common/operations.cc:119-142 | over any declarations and any number of suspend-resume cycles a key once given is kept |
| Declarations.KeptExactlyWhenInOrder | byteps/byteps/common/global.cc:598-623 | with names asked for before the redeclaration, keys survive if and only if these begin like the old names or the old names begin like them |
| Declarations.OutOfOrderSwaps | byteps/byteps/common/global.cc:598-623 | asking for the second name first swaps two keys |
| HalfConvert.Float2HalfBits | byteps/byteps/common/cpu_reducer.h:119-179 | every number that is not NaN becomes the nearest binary16 number, ties to even, with its sign; NaN becomes 0x7FFF |
| HalfConvert.FloatToHalf | byteps/byteps/common/half.h:266-311 | the same for the other implementation; NaN stays NaN |
| HalfConvert.HalfBits2Float | byteps/byteps/common/cpu_reducer.h:83-117 | every binary16 number becomes the binary32 number of the same value and sign |
| HalfConvert.Normalise | byteps/byteps/common/cpu_reducer.h:95-103 | the loop keeps the value of a subnormal number |
| HalfFormat.NearestUnique | byteps/byteps/common/cpu_reducer.h:168-174 | rounding to nearest, ties to even, has one result |
| HalfConvert.ConvertsUnique | byteps/byteps/common/half.h:266-311 | two conversions of one number are the same bits |
| HalfConvert.ConversionsAgree | byteps/byteps/common/half.h:266-311 | the two implementations agree on every number that is not NaN |
| HalfConvert.RoundTrip | byteps/byteps/common/cpu_reducer.h:83-179 | from binary16 to binary32 and back is the identity on numbers that are not NaN |
| CommandCode.PairDepair | byteps/byteps/common/common.cc:98-101 | unpacking a packed pair gives the pair |
| CommandCode.DepairPair | byteps/byteps/server/server.h:87-98 | every code unpacks into two naturals whose code it is |
| CommandCode.NextOnDiagonal | byteps/byteps/common/common.cc:98-101 | one data type up and one request type down is the next code |
| CommandCode.NextDiagonal | byteps/byteps/common/common.cc:98-101 | the first code is zero, and after request type zero comes the next diagonal |
| TopK.TopKCompressor.Compress | byteps/byteps/torch/compression.py:73-110 | the share that is sent; indices, accumulated values and zeros of the result; with error feedback what is received plus what is stored equals the input plus what was stored, also in the error cases; without it nothing is stored |
| TopK.TopKCompressor.Decompress | byteps/byteps/torch/compression.py:112-136 | the coordinates back in place, or an error for a negative index or a short input |
| TopK.UnpackedMeans | byteps/byteps/torch/compression.py:127-129 | unpacking fails exactly if an index, rounded toward zero, is negative; otherwise in every place the last entry that goes there wins, with indices beyond the end moved to it |
| TopK.SentPlusKept | byteps/byteps/torch/compression.py:90-98 | unpacked and kept add up to the accumulated input |
| TopK.SentAreLargest | byteps/byteps/torch/compression.py:93-96 | every coordinate sent is at least as large as every one kept |
| TopK.ErrorFeedbackConserves | byteps/byteps/torch/compression.py:73-136 | over any calls of the compressor, under any names and with failing ones among them, what was received under a name plus its stored error is the sum of its inputs |
| CrossBarrier.OneInFlight | byteps/byteps/torch/cross_barrier.py:140-157 | in every interleaving a parameter has at most one exchange in flight, and its lock is held as long |
| CrossBarrier.ForwardAfterUpdate | byteps/byteps/torch/cross_barrier.py:204-213 | a module runs only when every exchange of its parameters was applied and zeroed |
| CrossBarrier.AppliedBeforeZeroed | byteps/byteps/torch/cross_barrier.py:168-186 | a gradient is zeroed only after it was applied, and applied only after its exchange was begun |
| CrossBarrier.PolledInTurn | byteps/byteps/torch/cross_barrier.py:159-186 | the exchanges are polled in the order they were queued, and one that is not finished goes to the end |
| CrossBarrier.ReleaseIsHeld | byteps/byteps/torch/cross_barrier.py:181-184 | the poller gives back only locks that are held |
| CrossBarrier.NoDeadlock | byteps/byteps/torch/cross_barrier.py:159-186 | while the training thread waits for a lock, the exchange that holds it is with the poller, which can move |

## Left out

- Server scheduling mode, asynchronous mode and the blocking engine; messages are taken in order.
- Compressors on the server and on workers; COMPRESS and DECOMPRESS are stages that read and write the buffer.
- In-network aggregation, its key numbering and its code paths, which are compiled out.
- Scale and norm values carried by signals and tables; only the counts are modelled.
- Several PCIe switches in the pipeline; the rings cover them, the stage walk has one switch in a distributed job.
- Sockets, shared memory, streams and the collectives themselves; collectives are given by their result.
- Vectorised paths of the reducer and floating-point addition; sums are folds of an arbitrary operation.
- The final step of the cross barrier and the optimizer arithmetic.
- Framework bindings, launchers, profiling, logging and examples.
- The hash functions for keys; any function may be given.
- Overflow of 64-bit keys and credits, which needs more keys or credits than a machine has.
- Pipeline: the steps of the threads are functions on values, so updates in place by several threads are interleaved atomic steps; taking a task, clearing its table and sending the signals of the stage are one step.
- CrossBarrier: the same holds for the two threads; which parameters a step exchanges is left open, so the handle dictionary is not modelled.
- KeyProtocol: a reply leaves in a number of reads that is the same for all replies of a run, where one that needs fewer repeats its last; a read takes the buffer as it is between two steps, and an element may come from any of the reads. Transport buffers and retransmission are not modelled.
- PipelineRun: that a collective ends once every rank has closed its group is taken as what the collectives promise. The events recorded on streams are not modelled.
- EngineThreads.GreedyBalance: requires that the first lengths of all keys together stay below the largest 64-bit number; beyond it loads wrap around as `LoadsWrap` says. The runs of the server have the same requirement and keys of positive length, since the source fails a check on an empty first push.
- EndToEnd.MachinesSum: the machines divide the partition in the same way and do not compress it; their runs and the server's are related by what they push and pull, not by the time they do it.
- Partitions.PartitionTensor: requires a positive bound; with a bound of zero the source's loop does not end.
- Rings.InitGlobalEnv: requires a positive configured switch size; the source divides by it.
- TopK.TopKCompressor.Compress: the outcome of the sort is given, as any order by magnitude; shapes are flat, and a stored error of another size is an error even where it would be stretched. The configured share is not negative.
- QueueTables: all ranks are on one switch, as in the pipeline; with several switches the constructor's contract says which table opens a queue.
