# ERDOS in Dafny

A model of the ERDOS dataflow runtime and proofs about it. An ERDOS operator reads timestamped messages and
watermarks from streams. Each message becomes callback invocations ("events"), which an execution lattice orders and a
pool of event runners invokes. The model follows one message all the way: the handle it is sent through, the frames it
travels in, the endpoint it arrives at, the bundles that compute low watermarks over several streams, the events they
make, the lattice, the runners, and the state the callbacks keep. The start-up barrier between nodes and the
compilation of the dataflow graph are modelled too.

`dafny verify dfyconfig.toml` checks everything.

## How it is organised

| files | what they hold |
|---|---|
| `Basics`, `Timestamps`, `OperatorEvents` | the timestamp order and the precedence between events |
| `LatticeModel`, `LatticeSearch`, `LatticeOrder`, `LatticeSteps`, `MessageBarrier`, `LatticeRuns`, `ExecutionLattices` | the lattice as a value, the depth-first search of one insertion as a step relation, its order invariant, what holds without one, runs, and the object that implements it all with loops |
| `Executor`, `ExecutorProgress`, `WakeUps`, `RunnerCount`, `Cycles`, `Circles`, `Ties`, `TieRuns`, `TiedOperators` | producer and event runners, interleaved in every way; termination; no lost wake-ups; what one runner adds; how many tied watermarks are too many |
| `WriteStreams`, `Bundles`, `BundleTrees`, `LowWatermarks`, `OperatorSetup`, `SetUps`, `EventMakers`, `EventOrder`, `StreamOperators`, `Pipeline`, `ManageableOperators` | sending, low watermarks over bundle trees, operator set-up, event making, and the end-to-end theorems |
| `SortedEntries`, `TimeVersions`, `GarbageCollection`, `TimeVersionedStates`, `JoinStates` | time-versioned state and join state |
| `Framing`, `ControlFraming` | the wire formats |
| `ControlMessages`, `StartUp`, `Connecting`, `StartUpProgress` | selective receive and the start-up barrier |
| `Dataflows`, `Scheduling`, `Graphs`, `Remoting` | graph compilation, scheduling, endpoints, delivery to another node |

The source's objects that change in place are classes here (`ExecutionLattice`, `WriteStream`, `StreamOperator`,
`TimeVersionedState`, `StreamState`, `MessageCodec`, `ControlMessageCodec`, `ControlMessageHandler`, `Graph`,
`StreamEndpoints`, `DataReceiver`). Their methods are tied to functions or relations on values, and the theorems are
about those. Concurrency (the executor, the cluster) is a state machine over atomic steps.

The theorems about the lattice come in three strengths.

- Of all events whatsoever: leaves, queue and ledger are exact, nothing is lost, and an execution ends clean exactly if
  no events ever waited for each other in a circle.
- Of events as the streams and bundles make them (`MessageBarrier.IsMade`): no watermark is handed out before a message
  that goes before it and that it waited with has completed, even if watermarks tie or conflict.
- Of manageable events (`OperatorEvents.Manageable`): the watermarks that wait together are weakly ordered by the
  comparison, and no four of them tie. Then paths are exactly the precedence order, with ties broken by age, the lattice
  is acyclic and it never comes to a standstill.

Watermarks that are ordered by timestamp and priority alone are manageable as long as at most three of them have the same
timestamp and priority (`OperatorEvents.ThreeTiesManageable`). Three is the exact bound: `TieRuns.TieBound` proves that
all runs with at most n to a timestamp and priority stay acyclic and get on exactly if n is at most three. Operators
whose callbacks for each timestamp are manageable have manageable inputs (`ManageableOperators.CallsManageable`), whether
priorities or access conflicts order them. When conflicts leave priorities in charge is
`OperatorEvents.CompatibleExactly`.

## What the code does that its documentation does not say

- A message whose timestamp equals the last watermark is still accepted (`src/lib.rs:135-137` promises `t' > t`, the
  check is `<`): `WriteStreams.AcceptedAfterWatermark`. The end-to-end theorem is therefore about timestamps below the
  watermark.
- Clones of a write stream do not share the low watermark, so only a handle that has caught up protects the stream:
  `WriteStreams.SafeHandle`. Two clones of a new stream are enough for a handle that has not:
  `WriteStreams.ClonesFallBehind`.
- A failed push of the top watermark leaves the stream open. Exactly when an endpoint then gets something after top is
  `WriteStreams.AfterTopExactly`.
- With two or more event runners a watermark callback can start while an earlier message's callback is executing:
  `RunnerCount.TwoRunnersRace`. With one runner it cannot: `RunnerCount.OneRunnerMessagesFirst`.
- Four tied watermark events and two messages deadlock the lattice: `TieRuns.TiedWatermarksDeadlock`. A stream with four
  watermark callbacks of one priority makes such ties, and its operator can then shut down without ever having invoked
  them: `TiedOperators.PlainOperatorStuck`, `TiedOperators.StatefulOperatorStuck`.
- A bundle over a stream it lists twice never fires: `LowWatermarks.RepeatedNeverFires`.
- `get_state` reaches one state further back than `iter_states` and than the history size, and that is the one place
  where garbage collection shows, over every sequence of later operations: `GarbageCollection.CloseObserved`,
  `GarbageCollection.LookupShows`. With history size 0, closing the current time can
  drop the current state: `GarbageCollection.CurrentKept`.
- The join's watermark callback panics when a side has no message with exactly the watermark's timestamp, and when its
  output stream does not take the result; nothing is cleaned then: `JoinStates.OnWatermark`.
- `from_slice` slices the metadata before it checks the length, so a buffer that ends within the metadata panics, while
  one that ends within the header or the data is an error: `Framing.TruncatedExactly`.
- A graph does not always have a channel for every reader. An extract stream of a loop that has been set makes none
  (`Scheduling.ExtractOfLoop`), so that one reader of the loop's target on that node finds no endpoint
  (`Scheduling.ExtractTakesFail`). Setting a loop that another loop was set to (`Scheduling.LoopOfLoop`), setting a loop
  with readers a second time to another stream (`Scheduling.LoopSetTwice`) and setting a loop to itself
  (`Scheduling.LoopOfItself`) break the count too. The exact condition is `Scheduling.OneChannelPerSlot`.
- Watermarks whose precedence goes round in a circle become a chain that disregards one precedence:
  `Circles.CircleBecomesChain`.
- k readers of one stream on one remote node each get k copies of every message: `Remoting.RemoteCopies`,
  `Remoting.ExactlyOnce`.

## Model

| member | source | states |
|---|---|---|
| `Timestamps.TotalOrder` | src/dataflow/message.rs:108-136 | timestamps are totally ordered (antisymmetric, equal only if identical), bottom is least and top greatest |
| `Timestamps.Transitive` | src/dataflow/message.rs:127-136 | the timestamp order is transitive, strictly if either step is strict |
| `Timestamps.CmpTimeExactly` | src/dataflow/message.rs:127-136 | the vectors compare as less exactly if at the first difference the left one has the smaller number or has ended |
| `Timestamps.LtExactly` | src/dataflow/message.rs:108-136 | a timestamp is earlier exactly if it is not top and the other one is top or larger at the first difference |
| `OperatorEvents.MessagesUnordered` | src/node/operator_event.rs:94-118 | message events as the streams make them never order each other, even when they write the same state |
| `OperatorEvents.MessageBeforeWatermark` | src/node/operator_event.rs:137-159 | a message precedes a watermark exactly when its timestamp is not larger, and the reversed comparison mirrors this |
| `OperatorEvents.WatermarksStrict` | src/node/operator_event.rs:125-136 | conflict-free watermarks have a definite order exactly when (timestamp, priority) differ, and it is the lexicographic one |
| `OperatorEvents.WriterFirst` | src/node/operator_event.rs:105-117 | at one timestamp a watermark that writes what another reads goes first, whatever their priorities |
| `OperatorEvents.WritersInTurn` | src/node/operator_event.rs:95-104 | two that write the same state go by priority, then by number of dependencies, and tie otherwise |
| `OperatorEvents.CircularExactly` | src/node/operator_event.rs:105-111 | comparing two watermarks panics exactly if, at one timestamp and without a common write, each reads what the other writes |
| `OperatorEvents.TiedWatermarksFollowEachOther` | src/node/operator_event.rs:131-134 | two fully tied watermarks are each told to run after the other |
| `OperatorEvents.CompareByKey` | src/node/operator_event.rs:94-136 | compatible watermarks are ordered by timestamp, then priority, and tie exactly if both are equal |
| `OperatorEvents.CompatibleExactly` | src/node/operator_event.rs:94-136 | two watermarks of one timestamp are weakly ordered together with any callback that accesses nothing exactly if they are compatible: a writer has a smaller priority than its reader, and two writers of a state differ in priority or have equally many dependencies |
| `OperatorEvents.ManageableByTime` | src/node/operator_event.rs:125-136 | events are manageable if those of each timestamp are |
| `OperatorEvents.ThreeTiesManageable` | src/node/operator_event.rs:94-163 | events whose watermarks are ordered by timestamp and priority, at most three to each pair, are manageable, transitivity included |
| `OperatorEvents.PrecedenceCanCircle` | src/node/operator_event.rs:105-117 | conflicts override priorities, so precedence among watermarks of one timestamp can be circular |
| `Circles.CircleBecomesChain` | src/node/lattice.rs:216-321 | three watermarks in a circle, inserted in any order, become an acyclic chain: the first two in order, the third behind both although it precedes one of them |
| `ExecutionLattices.RunnableTotal` | src/node/lattice.rs:84-108 | the priority order of runnable events is total and antisymmetric |
| `ExecutionLattices.RunnableTransitive` | src/node/lattice.rs:84-108 | and transitive |
| `ExecutionLattices.ExecutionLattice.FindPlace` | src/node/lattice.rs:203-304 | the search loop computes the end of a complete run of the search relation, or meets a pair whose comparison panics |
| `ExecutionLattices.ExecutionLattice.VisitNode` | src/node/lattice.rs:224-302 | one visited node updates the search exactly as the relation says; it panics exactly on a circular pair |
| `ExecutionLattices.ExecutionLattice.AddEvents` | src/node/lattice.rs:187-355 | a batch is a sequence of insertions; the lattice stays well formed whatever the events; no unwrap fails; it stops early only at a circular pair |
| `ExecutionLattices.ExecutionLattice.GetEvent` | src/node/lattice.rs:363-377 | the greatest runnable event is handed out and taken, or the queue is empty; well-formedness is kept and the unwrap never fails |
| `ExecutionLattices.ExecutionLattice.MarkAsCompleted` | src/node/lattice.rs:383-421 | the executing node disappears with its edges and exactly the parents left without dependencies become leaves and runnable; the expect and the unwrap never fail |
| `LatticeOrder.InsertWellFormed` | src/node/lattice.rs:196-346 | inserting any event keeps leaves equal to the sinks and the run queue equal to the waiting sinks, and adds just that event |
| `LatticeSearch.NoShortcut` | src/node/lattice.rs:258-285 | after any insertion nothing that depends on the new event depends directly on what the new event depends on |
| `LatticeSearch.OnlyAdjacent` | src/node/lattice.rs:240-302 | any insertion makes only those events depend on the new one that depended on nothing, or directly on one the new event does not precede |
| `LatticeOrder.InsertOrdered` | src/node/lattice.rs:216-321 | inserting an event that leaves the waiting events manageable keeps every immediate precedence represented by an edge, the older of two tied watermarks first, although the shared search abandons leaves early |
| `MessageBarrier.InsertKeeps` | src/node/lattice.rs:216-321 | however watermarks tie or conflict, inserting an event keeps whatever depends on an event dependent on it, or leaves it unable to run at all |
| `MessageBarrier.InsertMeets` | src/node/lattice.rs:216-321 | a watermark depends on every waiting message before it as soon as the two meet, or cannot run at all |
| `LatticeSteps.OrderComplete` | src/node/lattice.rs:196-321 | in an ordered lattice b depends on a through a path exactly when a precedes b, or ties with it and is older |
| `LatticeSteps.FetchEarliest` | src/node/lattice.rs:84-108 | of the runnable events one with the earliest timestamp is handed out, and of these the one with the least index |
| `LatticeSteps.Acyclic` | src/node/lattice.rs:258-285 | an ordered lattice has no dependency cycle |
| `LatticeSteps.Progress` | src/node/lattice.rs:363-421 | an ordered lattice that is not empty has a runnable or an executing event |
| `LatticeRuns.RunInvariant` | src/node/lattice.rs:187-421 | every interleaving of insertions of any events, hand-outs and completions keeps the lattice well formed and the ledger of events exact |
| `LatticeRuns.MessagesHandedFirst` | src/node/lattice.rs:234-251 | in every run of events as the streams make them, a watermark is handed out only after every message before it that ever waited with it has completed |
| `LatticeRuns.HandedInOrder` | src/node/lattice.rs:234-251 | in every run whose waiting events are manageable in every state, b is handed out only after every a before it (or tied and older) that ever waited with it has completed |
| `LatticeRuns.RunOrderComplete` | src/node/lattice.rs:196-321 | in every lattice of such a run dependency paths are exactly the precedence order, ties by age |
| `LatticeRuns.RunAcyclic` | src/node/lattice.rs:258-285 | in every lattice of such a run no event depends on itself |
| `LatticeRuns.RunProgress` | src/node/lattice.rs:363-421 | in every lattice of such a run that is not empty something is runnable or executing |
| `LatticeRuns.RunWellFormed` | src/node/lattice.rs:329-345 | in every lattice of any run leaves and queue are exact and executing events are sinks |
| `Executor.ExecutionValid` | src/node/operator_executor.rs:213-270 | every interleaving of the producer and n runners on any input keeps the invariant: runners hold exactly the executing nodes, every callback invoked at most once, input added in order |
| `Executor.DrainUnlessCycle` | src/node/operator_executor.rs:235-270 | on any input, once all runners have exited the lattice is empty and every event was invoked exactly once, exactly if no events wait in a circle |
| `Executor.Drain` | src/node/operator_executor.rs:235-270 | in every execution whose waiting events are manageable the exit of all runners leaves the lattice empty and every event invoked exactly once |
| `ExecutorProgress.NeverStuck` | src/node/operator_executor.rs:224-270 | unless two events of the input each read what the other writes, some step is always possible until the producer has joined the runners |
| `ExecutorProgress.StepCloser` | src/node/operator_executor.rs:224-270 | every step of the producer or of a runner decreases a well-founded rank |
| `ExecutorProgress.AlwaysFinishes` | src/node/operator_executor.rs:213-240 | on such an input every behaviour, whatever it makes its choices depend on, comes to its end, and is clean there exactly if no events wait in a circle |
| `ExecutorProgress.AlwaysDrains` | src/node/operator_executor.rs:213-270 | on a manageable input every behaviour ends with the lattice empty and every event invoked exactly once |
| `WakeUps.NoLostWakeUp` | src/node/operator_executor.rs:224-270 | in every state of every execution, streams open or ended: if something is runnable and no batch is just being added, some runner is at work or has yet to hear of the newest notification |
| `WakeUps.QuietWhileOpen` | src/node/operator_executor.rs:256-270 | while the streams are open and no runner can take a step, nothing is runnable and nothing is executing |
| `WakeUps.RunnersCatchUp` | src/node/operator_executor.rs:256-270 | without more input or its end, every behaviour of the runners comes to such a rest, and on a manageable input every callback added so far has been invoked by then |
| `RunnerCount.OneRunnerMessagesFirst` | src/node/operator_executor.rs:256-270 | with one runner, on every input as the streams make it, a watermark starts only after every earlier-arrived message up to its time has completed, in every execution |
| `RunnerCount.OneRunnerInOrder` | src/node/operator_executor.rs:256-270 | with one runner, in every execution whose waiting events are manageable, an event starts only after every earlier-arrived event that precedes it or ties with it has completed |
| `RunnerCount.TwoRunnersRace` | src/node/lattice.rs:290-302 | with two or more runners, for every message and every watermark it precedes there is an execution that starts the watermark while the message is executing |
| `Cycles.LockedForever` | src/node/lattice.rs:363-421 | an event that depends on itself is never handed out, whatever is inserted, handed out or completed later in the run |
| `Cycles.DrainUnlessEverCycle` | src/node/operator_executor.rs:235-270 | the exit of the runners is a clean one exactly if no events waited in a circle at any time of the execution |
| `Ties.SixInsertions` | src/node/lattice.rs:216-321 | any two messages and any four mutually tied watermarks they precede, inserted into an empty lattice, end with the four watermarks in a circle |
| `TieRuns.TiedWatermarksDeadlock` | src/node/lattice.rs:187-421 | however the run goes on from there, none of the four is ever handed out |
| `TieRuns.Standstill` | src/node/lattice.rs:363-421 | it can go on to a state with both messages completed, the four watermarks waiting and nothing to hand out or complete |
| `TieRuns.FourFail` | src/node/lattice.rs:216-321 | for every timestamp and priority a run of two messages and four watermarks of these, with at most four to a timestamp and priority throughout, comes to a standstill |
| `TieRuns.TieBound` | src/node/lattice.rs:187-421 | all runs with at most n watermarks to a timestamp and priority stay acyclic and never come to a standstill, exactly if n is at most three |
| `TiedOperators.PlainOperatorStuck` | src/dataflow/stream/internal_read_stream.rs:84-95 | four stateless watermark callbacks on a stream: for every timestamp, two messages and their watermark have an execution, with any number of runners, that ends with the four callbacks never invoked |
| `TiedOperators.StatefulOperatorStuck` | src/dataflow/stream/internal_stateful_read_stream.rs:51-69 | the same for four watermark callbacks of any one priority on a stateful stream |
| `TiedOperators.PlainTie` | src/dataflow/stream/internal_read_stream.rs:185-227 | that input is two message events and then four tied watermark events |
| `WriteStreams.WriteStream.SendMessage` | src/dataflow/stream/write_stream.rs:210-257 | one send: closed, timestamp and push errors, the watermark raised before the push, closing only after a pushed top watermark |
| `WriteStreams.WriteStream.UpdateWatermark` | src/dataflow/stream/write_stream.rs:167-190 | accepted exactly from the low watermark on; only an accepted watermark moves it |
| `WriteStreams.WriteStream.Push` | src/communication/pusher.rs:49-54 | the endpoints before the first failing one get the message, the others do not |
| `WriteStreams.EveryEndpointDisciplined` | src/dataflow/stream/write_stream.rs:167-257 | whatever is sent through one handle and whichever pushes fail, no endpoint sees anything older than a watermark after it |
| `WriteStreams.ClosedExactly` | src/dataflow/stream/write_stream.rs:210-257 | over every sequence of calls and faults, a handle is closed exactly if an accepted top watermark was pushed to every endpoint |
| `WriteStreams.AcceptedExactly` | src/dataflow/stream/write_stream.rs:167-257 | a call is accepted exactly if no earlier call closed the stream and no earlier accepted watermark, pushed or failed, nor the initial one is above its timestamp |
| `WriteStreams.ResultExactly` | src/dataflow/stream/write_stream.rs:210-257 | what every call of every sequence returns: closed after a pushed top watermark, else a timestamp error below an accepted watermark or at bottom, else a push error at a failing endpoint, else success |
| `WriteStreams.AfterTopExactly` | src/dataflow/stream/write_stream.rs:236-256 | an endpoint gets something after a top watermark exactly if an accepted top watermark got past it and failed at a later endpoint, and a later accepted call reaches it |
| `WriteStreams.NothingAfterTop` | src/dataflow/stream/write_stream.rs:224-257 | without push failures all endpoints get the same messages, the stream is closed exactly after a top watermark, and nothing follows one |
| `WriteStreams.FailedTopStaysOpen` | src/dataflow/stream/write_stream.rs:236-256 | the shortest case, for every handle: a top watermark that fails and is sent again reaches the endpoints before the fault twice |
| `WriteStreams.SafeHandle` | src/dataflow/stream/write_stream.rs:64-76 | an open handle keeps a shared log disciplined for every message exactly when it has caught up with the log's watermarks |
| `WriteStreams.ClonesFallBehind` | src/dataflow/stream/write_stream.rs:64-76 | after one clone of a new stream has sent any watermark above the initial one, the other accepts an older message |
| `WriteStreams.AcceptedAfterWatermark` | src/dataflow/stream/write_stream.rs:167-176 | after watermark t a message is accepted exactly when its timestamp is at least t |
| `Bundles.LowIsMinimum` | scripts/make_callback_builder.py:334-343 | the low watermark the generated code folds is the least slot, with an empty slot below all timestamps |
| `Bundles.AddPrioritySorts` | scripts/make_callback_builder.py:426-429 | adding a callback keeps the priorities sorted |
| `Bundles.AddPriorityKeeps` | scripts/make_callback_builder.py:426-429 | and loses or repeats none |
| `BundleTrees.ForwardAdvances` | scripts/make_callback_builder.py:287-331 | forwarding a watermark from a bundle moves it and everything built on it that had not moved, and reports exactly those whose low watermark rose, once each; a stale early return hides nothing |
| `LowWatermarks.MaxIsMaximum` | scripts/make_callback_builder.py:368-377 | the reference value of a slot is the newest watermark delivered on its stream |
| `LowWatermarks.WatermarkTracks` | scripts/make_callback_builder.py:287-377 | after any delivery every slot of every bundle in every tree equals its stream's newest watermark, and exactly the bundles whose minimum over streams rose fire, once, at that minimum |
| `LowWatermarks.LowMeaning` | scripts/make_callback_builder.py:334-343 | a bundle has a low watermark only if its streams are distinct and all heard from; it is then at most each stream's newest and equal to one of them |
| `LowWatermarks.LowExists` | scripts/make_callback_builder.py:334-343 | distinct streams that have all been heard from do have one |
| `LowWatermarks.RepeatedNeverFires` | scripts/make_callback_builder.py:368-377 | a bundle that lists a stream twice never has a low watermark |
| `LowWatermarks.LowIgnoresInterleaving` | scripts/make_callback_builder.py:334-343 | the low watermark depends on each stream's deliveries only, not on how streams interleave |
| `OperatorSetup.ApplyKeeps` | scripts/make_callback_builder.py:161-264 | every set-up call keeps each stream of each bundle connected to it, directly or through the bundle it was built on, with empty slots and sorted callbacks |
| `OperatorSetup.ApplyAccess` | scripts/make_callback_builder.py:201-225 | every set-up call keeps the states a bundle reads equal to states of its own streams, with at least one for each stream |
| `OperatorSetup.SetUp` | src/dataflow/stream/stateful_read_stream.rs:63-91 | every sequence of set-up calls gives connected bundles with empty slots, sorted callbacks and matching access sets |
| `SetUps.SetUpExact` | scripts/make_callback_builder.py:161-264 | over every set-up the operator is what the calls say: callbacks and priorities of every stream and bundle as often as they were added, streams and access sets of every bundle from the call that made it and its parent, children and registrations in order |
| `EventMakers.DataMadeExact` | src/dataflow/stream/internal_stateful_read_stream.rs:97-120 | every event made from a data message is a message event of its timestamp with no reads and at most one written state |
| `EventMakers.WatermarkMade` | src/dataflow/stream/internal_stateful_read_stream.rs:121-149 | every event made from a watermark is a watermark event of one of the stream's own callbacks at that time, or of a bundle that fired at the bundle's low watermark |
| `EventMakers.DataExact` | src/dataflow/stream/internal_read_stream.rs:188-203 | a data message gives exactly one event, with the right access set, to each stateless and stateful callback of its stream, and nothing to anything else |
| `EventMakers.WatermarkExact` | scripts/make_callback_builder.py:300-330 | a watermark gives each of its stream's own callbacks one event, and each callback of a bundle exactly one event, in priority order and at the new low watermark, when that rises in the history of deliveries, and none otherwise |
| `EventOrder.DataOrdered` | src/dataflow/stream/internal_read_stream.rs:188-203 | the events of a data message: stateless callbacks first, then those of stateful streams in the order these were made |
| `EventOrder.WatermarkOrdered` | src/dataflow/stream/internal_read_stream.rs:204-227 | the events of a watermark: stateless callbacks first, then for each stateful stream its own and after them those of bundles registered with it or built on such |
| `StreamOperators.StreamOperator.LowWatermark` | scripts/make_callback_builder.py:334-343 | the loop over the slots computes their minimum |
| `StreamOperators.StreamOperator.SetWatermark` | scripts/make_callback_builder.py:293-309 | the first slot of the stream is raised, or the watermark is stale; firing exactly when the low watermark becomes defined or rises |
| `StreamOperators.StreamOperator.ReceiveWatermark` | scripts/make_callback_builder.py:287-331 | a bundle's events come before its children's, in order, and the trees move as specified |
| `StreamOperators.StreamOperator.MakeEvents` | src/dataflow/stream/internal_read_stream.rs:185-227 | all events of a message in order: stateless, then each stateful stream's callbacks and bundles |
| `Pipeline.FiresExactly` | scripts/make_callback_builder.py:300-326 | over any input, a bundle fires at an item exactly when the low watermark of its streams rises there |
| `Pipeline.FiresIncrease` | scripts/make_callback_builder.py:300-326 | its firing times strictly increase |
| `Pipeline.FinalFiring` | scripts/make_callback_builder.py:300-326 | in the end it has fired at the final low watermark, if there is one |
| `Pipeline.MergeDisciplined` | src/node/operator_executor.rs:158-164 | merging the streams in any way keeps each one's discipline |
| `Pipeline.ArrivesBefore` | src/dataflow/stream/internal_stateful_read_stream.rs:92-150 | a message older than the time of a watermark event on its stream has arrived before that event is made |
| `Pipeline.LoggedArrived` | src/dataflow/stream/write_stream.rs:167-190 | every message ever pushed into the operator's channel of a stream and older than a watermark event that reads it has arrived before that event's item |
| `Pipeline.WatermarkBarrier` | src/node/operator_executor.rs:224-270 | with one runner, a watermark callback at v starts only after the callbacks of all messages older than v on every stream it reads have completed, however many callbacks tie |
| `Pipeline.EndToEnd` | src/node/operator_executor.rs:189-270 | the same from the writers' sends on, for every message ever pushed into the operator's channel of a stream the callback reads, every set-up, every failure pattern, every merge and every execution: the message has arrived and all its callbacks have completed |
| `ManageableOperators.TiesAreInvocations` | src/dataflow/stream/internal_read_stream.rs:185-227 | on every input to an operator whose watermark callbacks are ordered by their priorities, the events that share a timestamp and a priority are at most the invocations for them: one for each callback of that priority on a bundle, and one for each such callback of a stream and each arrival of that watermark on it |
| `ManageableOperators.UnrepeatedInvocations` | src/dataflow/stream/internal_read_stream.rs:185-227 | if no stream gets a watermark twice these are at most the callbacks of that priority |
| `ManageableOperators.CallsManageable` | src/dataflow/stream/internal_read_stream.rs:185-227 | if for each timestamp the watermark callbacks that can be invoked are weakly ordered, by priorities or by access, with no four tied, every such input is manageable |
| `ManageableOperators.PriorityCalls` | src/node/operator_event.rs:94-136 | callbacks ordered by priorities with at most three invocations to a timestamp and a priority are such |
| `ManageableOperators.OperatorFinishes` | src/node/operator_executor.rs:189-270 | an operator with such callbacks finishes, with any number of runners and in every behaviour, every callback invoked exactly once |
| `TimeVersions.WindowExact` | src/dataflow/state.rs:274-301 | lookup yields a value exactly at a stored key at or before now with at most history_size + 1 stored keys in between |
| `TimeVersions.RecentExact` | src/dataflow/state.rs:348-364 | iteration yields exactly the newest history_size + 1 keys up to now |
| `TimeVersions.RecentNewestFirst` | src/dataflow/state.rs:357-363 | in reverse chronological order |
| `TimeVersions.RecentInWindow` | src/dataflow/state.rs:274-364 | everything iterated is found by lookup, which reaches exactly one key further |
| `TimeVersions.CloseKeeps` | src/dataflow/state.rs:112-131 | closing t leaves the min(h, count) newest keys up to t and all later ones, and everything if h is 0 and nothing is later |
| `TimeVersions.CloseGuarded` | src/dataflow/state.rs:102-111 | only watermark callbacks close times; a refused call changes nothing |
| `TimeVersions.SetTimeExact` | src/dataflow/state.rs:373-381 | setting the time adds default entries for it where there are none and changes no other entry |
| `TimeVersions.AppendExact` | src/dataflow/state.rs:177-194 | appending, from message callbacks only, extends the current time's list at the end and changes nothing else; it panics exactly without a list |
| `TimeVersions.WriteExact` | src/dataflow/state.rs:325-341 | a write through the mutable reference, from watermark callbacks only, replaces the current time's state and changes nothing else; it panics exactly without one |
| `TimeVersions.InitialExact` | src/dataflow/state.rs:157-175 | the initial state, from the operator's construction only, is stored for bottom with an empty list |
| `GarbageCollection.CloseExact` | src/dataflow/state.rs:122-131 | closing t touches no entry later than t, invents none and changes no value |
| `GarbageCollection.CloseObserved` | src/dataflow/state.rs:102-133 | of every sequence of operations at later times, lookups included, the answers that depend on whether t was closed are exactly those of lookups, in a watermark callback, of the newest key that was dropped, while it would still be stored and h stored keys lie between it and now |
| `GarbageCollection.CloseUnobservable` | src/dataflow/state.rs:102-133 | every other operation of such a sequence answers the same, for every history size |
| `GarbageCollection.LookupShows` | src/dataflow/state.rs:274-301 | with history size 1 and any three times, closing the second makes a lookup of the first fail at the third, where it would have succeeded |
| `GarbageCollection.LookupObserves` | src/dataflow/state.rs:274-301 | of one history and its collected form, lookup differs exactly on the newest collected key, exactly while h keys lie between it and now |
| `GarbageCollection.CurrentKept` | src/dataflow/state.rs:112-131 | closing t at or after t keeps the current entry exactly when h > 0, now is later than t, or nothing newer is stored |
| `GarbageCollection.AlwaysKeyed` | src/dataflow/state.rs:102-194 | in every reachable state the two histories have the same keys, in order |
| `GarbageCollection.HistoriesHold` | src/dataflow/state.rs:102-381 | after any sequence of operations every entry holds what was last written at its time, or the default, and the messages appended at its time in order |
| `GarbageCollection.ReadExact` | src/dataflow/state.rs:198-364 | reading changes nothing and is for watermark callbacks only; the current entry is what is stored, and a missing one panics |
| `GarbageCollection.ClockAndContext` | src/dataflow/state.rs:366-381 | time and context are what they were last set to, and nothing else moves them |
| `GarbageCollection.FreshState` | src/dataflow/state.rs:84-96 | a new state is empty, at bottom and open to construction only |
| `TimeVersionedStates.TimeVersionedState.CloseTimeAt` | src/dataflow/state.rs:102-133 | the loops find the split key; both histories are cut there; other contexts are refused |
| `TimeVersionedStates.TimeVersionedState.SetTimeTo` | src/dataflow/state.rs:373-381 | both histories get an entry for the new time unless they have one |
| `TimeVersionedStates.TimeVersionedState.AppendMessage` | src/dataflow/state.rs:177-194 | appends to the current time's list in a callback only; panics exactly when that list does not exist |
| `TimeVersionedStates.TimeVersionedState.GetState` | src/dataflow/state.rs:274-301 | the window lookup, for watermark callbacks only |
| `TimeVersionedStates.TimeVersionedState.IterStates` | src/dataflow/state.rs:348-364 | the newest entries in reverse order, for watermark callbacks only |
| `JoinStates.StreamState.AddMsg` | src/dataflow/operators/join_operator.rs:35-48 | appends to the timestamp's list; map and heap keep the same keys, once each |
| `JoinStates.StreamState.CleanState` | src/dataflow/operators/join_operator.rs:51-61 | terminates, never fails its expect, and leaves exactly the later entries, in map and heap |
| `JoinStates.MapHoldsSince` | src/dataflow/operators/join_operator.rs:35-61 | under any interleaving an entry lists, in order, the messages added since its key was last cleaned |
| `JoinStates.OnWatermark` | src/dataflow/operators/join_operator.rs:168-188 | panics exactly when a side has no message at the watermark's timestamp, or the output stream is closed, past that timestamp or fails to push; then both sides keep everything, and otherwise the joined lists are sent and both sides cleaned |
| `Framing.ReadWrite` | src/communication/message_codec.rs:58-59 | reading back a written big-endian size gives it modulo 2^32 |
| `Framing.MessageCodec.DecodeFrom` | src/communication/message_codec.rs:52-102 | the decoder object follows the decoding function, status and metadata included |
| `Framing.DecodeInSync` | src/communication/message_codec.rs:52-102 | a call yields the next frame exactly when the whole of it is buffered, and never fails on a valid stream |
| `Framing.RoundTrip` | src/communication/message_codec.rs:113-137 | however the encodings are cut into chunks, exactly the frames come out, in order, and the decoder is back at its start |
| `Framing.PrefixTrip` | src/communication/message_codec.rs:52-102 | after any prefix exactly the frames wholly inside it have come out |
| `Framing.OneShotRoundTrip` | src/communication/mod.rs:138-173 | the one-shot parser inverts the encoder |
| `Framing.WireLayout` | src/communication/message_codec.rs:113-137 | a frame on the wire: both sizes, most significant byte first, metadata size first, then metadata and data |
| `Framing.DecodeReplies` | src/communication/message_codec.rs:52-102 | what the decoder replies to every buffer: it waits for header, metadata and data in turn, and fails exactly on metadata that cannot be read |
| `Framing.TruncatedExactly` | src/communication/mod.rs:274-321 | a frame cut to any shorter length panics exactly if the cut is within the metadata, and is malformed otherwise |
| `Framing.ParsersAgree` | src/communication/mod.rs:274-321 | on every buffer whatsoever the one-shot parser and the streaming decoder yield the same frames |
| `ControlFraming.ControlMessageCodec.DecodeFrom` | src/communication/control_message_codec.rs:47-62 | the control decoder object follows its decoding function |
| `ControlFraming.ControlRoundTrip` | src/communication/control_message_codec.rs:18-78 | control messages round-trip under any chunking |
| `ControlFraming.ControlLayout` | src/communication/control_message_codec.rs:64-78 | a control message on the wire: its size, most significant byte first, then the message |
| `ControlMessages.ControlMessageHandler.ReadMatching` | src/communication/control_message_handler.rs:215-258 | the first match is returned, the skipped messages go to the end in order, and it waits exactly when nothing matches |
| `ControlMessages.ControlMessageHandler.WaitForAllOperators` | src/node/node.rs:360-379 | counts only announced nodes, ends if all announcements are queued, and touches no other message |
| `ControlMessages.ControlMessageHandler.WaitForConnections` | src/node/node.rs:294-333 | the same for senders and receivers in all four roles |
| `ControlMessages.Full` | src/node/node.rs:364-379 | as many node ids as there are nodes are all of them |
| `StartUp.RunInvariant` | src/node/node.rs:294-379 | in every run of a cluster announcements are honest and none is lost, however messages are delayed and reordered |
| `StartUp.Barrier` | src/node/node.rs:438-457 | a node tells its operators to run only once every operator of every node is initialized |
| `StartUp.ToldOnce` | src/node/node.rs:347-358 | in every run each node is told by each other node at most once, and never by itself |
| `Connecting.ConnectedFirst` | src/node/node.rs:294-333 | in every run a node that has left the first phase had, in each of the four roles, as many different nodes reported as the cluster has, itself included |
| `Connecting.AllConnected` | src/node/node.rs:294-333 | if reports name only nodes of the cluster, these are all of them |
| `Connecting.RunningIsConnected` | src/node/node.rs:380-457 | once any node tells its operators to run, every node has had all its connections reported |
| `StartUpProgress.ConnectingEnds` | src/node/node.rs:294-333 | once a node has been told of all its connections, every sequence of its reads is bounded, and one that cannot be continued lets it go on |
| `StartUpProgress.StartingEnds` | src/node/node.rs:335-358 | once all its operators have reported, the same for collecting their reports |
| `StartUpProgress.GatheringEnds` | src/node/node.rs:360-379 | when all nodes have announced and everything for a node has been delivered, every sequence of its reads is bounded, and one that cannot be continued lets it run |
| `StartUpProgress.Quiescent` | src/node/node.rs:294-379 | a cluster whose nodes have been told of their connections and that can take no step has every node running |
| `StartUpProgress.AlwaysStarts` | src/node/node.rs:294-379 | from every such state every behaviour of the cluster, with deliveries in any order, brings all nodes to run |
| `StartUpProgress.RunStarts` | src/node/node.rs:294-379 | and every run to such a state can be carried on to one in which all nodes run |
| `StartUpProgress.ReadsEnd` | src/communication/control_message_handler.rs:215-234 | every sequence of reads of a node is bounded by what it holds |
| `Dataflows.AddOperatorConserves` | src/dataflow/graph/graph.rs:48-81 | registering an operator keeps one channel per reader slot on the stream the slot resolves to |
| `Dataflows.AddStreamConserves` | src/dataflow/graph/graph.rs:83-92 | so does registering a stream after its readers |
| `Dataflows.AddExtractExactly` | src/dataflow/graph/graph.rs:115-141 | an extract stream keeps it exactly if its stream is not a loop that has been set |
| `Dataflows.AliasOfRegistered` | src/dataflow/graph/graph.rs:160-189 | aliasing one registered stream to another moves its channels with its readers, and keeps it exactly if the two differ and no alias points to the first |
| `Dataflows.AliasOfUnregistered` | src/dataflow/graph/graph.rs:160-189 | aliasing a stream that is not registered, set before or not, keeps it exactly if it already points there or nothing reads it under its own id |
| `Dataflows.AddAliasExactly` | src/dataflow/graph/graph.rs:160-189 | together, the error case included: a condition on the graph before the call |
| `Dataflows.AliasRepliesExactly` | src/dataflow/graph/graph.rs:152-189 | an error, without effect, exactly for an unknown target; a panic exactly for a registered loop set to itself; otherwise the id resolves to the target from then on, and other ids as before |
| `Graphs.Graph.AddOperatorTo` | src/dataflow/graph/graph.rs:48-81 | resolves the read streams and adds one channel per slot whose stream exists |
| `Graphs.Graph.AddChannels` | src/dataflow/graph/graph.rs:192-223 | visiting operators and drivers in any order yields one channel per slot that names the stream |
| `Graphs.Graph.AddStreamAlias` | src/dataflow/graph/graph.rs:160-189 | the merge of the two streams, its error case, and the unreachable case of a stream aliased to itself |
| `Scheduling.RegistersExactly` | src/dataflow/graph/graph.rs:48-189 | any registration on a graph with one channel per slot keeps that exactly if it is safe |
| `Scheduling.OneChannelPerSlot` | src/dataflow/graph/graph.rs:48-223 | over every order of registrations with unused ids, each stream has had exactly one channel per reader slot all along exactly if every registration was safe |
| `Scheduling.RegistryExact` | src/dataflow/graph/graph.rs:48-150 | in every construction operators are recorded with their node and their streams as resolved then, streams with their source, and extracted streams in order, and nothing else is |
| `Scheduling.ExtractOfLoop` | src/dataflow/graph/graph.rs:115-141 | a graph that safe registrations build, for any two streams, on which extracting a set loop is not |
| `Scheduling.LoopOfLoop` | src/dataflow/graph/graph.rs:160-189 | one on which setting a loop that another one points to is not |
| `Scheduling.LoopSetTwice` | src/dataflow/graph/graph.rs:160-189 | one on which setting a loop again is not |
| `Scheduling.LoopOfItself` | src/dataflow/graph/graph.rs:160-189 | one on which setting a loop to itself panics |
| `Scheduling.ExtractTakesFail` | src/scheduler/channel_manager.rs:230-258 | after an extract of a set loop, in whatever order the readers of its target on that node take their endpoints, exactly the last one finds none |
| `Scheduling.Schedule` | src/scheduler/mod.rs:11-41 | succeeds exactly when every source and sink is registered, and then places every channel by comparing nodes |
| `Scheduling.ScheduleKeepsSinks` | src/scheduler/mod.rs:18-39 | scheduling keeps the sinks of every stream and leaves nothing unscheduled |
| `Scheduling.MakeEndpoints` | src/scheduler/channel_manager.rs:171-209 | the loop makes exactly the specified receive and send endpoints of a stream on a node |
| `Scheduling.EndpointsMatchSlots` | src/scheduler/channel_manager.rs:156-223 | with one channel per slot each node gets, per stream and reader, as many receive endpoints as that local reader has slots |
| `Scheduling.StreamEndpoints.TakeRecvEndpoint` | src/scheduler/channel_manager.rs:67-72 | pops the last endpoint, or fails if there is none |
| `Scheduling.TakesSucceed` | src/scheduler/channel_manager.rs:230-258 | in whatever order the readers of a node take endpoints, all takes succeed while none exceeds its slots, and none is left exactly when all slots are served |
| `Scheduling.OneTransmissionPerReader` | src/scheduler/channel_manager.rs:171-206 | a stream has as many send endpoints to each node, its own included, as that node has receive endpoints for it |
| `Remoting.DataReceiver.UpdatePushers` | src/communication/receivers.rs:109-114 | every queued pusher is installed, the newest for each stream |
| `Remoting.NewestInstalled` | src/communication/receivers.rs:109-114 | the newest queued pusher of a stream is the one used, and the old one only if none is queued |
| `Remoting.PushersUsed` | src/scheduler/channel_manager.rs:119-137 | every pusher is for a stream that another node writes, with a channel for each of that node's send endpoints |
| `Remoting.DataReceiver.Receive` | src/communication/receivers.rs:75-104 | queued pushers are installed first; then a frame goes to every endpoint of its stream's pusher, and panics exactly if there is none |
| `Remoting.PanicsExactly` | src/communication/receivers.rs:75-114 | over any sequence of queued pushers and frames a receiver panics exactly if some frame arrives before a pusher for its stream was queued |
| `Remoting.NoRace` | src/node/node.rs:380-457 | as nodes queue their pushers before they announce themselves and send only once they run, the start-up barrier rules that out in every run of the cluster |
| `Remoting.QueuedFirst` | src/communication/receivers.rs:75-114 | with the pushers queued first, in any order, a receiver dispatches as the next rows assume |
| `Remoting.RemoteCopies` | src/scheduler/channel_manager.rs:119-137 | whatever the streams of a node send to another node whose pushers are queued, no frame lacks a pusher there, and each of the k readers of a stream gets every message k times in a row, at any moment a prefix of that |
| `Remoting.ExactlyOnce` | src/scheduler/channel_manager.rs:119-206 | a remote reader gets exactly the messages sent exactly if it is the only reader of the stream on its node, or nothing is sent |

## Left out

- Sockets, TCP and zenoh transports, the Tokio runtime, threads and shutdown: channels are FIFO queues, or a bag between
  nodes at start-up; which pushes fail and in which order things happen is given by the environment.
- bincode and abomonation: a serializer is any pair of functions with read(write(m)) = m; sizes of 2^32 or more are
  outside the round-trip theorems.
- `BinaryHeap`, `BTreeMap`, `HashMap` and the graph library: by their contracts, with arbitrary iteration order where
  the source iterates over a hash map, and arbitrary neighbour order in the search.
- The bodies of callbacks, and which callback an event carries: an event is its timestamp, kind, priority and access
  sets, and its position in the input is its identity.
- The executor's loops are modelled as steps of a state machine rather than as methods, because they interleave. The
  lattice operations hold all locks throughout, so handing out and completing are one step each; a batch is added one
  event per step, which allows more interleavings than the code has.
- `Operator::run`, `Operator::destroy` and the control message that starts an operator inside the executor.
- The timestamp stored with a leaf, which only printing uses.
- Sharing of bundles through `Rc<RefCell<…>>`: bundles are positions in a sequence owned by one object.
- Mutual exclusion of stateful message callbacks with several runners, and order against an event that is already
  executing when another is inserted: the code does not provide them.
- `NoRace`: that pushers are queued before a node announces itself, and frames sent only by running nodes, is how
  `run_operators` orders its calls; it is a hypothesis on the timeline, not derived from code.
- `EndToEnd`: messages of a stream sent through several clones of its handle are not covered, and neither are messages
  with exactly the watermark's timestamp that arrive after it, because the code does not hold those back.
- `ReadMatching`: a disconnected channel is not modelled, because the handler holds a sender of its own queue.
- `AlwaysStarts`: that the sender and receiver tasks of a node report is an assumption, because nothing in the code
  makes them succeed; a report that comes late or twice is in the safety theorems only.
- Python bindings, logging, profiling, DOT output, code generation text, ingest and extract streams' reading loops.
