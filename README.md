# bowline orchestration core in Dafny

bowline runs data pipelines made of *processors*. A processor wraps a target
function and runs it in its own worker. The worker reads from an optional input
queue, writes truthy results to an optional output queue and polls a signal
queue for `shutdown`. A *processor chain* links processors in a line: each one's
output queue becomes the next one's input queue. A *processor graph* keeps an
insertion-ordered map from each processor to its children. Building the graph
gives every edge its own fresh queue. Input enters the first processor added.
Output is drained round-robin from the processors that have no children.

The model has five modules:

- `Values` (values.dfy): the values that travel between stages, the model
  classes and `type()` comparisons the core makes, and the three exceptions it
  raises. A call that may raise returns `Result`: `Ok(value)` or
  `Raise(ValueError | RuntimeError | IndexError)`.
- `Queues` (queues.dfy): a FIFO queue as a heap object, so that stages holding
  the same queue see the same items.
- `Processors` (processor.dfy): the worker loop, one iteration at a time.
  - `Iteration` works on queue contents and `RunIteration` on the queue objects.
  - `Run` gives several iterations; the drain lemmas prove the order the outputs come out in.
  - The `Processor` class models the stage object. Its fields are the queues
    and the started worker (`_process`), which its methods update.
  - `StartInOrder` and `ShutdownInOrder` are the start and shutdown passes over
    a list of processors, which chains and graphs share.
- `Chains` (chain.dfy): the `ProcessorChain` class.
  - `BuildProcessorChain` does the wiring. In a chain without repeated
    processors it is proved to give every processor after the first its
    predecessor's output queue, up to the first failing check. When a
    processor appears twice, the last position holding it decides its input
    queue, as in the source.
  - `DrainTwoStageChain` runs the worker of stage A and then that of stage B,
    one `RunIteration` per input, on the queue objects A and B share once
    wired. B's output queue ends with B(A(x)) for each pushed x, in push
    order, when every result is truthy. A drains completely before B runs;
    interleavings of the two workers are not covered.
  - `TwoStageChainScenario` does the same from scratch. It builds two new
    processors with matching models, chains and starts them (`StartTwoStage`),
    pushes the inputs through `PushInput`, and then drains the two workers
    that `Start` gave them.
- `Graphs` (graph.dfy): the adjacency map as a `Topology` value and the
  `ProcessorGraph` class.
  - The add rules are the function `Added`, and the invariants they keep are
    proved over any sequence of calls.
  - The terminal processors are `Terminals`.
  - The round-robin cursor is `Advance`/`AdvanceBy`, with lemmas that the
    terminals take turns.
  - The wiring walks the edge list `Edges`. A fresh queue made for each edge
    is proved to be attached to that edge's source. It is its target's input
    queue unless a later edge enters the same processor, in which case the
    last such edge wins.

The chain's build check is modelled the way the code writes it. It compares the
*predecessor's own* output model with its own input model
(bowline/models/chain.py:56), not the predecessor's output with the current
processor's input. `type(a) is type(b)` on two model classes compares their
metaclass, and that is the same for every model class. So both the chain check
and the graph check (bowline/models/graph.py:92) tell only "a model" from
"no model" (`SameKind`).

## Model

| member | source | states |
|---|---|---|
| Values.HasModel | bowline/models/chain.py:27 | `type(v) == model`: `v` is an object whose class is the model class. `None` and a missing model never match. The `PushInput` contracts of chains and graphs raise ValueError whenever it fails, and also on an empty container or a head without an input queue |
| Values.SameKind | bowline/models/graph.py:92 | `type(a) is type(b)` on two optional model classes holds exactly when both or neither are present. `FirstMismatch` and `FirstBadEdge` fail exactly where it does not hold |
| Processors.Run | bowline/models/processor.py:94 | the `while True` loop as `n` iterations, stopping early when one exits. `DrainInOrder` and `DrainStage` state what it does on a queue of inputs |
| Processors.Iteration | bowline/models/processor.py:94-112 | one loop iteration consumes only the head signal. It exits exactly on shutdown and then touches no data queue. It takes at most the head input item and appends at most one item, always truthy, to the output tail |
| Processors.ShutdownLeavesDataQueues | bowline/models/processor.py:96-100 | a shutdown signal at the head ends the loop with the input and output queues unchanged |
| Processors.ConsumesOneInput | bowline/models/processor.py:103-112 | without shutdown and with a non-empty input queue, exactly the head item is dequeued and passed to the target, and the result joins the output queue exactly when it is truthy |
| Processors.IdleOnEmptyInput | bowline/models/processor.py:102-106 | an empty input queue means no target call and no change to either data queue |
| Processors.SourceStageCallsWithoutArgument | bowline/models/processor.py:107-112 | without an input queue the target is called with no argument, and its truthy result is emitted |
| Processors.SinkStageEmitsNothing | bowline/models/processor.py:110-112 | without an output queue nothing is emitted |
| Processors.DrainOne | bowline/models/processor.py:94-112 | with no signals pending, the first iteration takes the head input and emits its truthy result |
| Processors.DrainInOrder | bowline/models/processor.py:94-112 | with no signals, one iteration per queued input empties the input queue and appends the truthy results in push order |
| Processors.AllTruthyResults | bowline/models/processor.py:111-112 | when every result is truthy, the emitted results are the target applied to each input, in order |
| Processors.FifoOutputs | test/test_processor.py:35-54 | a single stage with an always-truthy target emits the target of each pushed input, in push order |
| Processors.DrainStage | bowline/models/processor.py:94-112 | running the worker on its queue objects once per queued input, with no signal pending and with distinct input and output queue objects, empties the input queue and appends the truthy results to the output queue in push order, as `Run` says |
| Processors.RunIteration | bowline/models/processor.py:94-112 | the iteration on the queue objects. It exits exactly on shutdown and leaves the contents `Iteration` gives. When the input and output queue are one queue, the taken item leaves its head and the result joins its tail |
| Processors.Processor.constructor | bowline/models/processor.py:17-31 | a new processor is not started and has an empty signal queue. It owns a fresh empty input queue exactly when it has an input model, and a fresh empty output queue exactly when it has an output model |
| Processors.Processor.Setup | bowline/models/processor.py:82-86 | creates the input queue only for an input model and the output queue only for an output model, as distinct fresh empty queues |
| Processors.Processor.Start | bowline/models/processor.py:33-40 | the first start hands the worker the name and the current queues. A second start raises RuntimeError and changes nothing |
| Processors.Processor.Shutdown | bowline/models/processor.py:42-44 | appends exactly one shutdown signal |
| Processors.Processor.PushInput | bowline/models/processor.py:46-51 | appends to the input queue's tail. Without an input model or input queue it raises ValueError and changes nothing |
| Processors.Processor.HasOutput | bowline/models/processor.py:58-59 | there is an output queue and it is not empty. `Processor.GetOutput` returns a value exactly when it holds |
| Processors.Processor.GetOutput | bowline/models/processor.py:53-56 | returns and removes the output head exactly when there is output, and otherwise returns `None` with nothing changed |
| Processors.Processor.SetInputQueue | bowline/models/processor.py:73-74 | the input queue becomes the given queue |
| Processors.Processor.SetOutputQueue | bowline/models/processor.py:79-80 | the output queue becomes the given queue |
| Processors.Processor.AddOutputQueue | bowline/models/graph.py:96 | appends the given queue to the processor's attached queues |
| Processors.StartInOrder | bowline/models/chain.py:44-45 | starts processors in list order. The first one already started, before the call or earlier in the list, raises RuntimeError and ends the pass. Exactly the processors before it are started, on their current queues |
| Processors.SignalsSentCount | bowline/models/chain.py:65-67 | every signal the shutdown pass sends is `shutdown`, one per position the processor holds in the list |
| Processors.ShutdownInOrder | bowline/models/graph.py:83-85 | each processor's signal queue gains one shutdown signal per position it holds, appended after what it held |
| Chains.OwnModelsAgree | bowline/models/chain.py:56 | the chain's build check on the predecessor's own output and input models. `FirstMismatch` stops at the first position where it fails |
| Chains.FirstMismatch | bowline/models/chain.py:51-58 | the first position whose predecessor fails the build check, and every position before it passes |
| Chains.WiredChainLinksNeighbours | bowline/models/chain.py:51-63 | in a chain without repeats, full wiring gives every processor after the first its predecessor's output queue and leaves the first processor's input queue as it was |
| Chains.WirePosition | bowline/models/chain.py:63 | one step of the walk: position `i` takes the output queue of position `i - 1` as its input queue, and every other processor keeps what the earlier steps gave it |
| Chains.WirePositions | bowline/models/chain.py:51-63 | the walk stops exactly at the first position whose predecessor fails the check, and every position before it is wired |
| Chains.ProcessorChain.constructor | bowline/models/chain.py:13-16 | `None` and the empty list both give an empty chain, and any other list is kept as given |
| Chains.ProcessorChain.AddProcessor | bowline/models/chain.py:18-22 | appends the processor at the end |
| Chains.ProcessorChain.PushInput | bowline/models/chain.py:24-29 | an empty chain or an input of the wrong model class raises ValueError, and so does a first processor without an input queue. Otherwise the input is appended to the first processor's input queue only |
| Chains.ProcessorChain.GetOutput | bowline/models/chain.py:31-32 | an empty chain raises IndexError. Otherwise it is the last processor's `get_output` |
| Chains.ProcessorChain.HasOutput | bowline/models/chain.py:34-35 | an empty chain raises IndexError. Otherwise it is the last processor's `has_output` |
| Chains.ProcessorChain.BuildProcessorChain | bowline/models/chain.py:47-63 | an empty chain raises ValueError. The check fails exactly at the first mismatch and then raises ValueError. The positions before that point are wired in order, so a processor that appears more than once keeps the output queue of its last predecessor. In a chain without repeats, each of those positions gets its predecessor's output queue |
| Chains.ProcessorChain.Start | bowline/models/chain.py:37-45 | an empty chain raises ValueError. The whole chain is built before anything starts, so a failing check starts nothing. Otherwise the processors are started in order up to the first one already started, which raises RuntimeError |
| Chains.ProcessorChain.StartProcessors | bowline/models/chain.py:44-45 | the start pass after building: the `RuntimeError` rule of `StartInOrder`, with every queue left in place |
| Chains.ProcessorChain.Shutdown | bowline/models/chain.py:65-67 | one shutdown signal per position, in list order |
| Chains.DrainTwoStageChain | test/test_processor_chain.py:56-75 | with B's input queue being A's output queue, draining A then B empties both A's input queue and the shared queue. B's output queue holds B's truthy results on A's truthy results, in push order, and is B(A(x)) for each pushed x when every result is truthy |
| Chains.StartTwoStage | bowline/models/chain.py:37-63 | chaining and starting two distinct, not yet started processors whose first one passes the build check succeeds. The second reads from the first's output queue, the first keeps its input queue, and both get workers on those queues |
| Chains.TwoStageChainScenario | test/test_processor_chain.py:50-75 | two new processors with matching models, chained, started, fed through `push_input` and drained: starting succeeds, and the outputs are B's truthy results on A's truthy results, in push order, and B(A(x)) for each pushed x when every result is truthy |
| Graphs.Added | bowline/models/graph.py:23-40 | the add rule as a value of the graph. `AddedRaisesExactly`, `AddedWithParent` and `AddedPreservesWellFormed` state its refusals, its effect and the invariants it keeps |
| Graphs.AddedRaisesExactly | bowline/models/graph.py:23-36 | `add_processor` raises ValueError exactly in its three cases: no parent on a non-empty graph, a parent that is not a key, and a link that already exists |
| Graphs.AddedWithParent | bowline/models/graph.py:30-40 | a successful add appends the child to the parent's list only, and makes the child a key with an empty list if it was not one. The keys only grow at the end |
| Graphs.RegisterWellFormed | bowline/models/graph.py:38-40 | registering a processor keeps the graph well formed and at most appends it to the keys |
| Graphs.LinkWellFormed | bowline/models/graph.py:34-37 | linking a key to a key it is not yet linked to keeps the graph well formed |
| Graphs.AddedPreservesWellFormed | bowline/models/graph.py:23-40 | every successful add keeps the keys distinct and equal to the map's keys, keeps every child a key, keeps child lists without repeats, and keeps the first key |
| Graphs.AddAllKeepsInvariants | bowline/models/graph.py:23-40 | after any sequence of adds, refused ones included, the graph is well formed and its first key never changes |
| Graphs.EmptyTopologyWellFormed | bowline/models/graph.py:16-21 | a new graph is well formed |
| Graphs.Terminals | bowline/models/graph.py:110-115 | the terminal processors. `TerminalsAreChildlessKeys` states that they are exactly the childless keys, in key order |
| Graphs.TerminalsAreChildlessKeys | bowline/models/graph.py:110-115 | the terminals are exactly the keys with an empty child list, in key order, each once |
| Graphs.FirstProcessor | bowline/models/graph.py:104-108 | the first key. `FirstSuccessIsEntry` states which processor that is |
| Graphs.FirstSuccessIsEntry | bowline/models/graph.py:104-108 | on a graph built from a new one by any sequence of `add_processor` calls, the entry processor is the one added by the first call that succeeds, whatever the later calls |
| Graphs.Advance | bowline/models/graph.py:66-70 | after a step the cursor lies in `0 .. n-1` when there are terminals |
| Graphs.AdvanceByAdds | bowline/models/graph.py:66-70 | `k` steps followed by `m` steps are `k + m` steps |
| Graphs.AdvanceWithinLap | bowline/models/graph.py:66-70 | within one lap the cursor moves on by one per step and wraps around at most once |
| Graphs.StaleCursorRestarts | bowline/models/graph.py:69-70 | a cursor left at or past the number of terminals behaves as a new graph's cursor |
| Graphs.RoundRobinFromStart | bowline/models/graph.py:19-21 | from a new graph, the first `n` steps land on terminals `0 .. n-1` in order |
| Graphs.RoundRobinPeriodic | bowline/models/graph.py:66-73 | once the cursor has moved at least once, every `n` further steps bring it back to where it was |
| Graphs.AdvancesCoverAll | bowline/models/graph.py:61-63 | any `n` consecutive steps visit every terminal |
| Graphs.FirstReady | bowline/models/graph.py:61-64 | the scan stops at the first step whose terminal has output, and every terminal before it had none |
| Graphs.FirstReadyFindsAny | bowline/models/graph.py:57-64 | the scan finds output exactly when some terminal has output, whatever the cursor |
| Graphs.ServedCursor | bowline/models/graph.py:57-64 | the cursor a `get_output` call leaves is an index into the terminal list when there are terminals, and is unchanged when there are none |
| Graphs.AllReadyAdvanceByOne | bowline/models/graph.py:61-73 | while every terminal has output, each `get_output` call moves the cursor on by exactly one |
| Graphs.FromStartLaps | bowline/models/graph.py:19-21 | from a new graph's cursor, step `q*n + r + 1` lands on terminal `r` |
| Graphs.AllReadyTakeTurns | test/test_processor_graph.py:141-150 | while every terminal has output, call `q*n + r + 1` of `get_output` on a new graph serves terminal `r`, so the terminals alternate in key order |
| Graphs.Edges | bowline/models/graph.py:89-90 | the edges in the walk order, keys in insertion order and then each child list in order. `EdgesAreTheLinks` states that they are exactly the links |
| Graphs.EdgesAreTheLinks | bowline/models/graph.py:89-90 | the edges walked are exactly the links (parent, child) of the graph |
| Graphs.EdgeChecks | bowline/models/graph.py:92 | the graph's build check on an edge, the source's output model against the target's input model. `FirstBadEdge` stops at the first edge where it fails |
| Graphs.FirstBadEdge | bowline/models/graph.py:89-93 | the first edge that fails its check, and every edge before it passes |
| Graphs.EdgeQueueReachesTarget | bowline/models/graph.py:94-97 | each edge's queue is attached to its source, and it is its target's input queue unless a later edge also points into that target |
| Graphs.AttachedOnlyToSources | bowline/models/graph.py:96 | a processor that is the source of no edge gains no queue from the walk: its attached list stays as it was |
| Graphs.WireEdge | bowline/models/graph.py:94-97 | one edge gets a fresh empty queue, attached to its source and set as its target's input queue |
| Graphs.WireEdges | bowline/models/graph.py:87-98 | edges are wired in order up to the first one failing its check, which raises ValueError. The queues made are fresh, distinct and empty, one per wired edge |
| Graphs.ProcessorGraph.constructor | bowline/models/graph.py:16-21 | an empty, well-formed graph with the cursor at -1 |
| Graphs.ProcessorGraph.AddProcessor | bowline/models/graph.py:23-40 | the graph takes the value `Added` gives, or stays as it was and the call raises that error. The graph stays well formed |
| Graphs.ProcessorGraph.PushInput | bowline/models/graph.py:42-49 | an empty graph or an input of the wrong model class raises ValueError, and so does a first processor without an input queue. Otherwise the input is appended to the input queue of the first processor added |
| Graphs.ProcessorGraph.HasOutput | bowline/models/graph.py:51-55 | true exactly when some terminal processor has output |
| Graphs.ProcessorGraph.NextTerminalProcessor | bowline/models/graph.py:66-73 | advances the cursor one step and returns the terminal it lands on. With no terminals it raises IndexError |
| Graphs.ProcessorGraph.ScanTerminals | bowline/models/graph.py:61-63 | tries at most one lap of terminals, stops at the first one with output, and leaves the cursor on it |
| Graphs.ProcessorGraph.GetOutput | bowline/models/graph.py:57-64 | returns the head output of the first terminal, in cursor order, that has output. Only that queue changes. When no terminal has output it returns `None` after one full lap with every queue unchanged |
| Graphs.ProcessorGraph.BuildProcessorChain | bowline/models/graph.py:87-98 | the edges are wired in key then child order up to the first failing check, which raises ValueError. Attached queues and input queues are what those edges make of the previous ones |
| Graphs.ProcessorGraph.Start | bowline/models/graph.py:75-81 | an empty graph raises ValueError. A failing edge starts nothing. Otherwise the keys are started in order up to the first one already started, which raises RuntimeError. The queues are those the wired edges leave: each processor's attached queues and input queue are what the edges before the first failing one make of the old ones, with fresh distinct queues |
| Graphs.ProcessorGraph.StartKeys | bowline/models/graph.py:100-102 | with distinct keys, exactly the keys before the first one already started are started |
| Graphs.ProcessorGraph.Shutdown | bowline/models/graph.py:83-85 | one shutdown signal per key, in key order |

## Left out

- Worker processes and inter-process communication are not modelled. The
  worker is a `Worker` value recorded by `Start`, and its loop is `Iteration`
  / `RunIteration` run on demand. The interleaving of concurrent workers and
  the busy-waiting loop are not modelled.
- The target function is a total Dafny function. Exceptions it raises and
  side effects it has are not modelled.
- Logging and `print` calls, the `time.sleep` calls in the tests, and the
  trivial getters (`get_name`, `get_input_model`, `get_output_model`,
  `get_input_queue`, `get_output_queue`) are left out. The model reads those
  fields directly.
- `add_output_queue` is called by the graph's build step but is not defined in
  bowline/models/processor.py. `Processors.Processor.AddOutputQueue` models
  only the evident intent, an append to a list of attached queues. No worker
  reads that list, so the queues a graph wires are never fed.
- bowline/models/result.py is not part of this model. The graph's
  `get_output` returns the output value itself.
- Stats and multiple worker instances per processor appear in the tests
  (test/test_processor.py:59-80) but not in bowline/models/processor.py, and
  are not modelled.
- The configuration loader (bowline/utils/config.py), the Kafka and example
  processors, and pydantic validation of models are not part of this model.
- Chains.ProcessorChain.constructor: the model copies the list. In the source
  the chain keeps the caller's list, so the caller's later changes to that list
  reach the chain.
- Chains.DrainTwoStageChain: covers stage A draining every input before
  stage B runs, with no signal pending. Interleaved iterations of the two
  workers are not covered. The same holds for Chains.TwoStageChainScenario.
- Graphs.AllReadyTakeTurns: states the turn order for calls that all see every
  terminal with output. Calls that see some terminals empty are covered by
  `Graphs.ProcessorGraph.GetOutput` and `Graphs.FirstReady`.
- Unicode and the content of values: a value is its class, its truthiness
  and an integer standing for its payload.
