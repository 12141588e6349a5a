/**
 * One pipeline stage: a target function between an optional input queue and
 * an optional output queue, run by a single worker that polls a signal queue
 * for shutdown.
 */
module Processors {
  import opened Values
  import opened Queues

  /** What can travel on a signal queue; `shutdown` is the only signal the core sends. */
  datatype Signal = Shutdown | Other(tag: int)

  /**
   * The arguments `start` hands to the worker process: the processor's name
   * and its queues as they are at that moment.
   */
  datatype Worker = Worker(name: string, signals: Queue<Signal>, input: Queue?<Value>, output: Queue?<Value>)

  /** The contents of the queues one worker iteration reads and writes (`None`: no such queue). */
  datatype WorkerQueues = WorkerQueues(signals: seq<Signal>, input: Option<seq<Value>>, output: Option<seq<Value>>)

  /** How one iteration of the worker loop ends: it returns, or goes round again. */
  datatype Step = Exited(queues: WorkerQueues) | Continued(queues: WorkerQueues)

  /** The iteration finds the shutdown signal at the head of the signal queue. */
  predicate SeesShutdown(w: WorkerQueues) {
    w.signals != [] && w.signals[0] == Shutdown
  }

  /**
   * The call the iteration makes to the target, if any: with the input
   * queue's head, with no argument when there is no input queue, or none
   * when the input queue is empty.
   */
  function TargetCall(w: WorkerQueues): Option<Option<Value>> {
    match w.input
    case None => Some(None)
    case Some(q) => if q == [] then None else Some(Some(q[0]))
  }

  /** The value the iteration produces (`None` when the target is not called). */
  function Produced(w: WorkerQueues, target: Target): Value {
    match TargetCall(w)
    case None => NoneValue
    case Some(arg) => target(arg)
  }

  /** The input queue after the iteration has taken its item, if it took one. */
  function RemainingInput(w: WorkerQueues): Option<seq<Value>> {
    match w.input
    case None => None
    case Some(q) => if q == [] then w.input else Some(q[1..])
  }

  /** What the iteration appends to the output queue: the produced value when truthy. */
  function Emitted(w: WorkerQueues, target: Target): seq<Value> {
    var v := Produced(w, target);
    if Truthy(v) then [v] else []
  }

  /**
   * One pass through the body of the worker's `while True` loop: consume the
   * head signal (return on shutdown), take at most one input item, call the
   * target, and put a truthy result on the output queue if there is one.
   */
  function Iteration(w: WorkerQueues, target: Target): (r: Step)
    // The head signal, and only it, is consumed; the loop exits exactly on shutdown.
    ensures r.queues.signals == if w.signals == [] then [] else w.signals[1..]
    ensures r.Exited? <==> SeesShutdown(w)
    ensures r.Exited? ==> r.queues.input == w.input && r.queues.output == w.output
    // At most one input item is taken, from the head.
    ensures r.queues.input.Some? == w.input.Some?
    ensures w.input.Some? ==> (r.queues.input == w.input
                               || (w.input.value != [] && r.queues.input == Some(w.input.value[1..])))
    // At most one item is added to the output queue, at its tail, and it is truthy.
    ensures r.queues.output.Some? == w.output.Some?
    ensures w.output.Some? ==> |w.output.value| <= |r.queues.output.value| <= |w.output.value| + 1
    ensures w.output.Some? ==> r.queues.output.value[..|w.output.value|] == w.output.value
    ensures w.output.Some? && |r.queues.output.value| > |w.output.value| ==> Truthy(r.queues.output.value[|w.output.value|])
  {
    if SeesShutdown(w) then Exited(w.(signals := w.signals[1..]))
    else
      var signals := if w.signals == [] then [] else w.signals[1..];
      var output := match w.output
        case None => None
        case Some(q) => Some(q + Emitted(w, target));
      Continued(WorkerQueues(signals, RemainingInput(w), output))
  }

  /** A shutdown signal at the head ends the loop before either data queue is touched. */
  lemma ShutdownLeavesDataQueues(w: WorkerQueues, target: Target)
    requires SeesShutdown(w)
    ensures Iteration(w, target) == Exited(WorkerQueues(w.signals[1..], w.input, w.output))
  {
  }

  /**
   * Without shutdown and with a non-empty input queue, exactly the head item is
   * dequeued and passed to the target, whose truthy result joins the output queue.
   */
  lemma ConsumesOneInput(w: WorkerQueues, target: Target)
    requires !SeesShutdown(w) && w.input.Some? && w.input.value != []
    ensures TargetCall(w) == Some(Some(w.input.value[0]))
    ensures Iteration(w, target).queues.input == Some(w.input.value[1..])
    ensures w.output.Some? ==>
      Iteration(w, target).queues.output
        == Some(w.output.value + (if Truthy(target(Some(w.input.value[0]))) then [target(Some(w.input.value[0]))] else []))
  {
  }

  /** An empty input queue means the target is not called and no data queue changes. */
  lemma IdleOnEmptyInput(w: WorkerQueues, target: Target)
    requires !SeesShutdown(w) && w.input == Some([])
    ensures TargetCall(w).None?
    ensures Iteration(w, target).Continued?
    ensures Iteration(w, target).queues.input == w.input && Iteration(w, target).queues.output == w.output
  {
    assert Emitted(w, target) == [];
    assert w.output.Some? ==> w.output.value + [] == w.output.value;
  }

  /** Without an input queue the target is called with no argument on every iteration. */
  lemma SourceStageCallsWithoutArgument(w: WorkerQueues, target: Target)
    requires !SeesShutdown(w) && w.input.None?
    ensures TargetCall(w) == Some(None)
    ensures w.output.Some? ==>
      Iteration(w, target).queues.output
        == Some(w.output.value + (if Truthy(target(None)) then [target(None)] else []))
  {
  }

  /** Without an output queue nothing is ever emitted. */
  lemma SinkStageEmitsNothing(w: WorkerQueues, target: Target)
    requires w.output.None?
    ensures Iteration(w, target).queues.output.None?
  {
  }

  /** `n` iterations of the worker loop, or fewer if it returns first. */
  function Run(w: WorkerQueues, target: Target, n: nat): Step
    decreases n
  {
    if n == 0 then Continued(w)
    else match Iteration(w, target)
      case Exited(q) => Exited(q)
      case Continued(q) => Run(q, target, n - 1)
  }

  /** The truthy results of `target` on `xs`, in order: what a worker emits for those inputs. */
  function TruthyResults(target: Target, xs: seq<Value>): seq<Value> {
    if xs == [] then []
    else (if Truthy(target(Some(xs[0]))) then [target(Some(xs[0]))] else []) + TruthyResults(target, xs[1..])
  }

  /** With no signals pending, the first iteration takes the head input and emits its truthy result. */
  lemma DrainOne(xs: seq<Value>, ys: seq<Value>, target: Target)
    requires xs != []
    ensures Run(WorkerQueues([], Some(xs), Some(ys)), target, |xs|)
         == Run(WorkerQueues([], Some(xs[1..]), Some(ys + Emitted(WorkerQueues([], Some(xs), Some(ys)), target))), target, |xs| - 1)
  {
    var w := WorkerQueues([], Some(xs), Some(ys));
    assert Iteration(w, target) == Continued(WorkerQueues([], Some(xs[1..]), Some(ys + Emitted(w, target))));
  }

  /**
   * A worker with no pending signals drains its input queue in push order:
   * after one iteration per item, the input queue is empty and the output
   * queue has gained the truthy results of the target on those items, in order.
   */
  lemma {:induction false} DrainInOrder(xs: seq<Value>, ys: seq<Value>, target: Target)
    ensures Run(WorkerQueues([], Some(xs), Some(ys)), target, |xs|)
         == Continued(WorkerQueues([], Some([]), Some(ys + TruthyResults(target, xs))))
  {
    if xs != [] {
      var e := if Truthy(target(Some(xs[0]))) then [target(Some(xs[0]))] else [];
      assert Emitted(WorkerQueues([], Some(xs), Some(ys)), target) == e;
      DrainOne(xs, ys, target);
      DrainInOrder(xs[1..], ys + e, target);
      assert (ys + e) + TruthyResults(target, xs[1..]) == ys + (e + TruthyResults(target, xs[1..]));
    } else {
      assert ys + [] == ys;
    }
  }

  /** When every result is truthy, the emitted results are exactly the target applied to each input. */
  lemma {:induction false} AllTruthyResults(target: Target, xs: seq<Value>)
    requires forall i :: 0 <= i < |xs| ==> Truthy(target(Some(xs[i])))
    ensures TruthyResults(target, xs) == MapTarget(target, xs)
  {
    if xs != [] {
      assert Truthy(target(Some(xs[0])));
      AllTruthyResults(target, xs[1..]);
    }
  }

  /**
   * For a total, always-truthy target and no signals, the outputs drained from
   * a single worker are the target applied to the pushed inputs, in push order.
   */
  lemma {:induction false} FifoOutputs(xs: seq<Value>, target: Target)
    requires forall i :: 0 <= i < |xs| ==> Truthy(target(Some(xs[i])))
    ensures Run(WorkerQueues([], Some(xs), Some([])), target, |xs|)
         == Continued(WorkerQueues([], Some([]), Some(MapTarget(target, xs))))
  {
    DrainInOrder(xs, [], target);
    AllTruthyResults(target, xs);
    assert [] + TruthyResults(target, xs) == MapTarget(target, xs);
  }

  /** The contents of the queues a worker holds. */
  function Contents(w: Worker): (c: WorkerQueues)
    reads w.signals, w.input, w.output
  {
    WorkerQueues(w.signals.items,
                 if w.input == null then None else Some(w.input.items),
                 if w.output == null then None else Some(w.output.items))
  }

  /**
   * One iteration of the worker loop on the queues themselves. When the input
   * and output queue are distinct objects, the new contents are those
   * `Iteration` computes; when they are one queue, the taken item leaves its
   * head and the result joins its tail.
   */
  method RunIteration(w: Worker, target: Target) returns (exited: bool)
    modifies w.signals, w.input, w.output
    ensures exited == SeesShutdown(old(Contents(w)))
    ensures w.signals.items == Iteration(old(Contents(w)), target).queues.signals
    ensures w.input == null || w.input != w.output ==>
      Contents(w) == Iteration(old(Contents(w)), target).queues
    ensures w.input != null && w.input == w.output ==>
      w.input.items == if exited then old(w.input.items)
                       else RemainingInput(old(Contents(w))).value + Emitted(old(Contents(w)), target)
  {
    ghost var before := Contents(w);
    if !w.signals.Empty() {
      var s := w.signals.Get();
      if s == Shutdown {
        return true;
      }
    }
    var result := NoneValue;
    if w.input != null {
      if !w.input.Empty() {
        var x := w.input.Get();
        result := target(Some(x));
      }
    } else {
      result := target(None);
    }
    assert result == Produced(before, target);
    if w.output != null && Truthy(result) {
      w.output.Put(result);
    } else if w.output != null {
      assert w.output.items + Emitted(before, target) == w.output.items;
    }
    assert w.signals.items == Iteration(before, target).queues.signals;
    assert w.input == null || w.input != w.output ==> (if w.input == null then None else Some(w.input.items)) == Iteration(before, target).queues.input;
    assert w.input == null || w.input != w.output ==> (if w.output == null then None else Some(w.output.items)) == Iteration(before, target).queues.output;
    return false;
  }

  /**
   * The worker loop on the queue objects, once per queued input, with no
   * signal pending and distinct input and output queues: the iterations
   * `Run` describes, so the input queue is emptied and the output queue
   * gains the truthy results in push order.
   */
  method DrainStage(w: Worker, target: Target, ghost xs: seq<Value>, ghost ys: seq<Value>)
    requires w.input != null && w.output != null && w.input != w.output
    requires w.signals.items == [] && w.input.items == xs && w.output.items == ys
    modifies w.signals, w.input, w.output
    ensures w.signals.items == [] && w.input.items == []
    ensures w.output.items == ys + TruthyResults(target, xs)
  {
    ghost var start := Contents(w);
    assert start == WorkerQueues([], Some(xs), Some(ys));
    DrainInOrder(xs, ys, target);
    var n := |w.input.items|;
    for i := 0 to n
      invariant w.signals.items == []
      invariant Run(Contents(w), target, n - i) == Run(start, target, n)
    {
      ghost var c := Contents(w);
      var exited := RunIteration(w, target);
      assert Iteration(c, target) == Continued(Contents(w));
    }
  }

  class Processor {
    const name: string
    const target: Target
    const inputModel: ModelTag
    const outputModel: ModelTag
    const signalQueue: Queue<Signal>
    var inputQueue: Queue?<Value>
    var outputQueue: Queue?<Value>
    /** The queues attached by `add_output_queue`; the operations of this class do not read them. */
    var addedOutputQueues: seq<Queue<Value>>
    /** The started worker (`_process`), if any. */
    var worker: Option<Worker>

    /**
     * A new processor has not been started; it owns an empty input queue
     * exactly when it has an input model, and an empty output queue exactly
     * when it has an output model.
     */
    constructor (target: Target, name: string, inputModel: ModelTag, outputModel: ModelTag)
      ensures this.target == target && this.name == name
      ensures this.inputModel == inputModel && this.outputModel == outputModel
      ensures worker == None && addedOutputQueues == []
      ensures fresh(signalQueue) && signalQueue.items == []
      ensures (inputQueue != null) == inputModel.Some?
      ensures (outputQueue != null) == outputModel.Some?
      ensures inputQueue != null ==> fresh(inputQueue) && inputQueue.items == []
      ensures outputQueue != null ==> fresh(outputQueue) && outputQueue.items == []
      ensures inputQueue != null ==> inputQueue != outputQueue
    {
      this.target := target;
      this.name := name;
      this.inputModel := inputModel;
      this.outputModel := outputModel;
      signalQueue := new Queue();
      inputQueue := null;
      outputQueue := null;
      addedOutputQueues := [];
      worker := None;
      new;
      Setup();
    }

    /** Creates the input queue when there is an input model and the output queue when there is an output model. */
    method Setup()
      modifies this`inputQueue, this`outputQueue
      ensures inputModel.Some? ==> fresh(inputQueue) && inputQueue.items == []
      ensures inputModel.None? ==> inputQueue == old(inputQueue)
      ensures outputModel.Some? ==> fresh(outputQueue) && outputQueue.items == []
      ensures outputModel.None? ==> outputQueue == old(outputQueue)
      ensures inputModel.Some? && outputModel.Some? ==> inputQueue != outputQueue
    {
      if inputModel.Some? {
        inputQueue := new Queue();
      }
      if outputModel.Some? {
        outputQueue := new Queue();
      }
    }

    /**
     * Starts the worker on the current queues. A processor starts at most
     * once: a second call raises RuntimeError and changes nothing.
     */
    method Start() returns (r: Result<()>)
      modifies this`worker
      ensures old(worker).Some? ==> r == Raise(RuntimeError) && worker == old(worker)
      ensures old(worker).None? ==> r == Ok(()) && worker == Some(Worker(name, signalQueue, inputQueue, outputQueue))
    {
      if worker.Some? {
        return Raise(RuntimeError);
      }
      worker := Some(Worker(name, signalQueue, inputQueue, outputQueue));
      return Ok(());
    }

    /** Appends exactly one shutdown signal to the signal queue; never fails. */
    method Shutdown()
      modifies signalQueue
      ensures signalQueue.items == old(signalQueue.items) + [Signal.Shutdown]
    {
      signalQueue.Put(Signal.Shutdown);
    }

    /**
     * Appends `v` to the tail of the input queue; raises ValueError, changing
     * nothing, when there is no input model or no input queue.
     */
    method PushInput(v: Value) returns (r: Result<()>)
      modifies inputQueue
      ensures r.Ok? <==> inputModel.Some? && inputQueue != null
      ensures r.Raise? ==> r.error == ValueError
      ensures r.Ok? ==> inputQueue.items == old(inputQueue.items) + [v]
      ensures r.Raise? && inputQueue != null ==> inputQueue.items == old(inputQueue.items)
    {
      if inputModel.None? {
        return Raise(ValueError);
      }
      if inputQueue == null {
        return Raise(ValueError);
      }
      inputQueue.Put(v);
      return Ok(());
    }

    /** There is an output queue and it is not empty. */
    predicate HasOutput()
      reads this, outputQueue
    {
      outputQueue != null && !outputQueue.Empty()
    }

    /**
     * Removes and returns the head of the output queue. Returns `None`, changing
     * nothing, exactly when `HasOutput()` does not hold.
     */
    method GetOutput() returns (r: Option<Value>)
      modifies outputQueue
      ensures r.Some? <==> old(HasOutput())
      ensures r.Some? ==> old(outputQueue.items) == [r.value] + outputQueue.items
      ensures r.None? && outputQueue != null ==> outputQueue.items == old(outputQueue.items)
    {
      if outputQueue == null || outputQueue.Empty() {
        return None;
      }
      var v := outputQueue.Get();
      return Some(v);
    }

    method SetInputQueue(q: Queue?<Value>)
      modifies this`inputQueue
      ensures inputQueue == q
    {
      inputQueue := q;
    }

    method SetOutputQueue(q: Queue?<Value>)
      modifies this`outputQueue
      ensures outputQueue == q
    {
      outputQueue := q;
    }

    /** Appends `q` to the list of attached output queues. */
    method AddOutputQueue(q: Queue<Value>)
      modifies this`addedOutputQueues
      ensures addedOutputQueues == old(addedOutputQueues) + [q]
    {
      addedOutputQueues := addedOutputQueues + [q];
    }
  }

  // Operations over a list of processors, shared by chains and graphs.

  /** The output queue of each processor, in order. */
  function OutputQueues(ps: seq<Processor>): (r: seq<Queue?<Value>>)
    reads ps
    ensures |r| == |ps| && forall i :: 0 <= i < |ps| ==> r[i] == ps[i].outputQueue
  {
    seq(|ps|, i requires 0 <= i < |ps| reads ps => ps[i].outputQueue)
  }

  /** The input queue of each processor, in order. */
  function InputQueues(ps: seq<Processor>): (r: seq<Queue?<Value>>)
    reads ps
    ensures |r| == |ps| && forall i :: 0 <= i < |ps| ==> r[i] == ps[i].inputQueue
  {
    seq(|ps|, i requires 0 <= i < |ps| reads ps => ps[i].inputQueue)
  }

  /** Whether each processor has been started, in order. */
  function StartedFlags(ps: seq<Processor>): (r: seq<bool>)
    reads ps
    ensures |r| == |ps| && forall i :: 0 <= i < |ps| ==> r[i] == ps[i].worker.Some?
  {
    seq(|ps|, i requires 0 <= i < |ps| reads ps => ps[i].worker.Some?)
  }

  /** Position `j` holds the first occurrence of its processor. */
  predicate FirstOccurrence(ps: seq<Processor>, j: nat)
    requires j < |ps|
  {
    ps[j] !in ps[..j]
  }

  function FirstRestart(ps: seq<Processor>, started: seq<bool>, from: nat): (k: nat)
    requires |started| == |ps| && from <= |ps|
    ensures from <= k <= |ps|
    ensures forall j :: from <= j < k ==> !started[j] && FirstOccurrence(ps, j)
    ensures k < |ps| ==> started[k] || !FirstOccurrence(ps, k)
    decreases |ps| - from
  {
    if from == |ps| then from
    else if started[from] || !FirstOccurrence(ps, from) then from
    else FirstRestart(ps, started, from + 1)
  }

  /** The worker a processor gets when started now. */
  function WorkerOf(p: Processor): Worker
    reads p`inputQueue, p`outputQueue
  {
    Worker(p.name, p.signalQueue, p.inputQueue, p.outputQueue)
  }

  /** The shutdown signals that `shutdown` on the first `n` processors sends to queue `q`. */
  function SignalsSent(ps: seq<Processor>, n: nat, q: Queue<Signal>): seq<Signal>
    requires n <= |ps|
  {
    if n == 0 then []
    else SignalsSent(ps, n - 1, q) + (if ps[n - 1].signalQueue == q then [Signal.Shutdown] else [])
  }

  /** Each processor's signal queue receives one shutdown signal for each position the processor holds. */
  lemma {:induction false} SignalsSentCount(ps: seq<Processor>, n: nat, q: Queue<Signal>)
    requires n <= |ps|
    ensures |SignalsSent(ps, n, q)| == |set i | 0 <= i < n && ps[i].signalQueue == q|
    ensures forall s :: s in SignalsSent(ps, n, q) ==> s == Signal.Shutdown
  {
    if n > 0 {
      SignalsSentCount(ps, n - 1, q);
      var before := set i | 0 <= i < n - 1 && ps[i].signalQueue == q;
      var after := set i | 0 <= i < n && ps[i].signalQueue == q;
      if ps[n - 1].signalQueue == q {
        assert after == before + {n - 1};
      } else {
        assert after == before;
      }
    }
  }

  /**
   * Starts the processors in list order. The first one found already started
   * (before this call, or earlier in this list) raises RuntimeError and ends
   * the pass; those before it are started on their current queues.
   * `started` records which processors were started on entry.
   */
  method StartInOrder(ps: seq<Processor>, ghost started: seq<bool>) returns (r: Result<()>)
    requires |started| == |ps| && forall j :: 0 <= j < |ps| ==> started[j] == ps[j].worker.Some?
    modifies ps`worker
    ensures var k := FirstRestart(ps, started, 0);
      && (r.Ok? <==> k == |ps|)
      && (r.Raise? ==> r.error == RuntimeError)
      && forall j :: 0 <= j < |ps| ==>
           ps[j].worker == if ps[j] in ps[..k] then Some(WorkerOf(ps[j])) else old(ps[j].worker)
  {
    ghost var k := FirstRestart(ps, started, 0);
    var i := 0;
    while i < |ps|
      invariant 0 <= i <= k
      invariant forall j :: 0 <= j < |ps| ==>
        ps[j].worker == if ps[j] in ps[..i] then Some(WorkerOf(ps[j])) else old(ps[j].worker)
    {
      assert ps[..i + 1] == ps[..i] + [ps[i]];
      r := ps[i].Start();
      if r.Raise? {
        assert started[i] || !FirstOccurrence(ps, i);
        assert i == k;
        return;
      }
      i := i + 1;
    }
    return Ok(());
  }

  /** The signal queues of the processors. */
  function SignalQueues(ps: seq<Processor>): (r: set<Queue<Signal>>)
    ensures forall i :: 0 <= i < |ps| ==> ps[i].signalQueue in r
  {
    if ps == [] then {} else {ps[0].signalQueue} + SignalQueues(ps[1..])
  }

  /** Calls `shutdown` on every processor in list order; each position adds one signal to its processor's queue. */
  method ShutdownInOrder(ps: seq<Processor>)
    modifies SignalQueues(ps)
    ensures forall j :: 0 <= j < |ps| ==>
      ps[j].signalQueue.items == old(ps[j].signalQueue.items) + SignalsSent(ps, |ps|, ps[j].signalQueue)
  {
    for i := 0 to |ps|
      invariant forall j :: 0 <= j < |ps| ==>
        ps[j].signalQueue.items == old(ps[j].signalQueue.items) + SignalsSent(ps, i, ps[j].signalQueue)
    {
      label L:
      ps[i].Shutdown();
      forall j | 0 <= j < |ps|
        ensures ps[j].signalQueue.items == old(ps[j].signalQueue.items) + SignalsSent(ps, i + 1, ps[j].signalQueue)
      {
        var q := ps[j].signalQueue;
        if q == ps[i].signalQueue {
          assert (old(q.items) + SignalsSent(ps, i, q)) + [Signal.Shutdown]
              == old(q.items) + (SignalsSent(ps, i, q) + [Signal.Shutdown]);
        } else {
          assert q.items == old@L(q.items);
        }
      }
    }
  }
}
