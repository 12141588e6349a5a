/**
 * A linear chain of processors: input enters the first, output leaves the
 * last, and building the chain makes each processor's output queue the next
 * one's input queue.
 */
module Chains {
  import opened Values
  import opened Queues
  import opened Processors

  /** The build check on one processor: `type(output_model) is type(input_model)`. */
  predicate OwnModelsAgree(p: Processor) {
    SameKind(p.outputModel, p.inputModel)
  }

  /**
   * The first position `k >= 1` whose predecessor fails the build check,
   * `type(output_model) is type(input_model)` on that predecessor's own two
   * models, or `|ps|` when every position passes.
   */
  function FirstMismatch(ps: seq<Processor>, from: nat): (k: nat)
    requires 1 <= from <= |ps|
    ensures from <= k <= |ps|
    ensures forall i :: from - 1 <= i < k - 1 ==> OwnModelsAgree(ps[i])
    ensures k < |ps| ==> !OwnModelsAgree(ps[k - 1])
    decreases |ps| - from
  {
    if from == |ps| then from
    else if !OwnModelsAgree(ps[from - 1]) then from
    else FirstMismatch(ps, from + 1)
  }

  /**
   * The input queue processor `p` ends up with once positions `1 .. n-1` of
   * the chain are wired: the output queue `outs[i-1]` for the last position
   * `i < n` that holds `p`, or `before` if `p` holds none of them.
   */
  function WiredInput(ps: seq<Processor>, outs: seq<Queue?<Value>>, n: nat, p: Processor,
                      before: Queue?<Value>): Queue?<Value>
    requires n <= |ps| == |outs|
  {
    if n <= 1 then before
    else if ps[n - 1] == p then outs[n - 2]
    else WiredInput(ps, outs, n - 1, p, before)
  }

  /**
   * In a chain without repeated processors, wiring every position gives each
   * processor after the first the output queue of its predecessor, and leaves
   * the first processor's input queue as it was.
   */
  lemma {:induction false} WiredChainLinksNeighbours(ps: seq<Processor>, outs: seq<Queue?<Value>>,
                                                     before: Queue?<Value>, i: nat)
    requires Distinct(ps) && |ps| == |outs| && i < |ps|
    ensures WiredInput(ps, outs, |ps|, ps[i], before) == if i == 0 then before else outs[i - 1]
  {
    WiredPrefix(ps, outs, |ps|, before, i);
  }

  lemma {:induction false} WiredPrefix(ps: seq<Processor>, outs: seq<Queue?<Value>>, n: nat,
                                       before: Queue?<Value>, i: nat)
    requires Distinct(ps) && n <= |ps| == |outs| && i < |ps|
    ensures WiredInput(ps, outs, n, ps[i], before) == if i == 0 || n <= i then before else outs[i - 1]
    decreases n
  {
    if n > 1 {
      if ps[n - 1] != ps[i] {
        assert i != n - 1;
        WiredPrefix(ps, outs, n - 1, before, i);
      }
    }
  }

  /** Every processor's input queue `ins[j]` is the one `WiredInput` gives for positions `1 .. n-1`. */
  ghost predicate WiredUpTo(ps: seq<Processor>, ins: seq<Queue?<Value>>, outs: seq<Queue?<Value>>, n: nat,
                            before: seq<Queue?<Value>>)
    requires n <= |ps| == |ins| == |outs| == |before|
  {
    forall j :: 0 <= j < |ps| ==> ins[j] == WiredInput(ps, outs, n, ps[j], before[j])
  }

  /**
   * One step of `_build_processor_chain`: position `i` takes the output queue
   * of position `i - 1` as its input queue.
   */
  method WirePosition(ps: seq<Processor>, ghost outs: seq<Queue?<Value>>, ghost before: seq<Queue?<Value>>, i: nat)
    requires 1 <= i < |ps| == |outs| == |before| && ps[i - 1].outputQueue == outs[i - 1]
    requires forall j :: 0 <= j < |ps| ==> ps[j].inputQueue == WiredInput(ps, outs, i, ps[j], before[j])
    modifies ps`inputQueue
    ensures forall j :: 0 <= j < |ps| ==> ps[j].inputQueue == WiredInput(ps, outs, i + 1, ps[j], before[j])
  {
    ps[i].SetInputQueue(ps[i - 1].outputQueue);
    forall j | 0 <= j < |ps| ensures ps[j].inputQueue == WiredInput(ps, outs, i + 1, ps[j], before[j]) {
      if ps[j] != ps[i] {
        assert ps[j].inputQueue == old(ps[j].inputQueue);
      }
    }
  }

  /**
   * The walk of `_build_processor_chain` over positions `1 ..`: wires each
   * position whose predecessor passes the check and returns the first
   * position whose predecessor fails it, or `|ps|`.
   */
  method WirePositions(ps: seq<Processor>, ghost outs: seq<Queue?<Value>>, ghost before: seq<Queue?<Value>>)
    returns (i: nat)
    requires 1 <= |ps| == |outs| == |before|
    requires forall j :: 0 <= j < |ps| ==> ps[j].outputQueue == outs[j] && ps[j].inputQueue == before[j]
    modifies ps`inputQueue
    ensures i == FirstMismatch(ps, 1)
    ensures forall j :: 0 <= j < |ps| ==> ps[j].inputQueue == WiredInput(ps, outs, i, ps[j], before[j])
  {
    ghost var k := FirstMismatch(ps, 1);
    i := 1;
    while i < |ps| && OwnModelsAgree(ps[i - 1])
      invariant 1 <= i <= k
      invariant forall j :: 0 <= j < |ps| ==> ps[j].inputQueue == WiredInput(ps, outs, i, ps[j], before[j])
    {
      assert i < k;
      WirePosition(ps, outs, before, i);
      i := i + 1;
    }
    assert i == k;
  }

  class ProcessorChain {
    var processors: seq<Processor>

    /** `None` and the empty list both give an empty chain. */
    constructor (initial: Option<seq<Processor>>)
      ensures processors == if initial.Some? then initial.value else []
    {
      processors := if initial.Some? then initial.value else [];
    }

    /** Appends `p` at the end; earlier processors keep their order. */
    method AddProcessor(p: Processor)
      modifies this
      ensures processors == old(processors) + [p]
    {
      processors := processors + [p];
    }

    /**
     * Forwards `v` to the first processor only. Raises ValueError on an empty
     * chain and when `v` is not an instance of the first processor's input model.
     */
    method PushInput(v: Value) returns (r: Result<()>)
      modifies if processors == [] then null else processors[0].inputQueue
      ensures processors == [] ==> r == Raise(ValueError)
      ensures processors != [] && !HasModel(v, processors[0].inputModel) ==> r == Raise(ValueError)
      ensures r.Raise? ==> r.error == ValueError
      ensures r.Ok? <==> processors != [] && HasModel(v, processors[0].inputModel) && processors[0].inputQueue != null
      ensures r.Ok? ==> processors[0].inputQueue.items == old(processors[0].inputQueue.items) + [v]
      ensures r.Raise? && processors != [] && processors[0].inputQueue != null ==>
        processors[0].inputQueue.items == old(processors[0].inputQueue.items)
    {
      if processors == [] {
        return Raise(ValueError);
      }
      var head := processors[0];
      if !HasModel(v, head.inputModel) {
        return Raise(ValueError);
      }
      r := head.PushInput(v);
    }

    /** The last processor's output; IndexError on an empty chain. */
    method GetOutput() returns (r: Result<Option<Value>>)
      modifies if processors == [] then null else processors[|processors| - 1].outputQueue
      ensures processors == [] <==> r == Raise(IndexError)
      ensures processors != [] ==> r.Ok? && (r.value.Some? <==> old(processors[|processors| - 1].HasOutput()))
      ensures processors != [] && r.Ok? && r.value.Some? ==>
        old(processors[|processors| - 1].outputQueue.items)
          == [r.value.value] + processors[|processors| - 1].outputQueue.items
      ensures processors != [] && r.Ok? && r.value.None? && processors[|processors| - 1].outputQueue != null ==>
        processors[|processors| - 1].outputQueue.items == old(processors[|processors| - 1].outputQueue.items)
    {
      if processors == [] {
        return Raise(IndexError);
      }
      var o := processors[|processors| - 1].GetOutput();
      return Ok(o);
    }

    /** Whether the last processor has output; IndexError on an empty chain. */
    method HasOutput() returns (r: Result<bool>)
      ensures processors == [] ==> r == Raise(IndexError)
      ensures processors != [] ==> r == Ok(processors[|processors| - 1].HasOutput())
    {
      if processors == [] {
        return Raise(IndexError);
      }
      return Ok(processors[|processors| - 1].HasOutput());
    }

    /**
     * Walks positions `1 ..` in order and sets each processor's input queue to
     * its predecessor's output queue, after checking that the predecessor's
     * own output and input models are of the same kind. The first failing
     * check raises ValueError, leaving the positions before it wired.
     */
    method BuildProcessorChain() returns (r: Result<()>)
      modifies processors`inputQueue
      ensures processors == [] ==> r == Raise(ValueError)
      ensures processors != [] ==>
        var k := FirstMismatch(processors, 1);
        && (r.Ok? <==> k == |processors|)
        && (r.Raise? ==> r.error == ValueError)
        && WiredUpTo(processors, InputQueues(processors), OutputQueues(processors), k, old(InputQueues(processors)))
    {
      var ps := processors;
      if ps == [] {
        r := Raise(ValueError);
      } else {
        ghost var outs := OutputQueues(ps);
        ghost var before := InputQueues(ps);
        var i := WirePositions(ps, outs, before);
        assert OutputQueues(ps) == outs;
        assert WiredUpTo(ps, InputQueues(ps), outs, i, before);
        r := if i < |ps| then Raise(ValueError) else Ok(());
      }
    }

    /**
     * Raises ValueError on an empty chain. Otherwise builds the whole chain
     * first, so a failing check starts no processor, then starts the
     * processors in list order; a processor found already started (before
     * this call, or earlier in this list) raises RuntimeError and stops the pass.
     */
    method Start() returns (r: Result<()>)
      modifies processors`inputQueue, processors`worker
      ensures processors == [] ==> r == Raise(ValueError)
      ensures processors != [] ==>
        WiredUpTo(processors, InputQueues(processors), OutputQueues(processors), FirstMismatch(processors, 1), old(InputQueues(processors)))
      ensures processors != [] && FirstMismatch(processors, 1) < |processors| ==>
        r == Raise(ValueError) && forall j :: 0 <= j < |processors| ==> processors[j].worker == old(processors[j].worker)
      ensures processors != [] && FirstMismatch(processors, 1) == |processors| ==>
        var k := FirstRestart(processors, old(StartedFlags(processors)), 0);
        && (r.Ok? <==> k == |processors|)
        && (r.Raise? ==> r.error == RuntimeError)
        && forall j :: 0 <= j < |processors| ==>
             processors[j].worker == if processors[j] in processors[..k] then Some(WorkerOf(processors[j]))
                                     else old(processors[j].worker)
    {
      var ps := processors;
      if ps == [] {
        r := Raise(ValueError);
      } else {
        ghost var started := StartedFlags(ps);
        r := BuildProcessorChain();
        if r.Ok? {
          r := StartProcessors(started);
        }
      }
    }

    /**
     * The start pass over the list, which leaves every queue in place;
     * `started` records which processors were started on entry.
     */
    method StartProcessors(ghost started: seq<bool>) returns (r: Result<()>)
      requires |started| == |processors| && forall j :: 0 <= j < |processors| ==> started[j] == processors[j].worker.Some?
      modifies processors`worker
      ensures var k := FirstRestart(processors, started, 0);
        && (r.Ok? <==> k == |processors|)
        && (r.Raise? ==> r.error == RuntimeError)
        && forall j :: 0 <= j < |processors| ==>
             processors[j].worker == if processors[j] in processors[..k] then Some(WorkerOf(processors[j]))
                                     else old(processors[j].worker)
      ensures InputQueues(processors) == old(InputQueues(processors))
      ensures OutputQueues(processors) == old(OutputQueues(processors))
    {
      r := StartInOrder(processors, started);
    }

    /** Sends one shutdown signal to every processor, in list order; never fails. */
    method Shutdown()
      modifies SignalQueues(processors)
      ensures forall j :: 0 <= j < |processors| ==>
        processors[j].signalQueue.items
          == old(processors[j].signalQueue.items) + SignalsSent(processors, |processors|, processors[j].signalQueue)
    {
      ShutdownInOrder(processors);
    }
  }

  /**
   * A two-stage chain A -> B once wired and started: A's worker writes to the
   * very queue B's worker reads. With no signal pending, A's worker run once
   * per pushed input and then B's once per input leave the shared queue
   * empty and B's output queue holding the truthy results of B on A's truthy
   * results, in push order; when every result is truthy, that is B(A(x))
   * for each pushed x.
   */
  method DrainTwoStageChain(wa: Worker, wb: Worker, a: Target, b: Target, ghost xs: seq<Value>)
    requires wa.input != null && wa.output != null && wb.input == wa.output && wb.output != null
    requires wa.input != wa.output && wb.output != wa.output && wb.output != wa.input
    requires wa.signals.items == [] && wb.signals.items == []
    requires wa.input.items == xs && wa.output.items == [] && wb.output.items == []
    modifies wa.signals, wa.input, wa.output, wb.signals, wb.output
    ensures wa.input.items == [] && wa.output.items == []
    ensures wb.output.items == TruthyResults(b, TruthyResults(a, xs))
    ensures (forall i :: 0 <= i < |xs| ==> Truthy(a(Some(xs[i]))) && Truthy(b(Some(a(Some(xs[i])))))) ==>
      wb.output.items == MapTarget(x => b(Some(a(x))), xs)
  {
    DrainStage(wa, a, xs, []);
    ghost var mid := TruthyResults(a, xs);
    assert wa.output.items == mid;
    DrainStage(wb, b, mid, []);
    assert [] + TruthyResults(b, mid) == TruthyResults(b, mid);
    if forall i :: 0 <= i < |xs| ==> Truthy(a(Some(xs[i]))) && Truthy(b(Some(a(Some(xs[i]))))) {
      AllTruthyResults(a, xs);
      assert mid == MapTarget(a, xs);
      AllTruthyResults(b, mid);
      assert MapTarget(b, mid) == MapTarget(x => b(Some(a(x))), xs);
    }
  }

  /**
   * Chaining and starting two distinct, not yet started processors A -> B
   * whose first one passes the build check: starting succeeds, B reads from
   * A's output queue, A keeps its input queue, and both get their workers.
   */
  method StartTwoStage(pa: Processor, pb: Processor) returns (chain: ProcessorChain, r: Result<()>)
    requires pa != pb && pa.worker == None && pb.worker == None && OwnModelsAgree(pa)
    modifies pa`inputQueue, pa`worker, pb`inputQueue, pb`worker
    ensures fresh(chain) && chain.processors == [pa, pb] && r.Ok?
    ensures pa.inputQueue == old(pa.inputQueue) && pb.inputQueue == pa.outputQueue
    ensures pa.worker == Some(WorkerOf(pa)) && pb.worker == Some(WorkerOf(pb))
  {
    chain := new ProcessorChain(Some([pa, pb]));
    ghost var ps := [pa, pb];
    ghost var before := InputQueues(ps);
    ghost var flags := StartedFlags(ps);
    assert FirstMismatch(ps, 1) == 2;
    assert flags == [false, false];
    assert FirstRestart(ps, flags, 0) == 2 by {
      assert FirstOccurrence(ps, 0) && FirstOccurrence(ps, 1);
    }
    r := chain.Start();
    assert WiredUpTo(ps, InputQueues(ps), OutputQueues(ps), 2, before);
    assert pa.inputQueue == InputQueues(ps)[0] == WiredInput(ps, OutputQueues(ps), 2, pa, before[0]) == before[0];
    assert pb.inputQueue == InputQueues(ps)[1] == WiredInput(ps, OutputQueues(ps), 2, pb, before[1]) == OutputQueues(ps)[0];
    assert chain.processors == ps && FirstMismatch(ps, 1) == |ps|;
    assert r.Ok?;
    assert pa in ps[..2] && pb in ps[..2];
  }

  /**
   * A two-stage chain end to end: two new processors A -> B with matching
   * models are chained and started, the inputs are pushed through the chain,
   * and A's worker and then B's drain. Starting succeeds, and B's output
   * queue ends with B's truthy results on A's truthy results, in push order:
   * B(A(x)) for each pushed x when every result is truthy.
   */
  method TwoStageChainScenario(a: Target, b: Target, m1: ClassId, m2: ClassId, m3: ClassId, xs: seq<Value>)
    returns (started: Result<()>, outputs: seq<Value>)
    requires forall i :: 0 <= i < |xs| ==> HasModel(xs[i], Some(m1))
    ensures started.Ok?
    ensures outputs == TruthyResults(b, TruthyResults(a, xs))
    ensures (forall i :: 0 <= i < |xs| ==> Truthy(a(Some(xs[i]))) && Truthy(b(Some(a(Some(xs[i])))))) ==>
      outputs == MapTarget(x => b(Some(a(x))), xs)
  {
    var pa := new Processor(a, "A", Some(m1), Some(m2));
    var pb := new Processor(b, "B", Some(m2), Some(m3));
    var chain;
    chain, started := StartTwoStage(pa, pb);
    var wa := pa.worker.value;
    var wb := pb.worker.value;
    for i := 0 to |xs|
      invariant pa.inputQueue.items == xs[..i]
      modifies pa.inputQueue
    {
      var r := chain.PushInput(xs[i]);
      assert xs[..i + 1] == xs[..i] + [xs[i]];
    }
    assert xs[..|xs|] == xs;
    DrainTwoStageChain(wa, wb, a, b, xs);
    outputs := wb.output.items;
  }
}
