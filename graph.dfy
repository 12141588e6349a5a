/**
 * A graph of processors: an insertion-ordered map from each processor to
 * the processors that follow it. Input enters the first processor added;
 * output is drained round-robin from the processors without children.
 */
module Graphs {
  import opened Values
  import opened Queues
  import opened Processors

  /** The adjacency map with its key insertion order; `keys[0]` is the entry processor. */
  datatype Topology = Topology(keys: seq<Processor>, children: map<Processor, seq<Processor>>)

  /**
   * What every sequence of `add_processor` calls keeps: the keys are those of
   * the map, listed once each; every child is itself a key; no child list
   * repeats a processor.
   */
  predicate WellFormed(t: Topology) {
    && Distinct(t.keys)
    && (forall p :: p in t.keys ==> p in t.children)
    && (forall p :: p in t.children ==> p in t.keys)
    && (forall p, c :: p in t.children && c in t.children[p] ==> c in t.children)
    && (forall p :: p in t.children ==> Distinct(t.children[p]))
  }

  /** Registers `p` as a key with an empty child list unless it is a key already. */
  function Register(t: Topology, p: Processor): Topology {
    if p in t.children then t else Topology(t.keys + [p], t.children[p := []])
  }

  /** Appends `c` to the child list of the key `p`. */
  function Link(t: Topology, p: Processor, c: Processor): Topology
    requires p in t.children
  {
    Topology(t.keys, t.children[p := t.children[p] + [c]])
  }

  /**
   * `add_processor(added, previous)`: without `previous` the graph must be
   * empty; with it, `previous` must be a key not yet linked to `added`. The
   * edge goes at the end of `previous`'s child list, and `added` becomes a key
   * if it is not one.
   */
  function Added(t: Topology, added: Processor, previous: Option<Processor>): Result<Topology> {
    match previous
    case None => if t.keys != [] then Raise(ValueError) else Ok(Register(t, added))
    case Some(p) =>
      if p !in t.children then Raise(ValueError)
      else if added in t.children[p] then Raise(ValueError)
      else Ok(Register(Link(t, p, added), added))
  }

  /** The three refusals of `add_processor`, and only those, raise ValueError. */
  lemma AddedRaisesExactly(t: Topology, added: Processor, previous: Option<Processor>)
    ensures Added(t, added, previous).Raise? ==> Added(t, added, previous).error == ValueError
    ensures Added(t, added, previous).Raise? <==>
      || (previous.None? && t.keys != [])
      || (previous.Some? && previous.value !in t.children)
      || (previous.Some? && previous.value in t.children && added in t.children[previous.value])
  {
  }

  /**
   * A successful add with a parent appends `added` to the parent's child list,
   * makes `added` a key (keeping its list if it was one already) and changes no
   * other entry; the keys only ever grow at the end.
   */
  lemma AddedWithParent(t: Topology, added: Processor, p: Processor)
    requires WellFormed(t) && Added(t, added, Some(p)).Ok?
    ensures var t' := Added(t, added, Some(p)).value;
      && t'.children[p] == t.children[p] + [added]
      && added in t'.children
      && (added !in t.children ==> t'.keys == t.keys + [added] && t'.children[added] == [])
      && (added in t.children ==> t'.keys == t.keys && (added != p ==> t'.children[added] == t.children[added]))
      && (forall q :: q in t.children && q != p ==> q in t'.children && t'.children[q] == t.children[q])
      && (forall q :: q in t'.children ==> q in t.children || q == added)
  {
  }

  /** Registering a processor keeps the graph well formed and only extends the keys. */
  lemma RegisterWellFormed(t: Topology, p: Processor)
    requires WellFormed(t)
    ensures WellFormed(Register(t, p))
    ensures p in Register(t, p).children
    ensures Register(t, p).keys == t.keys || Register(t, p).keys == t.keys + [p]
  {
    if p !in t.children {
      assert p !in t.keys;
      var ks := t.keys + [p];
      forall i, j | 0 <= i < j < |ks| ensures ks[i] != ks[j] {
        if j < |t.keys| {
          assert ks[i] == t.keys[i] && ks[j] == t.keys[j];
        } else {
          assert ks[i] in t.keys;
        }
      }
    }
  }

  /** Linking a key to another key it is not yet linked to keeps the graph well formed. */
  lemma LinkWellFormed(t: Topology, p: Processor, c: Processor)
    requires WellFormed(t) && p in t.children && c in t.children && c !in t.children[p]
    ensures WellFormed(Link(t, p, c))
  {
    var cs := t.children[p] + [c];
    forall i, j | 0 <= i < j < |cs| ensures cs[i] != cs[j] {
      if j < |cs| - 1 {
        assert cs[i] == t.children[p][i] && cs[j] == t.children[p][j];
      } else {
        assert cs[i] in t.children[p];
      }
    }
    assert Distinct(cs);
    var t' := Link(t, p, c);
    forall q, d | q in t'.children && d in t'.children[q] ensures d in t'.children {
      if q != p || d != c {
        assert d in t.children[q];
      }
    }
  }

  /** Every successful add keeps the graph well formed and keeps its first key. */
  lemma {:induction false} AddedPreservesWellFormed(t: Topology, added: Processor, previous: Option<Processor>)
    requires WellFormed(t) && Added(t, added, previous).Ok?
    ensures WellFormed(Added(t, added, previous).value)
    ensures Added(t, added, previous).value.keys != []
    ensures t.keys != [] ==> Added(t, added, previous).value.keys[0] == t.keys[0]
    ensures previous.None? ==> Added(t, added, previous).value.keys == [added]
  {
    match previous
    case None =>
      RegisterWellFormed(t, added);
    case Some(p) =>
      var r := Register(t, added);
      RegisterWellFormed(t, added);
      LinkWellFormed(r, p, added);
      assert Register(Link(t, p, added), added) == Link(r, p, added);
  }

  /** One call of `add_processor`, with the exception it may raise. */
  datatype AddCall = AddCall(added: Processor, previous: Option<Processor>)

  /** The graph after a sequence of calls, each refused call leaving it as it was. */
  function AddAll(t: Topology, calls: seq<AddCall>): Topology
    decreases |calls|
  {
    if calls == [] then t
    else
      var after := match Added(t, calls[0].added, calls[0].previous)
        case Ok(t') => t'
        case Raise(_) => t;
      AddAll(after, calls[1..])
  }

  function EmptyTopology(): Topology {
    Topology([], map[])
  }

  /**
   * After any sequence of adds to a new graph, the graph is well formed and
   * its first key, once there is one, never changes.
   */
  lemma {:induction false} AddAllKeepsInvariants(t: Topology, calls: seq<AddCall>)
    requires WellFormed(t)
    ensures WellFormed(AddAll(t, calls))
    ensures t.keys != [] ==> AddAll(t, calls).keys != [] && AddAll(t, calls).keys[0] == t.keys[0]
    decreases |calls|
  {
    if calls != [] {
      var r := Added(t, calls[0].added, calls[0].previous);
      var after := if r.Ok? then r.value else t;
      if r.Ok? {
        AddedPreservesWellFormed(t, calls[0].added, calls[0].previous);
      }
      AddAllKeepsInvariants(after, calls[1..]);
    }
  }

  lemma EmptyTopologyWellFormed()
    ensures WellFormed(EmptyTopology())
  {
  }

  /** `s` occurs in `t` with its order kept (not necessarily contiguously). */
  predicate Subsequence<T(==)>(s: seq<T>, t: seq<T>)
    decreases |t|
  {
    if s == [] then true
    else if t == [] then false
    else (s[0] == t[0] && Subsequence(s[1..], t[1..])) || Subsequence(s, t[1..])
  }

  /** The processors without children, in key insertion order (`_get_terminal_processors`). */
  function Terminals(keys: seq<Processor>, children: map<Processor, seq<Processor>>): seq<Processor> {
    if keys == [] then []
    else
      var rest := Terminals(keys[1..], children);
      if keys[0] in children && children[keys[0]] == [] then [keys[0]] + rest else rest
  }

  /**
   * The terminals are exactly the keys with an empty child list, each listed
   * once, in key order.
   */
  lemma {:induction false} TerminalsAreChildlessKeys(keys: seq<Processor>, children: map<Processor, seq<Processor>>)
    requires forall p :: p in keys ==> p in children
    ensures forall p :: p in Terminals(keys, children) ==> p in keys && children[p] == []
    ensures forall p :: p in keys && children[p] == [] ==> p in Terminals(keys, children)
    ensures Subsequence(Terminals(keys, children), keys)
    ensures Distinct(keys) ==> Distinct(Terminals(keys, children))
  {
    if keys != [] {
      TerminalsAreChildlessKeys(keys[1..], children);
      var rest := Terminals(keys[1..], children);
      assert keys[0] !in keys[1..] ==> keys[0] !in rest;
      if children[keys[0]] == [] {
        assert Terminals(keys, children) == [keys[0]] + rest;
        assert ([keys[0]] + rest)[1..] == rest;
      }
    }
  }

  /** The entry processor (`_get_first_processor`): the first key added. */
  function FirstProcessor(t: Topology): Processor
    requires t.keys != []
  {
    t.keys[0]
  }

  /**
   * The entry processor of a graph built by a sequence of calls is the
   * processor of the first call that succeeds, whatever the calls after it.
   */
  lemma {:induction false} FirstSuccessIsEntry(calls: seq<AddCall>, i: nat)
    requires i < |calls|
    requires forall j :: 0 <= j < i ==> Added(EmptyTopology(), calls[j].added, calls[j].previous).Raise?
    requires Added(EmptyTopology(), calls[i].added, calls[i].previous).Ok?
    ensures AddAll(EmptyTopology(), calls).keys != []
    ensures FirstProcessor(AddAll(EmptyTopology(), calls)) == calls[i].added
    decreases i
  {
    if i == 0 {
      var t := Added(EmptyTopology(), calls[0].added, calls[0].previous).value;
      EmptyTopologyWellFormed();
      AddedPreservesWellFormed(EmptyTopology(), calls[0].added, calls[0].previous);
      assert t.keys == [calls[0].added];
      AddAllKeepsInvariants(t, calls[1..]);
    } else {
      assert AddAll(EmptyTopology(), calls) == AddAll(EmptyTopology(), calls[1..]);
      FirstSuccessIsEntry(calls[1..], i - 1);
    }
  }
  /**
   * The cursor after one `_get_next_terminal_processor` call: one step on,
   * back to 0 once it reaches the number of terminals.
   */
  function Advance(cursor: int, n: nat): (c: int)
    requires cursor >= -1
    ensures 0 <= c
    ensures n > 0 ==> c < n
  {
    if cursor + 1 >= n then 0 else cursor + 1
  }

  /** The cursor after `k` calls. */
  function AdvanceBy(cursor: int, n: nat, k: nat): (c: int)
    requires cursor >= -1
    ensures k > 0 ==> 0 <= c && (n > 0 ==> c < n)
    ensures k == 0 ==> c == cursor
    decreases k
  {
    if k == 0 then cursor else Advance(AdvanceBy(cursor, n, k - 1), n)
  }

  /** `k` calls followed by `m` calls are `k + m` calls. */
  lemma {:induction false} AdvanceByAdds(cursor: int, n: nat, k: nat, m: nat)
    requires cursor >= -1
    ensures AdvanceBy(cursor, n, k + m) == AdvanceBy(AdvanceBy(cursor, n, k), n, m)
    decreases m
  {
    if m > 0 {
      AdvanceByAdds(cursor, n, k, m - 1);
    }
  }

  /**
   * Within one lap of at most `n` calls from a cursor below `n`, the cursor
   * moves on by one per call and wraps around at most once.
   */
  lemma {:induction false} AdvanceWithinLap(cursor: int, n: nat, k: nat)
    requires -1 <= cursor < n && 1 <= k <= n
    ensures AdvanceBy(cursor, n, k) == if cursor + k < n then cursor + k else cursor + k - n
    decreases k
  {
    if k > 1 {
      AdvanceWithinLap(cursor, n, k - 1);
    }
  }

  /**
   * A cursor at or beyond the number of terminals (left there when adding
   * processors removed terminals) behaves as a new graph's cursor.
   */
  lemma {:induction false} StaleCursorRestarts(cursor: int, n: nat, k: nat)
    requires cursor >= n > 0 && k >= 1
    ensures AdvanceBy(cursor, n, k) == AdvanceBy(-1, n, k)
    decreases k
  {
    if k > 1 {
      StaleCursorRestarts(cursor, n, k - 1);
    }
  }

  /**
   * From a new graph's cursor, the first `n` calls serve the terminals
   * `0, 1, .., n - 1` in key order.
   */
  lemma RoundRobinFromStart(n: nat, i: nat)
    requires i < n
    ensures AdvanceBy(-1, n, i + 1) == i
  {
    AdvanceWithinLap(-1, n, i + 1);
  }

  /** Once the cursor has moved, every `n` further calls bring it back: the terminals take turns. */
  lemma RoundRobinPeriodic(cursor: int, n: nat, k: nat)
    requires n > 0 && cursor >= -1 && k >= 1
    ensures AdvanceBy(cursor, n, k + n) == AdvanceBy(cursor, n, k)
  {
    AdvanceByAdds(cursor, n, k, n);
    AdvanceWithinLap(AdvanceBy(cursor, n, k), n, n);
  }

  /** Any `n` consecutive calls visit every terminal. */
  lemma AdvancesCoverAll(cursor: int, n: nat, i: nat)
    requires cursor >= -1 && i < n
    ensures exists j :: 1 <= j <= n && AdvanceBy(cursor, n, j) == i
  {
    var c := if cursor < n then cursor else -1;
    var j := if i > c then i - c else i - c + n;
    AdvanceWithinLap(c, n, j);
    if cursor >= n {
      StaleCursorRestarts(cursor, n, j);
    }
    assert AdvanceBy(cursor, n, j) == i;
  }

  /**
   * The scan of `get_output`: the first number of calls `j` in `from .. n`
   * after which the cursor is on a terminal with output, or `n + 1` when
   * there is none.
   */
  function FirstReady(cursor: int, ready: seq<bool>, from: nat): (k: nat)
    requires cursor >= -1 && 1 <= from <= |ready| + 1
    ensures from <= k <= |ready| + 1
    ensures forall j :: from <= j < k ==> !ready[AdvanceBy(cursor, |ready|, j)]
    ensures k <= |ready| ==> ready[AdvanceBy(cursor, |ready|, k)]
    decreases |ready| + 1 - from
  {
    if from > |ready| then from
    else if ready[AdvanceBy(cursor, |ready|, from)] then from
    else FirstReady(cursor, ready, from + 1)
  }

  /** The scan succeeds exactly when some terminal has output, whatever the cursor. */
  lemma FirstReadyFindsAny(cursor: int, ready: seq<bool>)
    requires cursor >= -1
    ensures FirstReady(cursor, ready, 1) <= |ready| <==> exists i :: 0 <= i < |ready| && ready[i]
  {
    if exists i :: 0 <= i < |ready| && ready[i] {
      var i :| 0 <= i < |ready| && ready[i];
      AdvancesCoverAll(cursor, |ready|, i);
    }
  }

  /**
   * The cursor one `get_output` call leaves behind, given which terminals
   * have output: on the terminal served, or one full lap on when none has any.
   */
  function ServedCursor(cursor: int, ready: seq<bool>): (c: int)
    requires cursor >= -1
    ensures c >= -1
    ensures |ready| > 0 ==> 0 <= c < |ready|
    ensures |ready| == 0 ==> c == cursor
  {
    var k := FirstReady(cursor, ready, 1);
    AdvanceBy(cursor, |ready|, if k <= |ready| then k else |ready|)
  }

  /** The cursor after `m` `get_output` calls that each see the readiness `ready`. */
  function ServedAfter(cursor: int, ready: seq<bool>, m: nat): (c: int)
    requires cursor >= -1
    ensures c >= -1
    decreases m
  {
    if m == 0 then cursor else ServedCursor(ServedAfter(cursor, ready, m - 1), ready)
  }

  /** While every terminal has output, each `get_output` call moves the cursor on by exactly one. */
  lemma {:induction false} AllReadyAdvanceByOne(cursor: int, ready: seq<bool>, m: nat)
    requires cursor >= -1 && |ready| > 0 && forall i :: 0 <= i < |ready| ==> ready[i]
    ensures ServedAfter(cursor, ready, m) == AdvanceBy(cursor, |ready|, m)
    decreases m
  {
    if m > 0 {
      AllReadyAdvanceByOne(cursor, ready, m - 1);
      var c := AdvanceBy(cursor, |ready|, m - 1);
      assert ready[AdvanceBy(c, |ready|, 1)];
      assert FirstReady(c, ready, 1) == 1;
    }
  }

  /** From a new graph's cursor, call `q * n + r + 1` ends on terminal `r`: lap `q`, position `r`. */
  lemma {:induction false} FromStartLaps(n: nat, q: nat, r: nat)
    requires r < n
    ensures AdvanceBy(-1, n, q * n + r + 1) == r
    decreases q
  {
    if q == 0 {
      RoundRobinFromStart(n, r);
    } else {
      FromStartLaps(n, q - 1, r);
      assert q * n + r + 1 == (q - 1) * n + r + 1 + n;
      RoundRobinPeriodic(-1, n, (q - 1) * n + r + 1);
    }
  }

  /**
   * While every terminal has output, call `q * n + r + 1` of `get_output` on
   * a new graph serves terminal `r`: the terminals take turns in key order.
   */
  lemma AllReadyTakeTurns(ready: seq<bool>, q: nat, r: nat)
    requires r < |ready| && forall i :: 0 <= i < |ready| ==> ready[i]
    ensures ServedAfter(-1, ready, q * |ready| + r + 1) == r
  {
    AllReadyAdvanceByOne(-1, ready, q * |ready| + r + 1);
    FromStartLaps(|ready|, q, r);
  }

  /** The edges `(parent, child)` in key order, then child order. */
  datatype Edge = Edge(source: Processor, target: Processor)

  function ChildEdges(p: Processor, cs: seq<Processor>): (r: seq<Edge>)
    ensures |r| == |cs| && forall i :: 0 <= i < |cs| ==> r[i] == Edge(p, cs[i])
  {
    seq(|cs|, i requires 0 <= i < |cs| => Edge(p, cs[i]))
  }

  /** The edges `_build_processor_chain` walks: for each key in order, its child list in order. */
  function Edges(keys: seq<Processor>, children: map<Processor, seq<Processor>>): seq<Edge> {
    if keys == [] then []
    else (if keys[0] in children then ChildEdges(keys[0], children[keys[0]]) else []) + Edges(keys[1..], children)
  }

  /** The edges walked are exactly the links of the graph. */
  lemma {:induction false} EdgesAreTheLinks(keys: seq<Processor>, children: map<Processor, seq<Processor>>)
    requires forall p :: p in keys ==> p in children
    ensures forall e :: e in Edges(keys, children) ==> e.source in keys && e.target in children[e.source]
    ensures forall p, c :: p in keys && c in children[p] ==> Edge(p, c) in Edges(keys, children)
  {
    if keys != [] {
      EdgesAreTheLinks(keys[1..], children);
      var own := ChildEdges(keys[0], children[keys[0]]);
      assert Edges(keys, children) == own + Edges(keys[1..], children);
      forall c | c in children[keys[0]] ensures Edge(keys[0], c) in own {
        var i :| 0 <= i < |children[keys[0]]| && children[keys[0]][i] == c;
        assert own[i] == Edge(keys[0], c);
      }
    }
  }

  /** The build check on an edge: `type(source.output_model) is type(target.input_model)`. */
  predicate EdgeChecks(e: Edge) {
    SameKind(e.source.outputModel, e.target.inputModel)
  }

  /** The index of the first edge from `from` on that fails its check, or `|es|`. */
  function FirstBadEdge(es: seq<Edge>, from: nat): (k: nat)
    requires from <= |es|
    ensures from <= k <= |es|
    ensures forall i :: from <= i < k ==> EdgeChecks(es[i])
    ensures k < |es| ==> !EdgeChecks(es[k])
    decreases |es| - from
  {
    if from == |es| then from
    else if !EdgeChecks(es[from]) then from
    else FirstBadEdge(es, from + 1)
  }

  /**
   * The attached queues of `p` after the first `n` edges, starting from
   * `before`: the queue of each edge whose source is `p` joins the end, in edge order.
   */
  function AttachedAfter(es: seq<Edge>, qs: seq<Queue<Value>>, n: nat, p: Processor, before: seq<Queue<Value>>): seq<Queue<Value>>
    requires n <= |es| && n <= |qs|
  {
    if n == 0 then before
    else AttachedAfter(es, qs, n - 1, p, before) + (if es[n - 1].source == p then [qs[n - 1]] else [])
  }

  /** The input queue `p` has after the first `n` edges: the queue of the last one into `p`, or `before`. */
  function LastInto(es: seq<Edge>, qs: seq<Queue<Value>>, n: nat, p: Processor, before: Queue?<Value>): Queue?<Value>
    requires n <= |es| && n <= |qs|
  {
    if n == 0 then before
    else if es[n - 1].target == p then qs[n - 1]
    else LastInto(es, qs, n - 1, p, before)
  }

  /** Only the first `n` queues matter to `AttachedAfter` and `LastInto`. */
  lemma {:induction false} WiringIgnoresLaterQueues(es: seq<Edge>, qs: seq<Queue<Value>>, more: seq<Queue<Value>>, n: nat, p: Processor,
                                                     attached: seq<Queue<Value>>, input: Queue?<Value>)
    requires n <= |es| && n <= |qs|
    ensures AttachedAfter(es, qs + more, n, p, attached) == AttachedAfter(es, qs, n, p, attached)
    ensures LastInto(es, qs + more, n, p, input) == LastInto(es, qs, n, p, input)
  {
    if n > 0 {
      WiringIgnoresLaterQueues(es, qs, more, n - 1, p, attached, input);
      assert (qs + more)[n - 1] == qs[n - 1];
    }
  }

  /**
   * Each edge's queue is attached to the edge's source and, unless a later
   * edge also points into the same processor, is that processor's input queue.
   */
  lemma {:induction false} EdgeQueueReachesTarget(es: seq<Edge>, qs: seq<Queue<Value>>, n: nat, i: nat,
                                                   attached: seq<Queue<Value>>, input: Queue?<Value>)
    requires n <= |es| && n <= |qs| && i < n
    requires forall j :: i < j < n ==> es[j].target != es[i].target
    ensures LastInto(es, qs, n, es[i].target, input) == qs[i]
    ensures qs[i] in AttachedAfter(es, qs, n, es[i].source, attached)
    decreases n
  {
    if n - 1 != i {
      EdgeQueueReachesTarget(es, qs, n - 1, i, attached, input);
    }
  }

  /** A processor that is the source of none of the first `n` edges has nothing attached. */
  lemma {:induction false} AttachedOnlyToSources(es: seq<Edge>, qs: seq<Queue<Value>>, n: nat, p: Processor, attached: seq<Queue<Value>>)
    requires n <= |es| && n <= |qs|
    requires forall j :: 0 <= j < n ==> es[j].source != p
    ensures AttachedAfter(es, qs, n, p, attached) == attached
  {
    if n > 0 {
      AttachedOnlyToSources(es, qs, n - 1, p, attached);
    }
  }

  /** Whether each processor has output, in order. */
  function ReadyFlags(ps: seq<Processor>): (r: seq<bool>)
    reads ps, set i | 0 <= i < |ps| :: ps[i].outputQueue
    ensures |r| == |ps| && forall i :: 0 <= i < |ps| ==> r[i] == ps[i].HasOutput()
  {
    seq(|ps|, i requires 0 <= i < |ps| reads ps, set i | 0 <= i < |ps| :: ps[i].outputQueue => ps[i].HasOutput())
  }

  /** The output queues of the processors, as a frame. */
  function OutputQueueSet(ps: seq<Processor>): (s: set<Queue?<Value>>)
    reads ps
    ensures forall i :: 0 <= i < |ps| ==> ps[i].outputQueue in s
  {
    set i | 0 <= i < |ps| :: ps[i].outputQueue
  }

  /** The queues each processor has had attached, in order. */
  function AddedQueues(ps: seq<Processor>): (r: seq<seq<Queue<Value>>>)
    reads ps
    ensures |r| == |ps| && forall i :: 0 <= i < |ps| ==> r[i] == ps[i].addedOutputQueues
  {
    seq(|ps|, i requires 0 <= i < |ps| reads ps => ps[i].addedOutputQueues)
  }

  /**
   * Every processor's attached queues and input queue are what the first `n`
   * edges, wired with the queues `qs`, make of `attached` and `inputs`.
   */
  ghost predicate WiredAfter(ps: seq<Processor>, es: seq<Edge>, qs: seq<Queue<Value>>, n: nat,
                             attached: seq<seq<Queue<Value>>>, inputs: seq<Queue?<Value>>)
    reads ps`addedOutputQueues, ps`inputQueue
    requires n <= |es| && n <= |qs| && |attached| == |ps| && |inputs| == |ps|
  {
    forall j :: 0 <= j < |ps| ==>
      && ps[j].addedOutputQueues == AttachedAfter(es, qs, n, ps[j], attached[j])
      && ps[j].inputQueue == LastInto(es, qs, n, ps[j], inputs[j])
  }

  /**
   * One step of `_build_processor_chain`: a fresh queue for edge `i`,
   * attached to its source and made its target's input queue. `created`
   * holds the queues of the edges before it.
   */
  method WireEdge(ps: seq<Processor>, es: seq<Edge>, i: nat, ghost created: seq<Queue<Value>>,
                  ghost attached: seq<seq<Queue<Value>>>, ghost inputs: seq<Queue?<Value>>) returns (q: Queue<Value>)
    requires i < |es| && |created| == i && |attached| == |ps| && |inputs| == |ps|
    requires es[i].source in ps && es[i].target in ps
    requires Distinct(created) && forall c :: c in created ==> c.items == []
    requires WiredAfter(ps, es, created, i, attached, inputs)
    modifies es[i].source`addedOutputQueues, es[i].target`inputQueue
    ensures fresh(q)
    ensures Distinct(created + [q]) && forall c :: c in created + [q] ==> c.items == []
    ensures WiredAfter(ps, es, created + [q], i + 1, attached, inputs)
  {
    var e := es[i];
    q := new Queue<Value>();
    e.source.AddOutputQueue(q);
    e.target.SetInputQueue(q);
    forall j | 0 <= j < |ps|
      ensures ps[j].addedOutputQueues == AttachedAfter(es, created + [q], i + 1, ps[j], attached[j])
      ensures ps[j].inputQueue == LastInto(es, created + [q], i + 1, ps[j], inputs[j])
    {
      WiringIgnoresLaterQueues(es, created, [q], i, ps[j], attached[j], inputs[j]);
      if ps[j] != e.source {
        assert ps[j].addedOutputQueues == old(ps[j].addedOutputQueues);
      }
      if ps[j] != e.target {
        assert ps[j].inputQueue == old(ps[j].inputQueue);
      }
    }
  }

  /**
   * Wires the edges in order, stopping at the first one that fails its
   * check: each edge gets a fresh queue, appended to its source's attached
   * queues and set as its target's input queue. `attached` and `inputs`
   * record each processor's attached queues and input queue on entry.
   */
  method WireEdges(ps: seq<Processor>, es: seq<Edge>, ghost attached: seq<seq<Queue<Value>>>, ghost inputs: seq<Queue?<Value>>)
    returns (r: Result<()>, ghost created: seq<Queue<Value>>)
    requires forall i :: 0 <= i < |es| ==> es[i].source in ps && es[i].target in ps
    requires |attached| == |ps| && |inputs| == |ps| && WiredAfter(ps, es, [], 0, attached, inputs)
    modifies ps`addedOutputQueues, ps`inputQueue
    ensures var k := FirstBadEdge(es, 0);
      && |created| == k
      && (r.Ok? <==> k == |es|)
      && (r.Raise? ==> r.error == ValueError)
    ensures (forall c :: c in created ==> fresh(c) && c.items == []) && Distinct(created)
    ensures WiredAfter(ps, es, created, |created|, attached, inputs)
  {
    ghost var k := FirstBadEdge(es, 0);
    created := [];
    var i := 0;
    while i < |es| && EdgeChecks(es[i])
      invariant 0 <= i <= k
      invariant |created| == i
      invariant forall c :: c in created ==> fresh(c)
      invariant Distinct(created) && forall c :: c in created ==> c.items == []
      invariant WiredAfter(ps, es, created, i, attached, inputs)
    {
      assert i < k;
      var q := WireEdge(ps, es, i, created, attached, inputs);
      created := created + [q];
      i := i + 1;
    }
    r := if i < |es| then Raise(ValueError) else Ok(());
  }

  /** Distinct processors: position `j` lies in the first `k` exactly when `j < k`. */
  lemma InPrefixOfDistinct(ps: seq<Processor>, k: nat, j: nat)
    requires Distinct(ps) && k <= |ps| && j < |ps|
    ensures ps[j] in ps[..k] <==> j < k
  {
    if ps[j] in ps[..k] {
      var l :| 0 <= l < k && ps[..k][l] == ps[j];
      assert ps[l] == ps[j];
    }
  }

  class ProcessorGraph {
    var keys: seq<Processor>
    var children: map<Processor, seq<Processor>>
    /** Which terminal `get_output` serves next; advanced before use, so -1 serves terminal 0 first. */
    var cursor: int

    ghost predicate Valid()
      reads this
    {
      WellFormed(Topology(keys, children)) && cursor >= -1
    }

    /**
     * What wiring relies on, implied by `Valid()`: every key has a child
     * list, and every child is a key.
     */
    ghost predicate Linked()
      reads this`keys, this`children
    {
      && (forall p :: p in keys ==> p in children)
      && (forall p, c :: p in children && c in children[p] ==> c in keys)
    }

    function TerminalProcessors(): seq<Processor>
      reads this`keys, this`children
    {
      Terminals(keys, children)
    }

    constructor ()
      ensures Valid() && keys == [] && children == map[] && cursor == -1
    {
      keys := [];
      children := map[];
      cursor := -1;
    }

    /** Applies `Added`: the graph changes on success and stays as it was when the call raises. */
    method AddProcessor(added: Processor, previous: Option<Processor>) returns (r: Result<()>)
      requires Valid()
      modifies this`keys, this`children
      ensures Valid()
      ensures match Added(old(Topology(keys, children)), added, previous)
        case Ok(t) => r == Ok(()) && Topology(keys, children) == t
        case Raise(e) => r == Raise(e) && keys == old(keys) && children == old(children)
    {
      ghost var t := Topology(keys, children);
      if previous.None? {
        if keys != [] {
          return Raise(ValueError);
        }
      } else {
        var p := previous.value;
        if p !in children {
          return Raise(ValueError);
        }
        if added in children[p] {
          return Raise(ValueError);
        }
        children := children[p := children[p] + [added]];
      }
      if added !in children {
        keys := keys + [added];
        children := children[added := []];
      }
      AddedPreservesWellFormed(t, added, previous);
      return Ok(());
    }

    /**
     * Forwards `v` to the first processor added. Raises ValueError on an
     * empty graph and when `v` is not an instance of that processor's input model.
     */
    method PushInput(v: Value) returns (r: Result<()>)
      requires Valid()
      modifies if keys == [] then null else keys[0].inputQueue
      ensures keys == [] ==> r == Raise(ValueError)
      ensures keys != [] && !HasModel(v, keys[0].inputModel) ==> r == Raise(ValueError)
      ensures r.Raise? ==> r.error == ValueError
      ensures r.Ok? <==> keys != [] && HasModel(v, keys[0].inputModel) && keys[0].inputQueue != null
      ensures r.Ok? ==> keys[0].inputQueue.items == old(keys[0].inputQueue.items) + [v]
      ensures r.Raise? && keys != [] && keys[0].inputQueue != null ==>
        keys[0].inputQueue.items == old(keys[0].inputQueue.items)
    {
      if keys == [] {
        return Raise(ValueError);
      }
      var first := FirstProcessor(Topology(keys, children));
      if !HasModel(v, first.inputModel) {
        return Raise(ValueError);
      }
      r := first.PushInput(v);
    }

    /** Some terminal processor has output. */
    method HasOutput() returns (r: bool)
      requires Valid()
      ensures r <==> exists i :: 0 <= i < |TerminalProcessors()| && TerminalProcessors()[i].HasOutput()
    {
      var terminals := Terminals(keys, children);
      var i := 0;
      while i < |terminals|
        invariant 0 <= i <= |terminals|
        invariant forall j :: 0 <= j < i ==> !terminals[j].HasOutput()
      {
        if terminals[i].HasOutput() {
          assert TerminalProcessors()[i].HasOutput();
          return true;
        }
        i := i + 1;
      }
      return false;
    }

    /**
     * `_get_next_terminal_processor`: advances the cursor and returns the
     * terminal it lands on; with no terminals the cursor goes to 0 and the
     * lookup raises IndexError.
     */
    method NextTerminalProcessor() returns (r: Result<Processor>)
      requires cursor >= -1
      modifies this`cursor
      ensures cursor == Advance(old(cursor), |TerminalProcessors()|)
      ensures |TerminalProcessors()| == 0 <==> r == Raise(IndexError)
      ensures |TerminalProcessors()| > 0 ==> r == Ok(TerminalProcessors()[cursor])
    {
      var terminals := Terminals(keys, children);
      cursor := cursor + 1;
      if cursor >= |terminals| {
        cursor := 0;
      }
      if cursor >= |terminals| {
        return Raise(IndexError);
      }
      return Ok(terminals[cursor]);
    }

    /**
     * The loop of `get_output`: calls `_get_next_terminal_processor` once per
     * terminal at most, stopping at the first terminal with output.
     */
    method ScanTerminals() returns (hit: Option<Processor>)
      requires cursor >= -1
      modifies this`cursor
      ensures cursor >= -1
      ensures var ts := TerminalProcessors();
        var k := FirstReady(old(cursor), ReadyFlags(ts), 1);
        && (hit.Some? <==> k <= |ts|)
        && cursor == ServedCursor(old(cursor), old(ReadyFlags(ts)))
        && (hit.Some? ==> hit.value == ts[cursor])
    {
      var terminals := Terminals(keys, children);
      ghost var ready := ReadyFlags(terminals);
      ghost var c0: int := cursor;
      var n := |terminals|;
      ghost var k := FirstReady(c0, ready, 1);
      var i := 0;
      hit := None;
      while i < n && hit.None?
        invariant 0 <= i <= n
        invariant keys == old(keys) && children == old(children)
        invariant cursor == AdvanceBy(c0, n, i) && cursor >= -1
        invariant hit.None? ==> i < k
        invariant hit.Some? ==> i == k && hit.value == terminals[cursor]
      {
        var next := NextTerminalProcessor();
        i := i + 1;
        if next.value.HasOutput() {
          hit := Some(next.value);
        }
      }
    }

    /**
     * Round-robin draining: advances the cursor once per terminal tried, at
     * most once per terminal, and returns the head output of the first
     * terminal found with output, or `None`, leaving every queue as it was,
     * when no terminal has any.
     */
    method GetOutput() returns (r: Option<Value>)
      requires Valid()
      modifies this`cursor, OutputQueueSet(TerminalProcessors())
      ensures Valid()
      ensures var ts := TerminalProcessors();
        var k := FirstReady(old(cursor), old(ReadyFlags(ts)), 1);
        && (r.Some? <==> k <= |ts|)
        && cursor == ServedCursor(old(cursor), old(ReadyFlags(ts)))
        && (r.Some? ==> var c := cursor;
              && ts[c].outputQueue != null
              && old(ts[c].outputQueue.items) == [r.value] + ts[c].outputQueue.items)
      ensures var ts := TerminalProcessors();
        forall i :: 0 <= i < |ts| && ts[i].outputQueue != null
                    && (r.None? || ts[i].outputQueue != ts[cursor].outputQueue) ==>
          ts[i].outputQueue.items == old(ts[i].outputQueue.items)
    {
      ghost var ready := ReadyFlags(TerminalProcessors());
      var hit := ScanTerminals();
      assert ReadyFlags(TerminalProcessors()) == ready;
      if hit.None? {
        return None;
      }
      r := hit.value.GetOutput();
    }

    /**
     * `_build_processor_chain`: walks the edges in key order then child
     * order. An edge failing its check raises ValueError, leaving the edges
     * before it wired; otherwise it gets a fresh queue, attached to its
     * source and set as its target's input queue, so the last edge into a
     * processor decides its input queue.
     */
    method BuildProcessorChain() returns (r: Result<()>, ghost created: seq<Queue<Value>>)
      requires Linked()
      modifies keys`addedOutputQueues, keys`inputQueue
      ensures var es := Edges(keys, children);
        var k := FirstBadEdge(es, 0);
        && |created| == k
        && (r.Ok? <==> k == |es|)
        && (r.Raise? ==> r.error == ValueError)
      ensures (forall c :: c in created ==> fresh(c) && c.items == []) && Distinct(created)
      ensures WiredAfter(keys, Edges(keys, children), created, |created|, old(AddedQueues(keys)), old(InputQueues(keys)))
    {
      var es := Edges(keys, children);
      EdgesAreTheLinks(keys, children);
      forall i | 0 <= i < |es| ensures es[i].source in keys && es[i].target in keys {
        assert es[i] in es;
      }
      r, created := WireEdges(keys, es, AddedQueues(keys), InputQueues(keys));
    }

    /**
     * Raises ValueError on an empty graph. Otherwise wires every edge before
     * starting anything, so a failing edge starts no processor, then starts
     * the processors in key order; one already started raises RuntimeError
     * and stops the pass. The workers started get the queues the wired edges
     * leave.
     */
    method Start() returns (r: Result<()>)
      requires Distinct(keys) && Linked()
      modifies keys`addedOutputQueues, keys`inputQueue, keys`worker
      ensures keys == [] ==> r == Raise(ValueError)
      ensures keys != [] && FirstBadEdge(Edges(keys, children), 0) < |Edges(keys, children)| ==>
        r == Raise(ValueError) && forall j :: 0 <= j < |keys| ==> keys[j].worker == old(keys[j].worker)
      ensures keys != [] && FirstBadEdge(Edges(keys, children), 0) == |Edges(keys, children)| ==>
        var k := FirstRestart(keys, old(StartedFlags(keys)), 0);
        && (r.Ok? <==> k == |keys|)
        && (r.Raise? ==> r.error == RuntimeError)
        && forall j :: 0 <= j < |keys| ==>
             keys[j].worker == if j < k then Some(WorkerOf(keys[j])) else old(keys[j].worker)
      ensures keys != [] ==> exists created: seq<Queue<Value>> ::
        && |created| == FirstBadEdge(Edges(keys, children), 0)
        && (forall c :: c in created ==> fresh(c)) && Distinct(created)
        && WiredAfter(keys, Edges(keys, children), created, |created|, old(AddedQueues(keys)), old(InputQueues(keys)))
    {
      if keys == [] {
        r := Raise(ValueError);
      } else {
        var ps := keys;
        ghost var started := StartedFlags(ps);
        ghost var created;
        r, created := BuildProcessorChain();
        if r.Ok? {
          r := StartKeys(started);
        }
      }
    }

    /**
     * The start pass over the keys: the first `k` are started, `k` being
     * the first key already started on entry (`started` records which).
     */
    method StartKeys(ghost started: seq<bool>) returns (r: Result<()>)
      requires Distinct(keys)
      requires |started| == |keys| && forall j :: 0 <= j < |keys| ==> started[j] == keys[j].worker.Some?
      modifies keys`worker
      ensures var k := FirstRestart(keys, started, 0);
        && (r.Ok? <==> k == |keys|)
        && (r.Raise? ==> r.error == RuntimeError)
        && forall j :: 0 <= j < |keys| ==> keys[j].worker == if j < k then Some(WorkerOf(keys[j])) else old(keys[j].worker)
    {
      var ps := keys;
      ghost var k := FirstRestart(ps, started, 0);
      r := StartInOrder(ps, started);
      forall j | 0 <= j < |ps| ensures ps[j] in ps[..k] <==> j < k {
        InPrefixOfDistinct(ps, k, j);
      }
    }

    /** Sends one shutdown signal to every processor, in key order; never fails. */
    method Shutdown()
      requires Valid()
      modifies SignalQueues(keys)
      ensures forall j :: 0 <= j < |keys| ==>
        keys[j].signalQueue.items == old(keys[j].signalQueue.items) + SignalsSent(keys, |keys|, keys[j].signalQueue)
    {
      ShutdownInOrder(keys);
    }
  }
}
