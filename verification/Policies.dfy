/** Policies drawn on the canvas apply: in every graph a successful run entered,
    every block node let the request through, and every guard ran. */
module Policies {
  import opened Prelude
  import opened Graphs
  import opened Engine
  import opened Runs
  import opened Nesting
  import opened Passes
  import TopoSort

  // ---- Positions in the schedule ---------------------------------------

  lemma {:induction false} AllKnown(nodes: seq<Node>, order: seq<string>)
    requires forall id :: id in order ==> NodeById(nodes, id).Some?
    ensures KnownIds(nodes, order) == order
  {
    if order != [] {
      assert order[|order| - 1] in order;
      AllKnown(nodes, order[..|order| - 1]);
    }
  }

  /** On a well-formed graph the visits are the schedule, position by position. */
  lemma VisitsAreSchedule(run: Run)
    requires FollowsSchedule(run) && run.visits != [] && WellFormed(run.graph)
    ensures TopoSort.TopoOrder(run.graph).Ok? && TopoSort.IsSchedule(run.graph, TopoSort.TopoOrder(run.graph).value)
    ensures KnownIds(run.graph.nodes, TopoSort.TopoOrder(run.graph).value) == TopoSort.TopoOrder(run.graph).value
    ensures VisitIds(run.visits) <= TopoSort.TopoOrder(run.graph).value
  {
    var g := run.graph;
    var order := TopoSort.TopoOrder(g).value;
    TopoSort.SortedGraphIsScheduled(g);
    forall id | id in order ensures NodeById(g.nodes, id).Some? {
      assert id in Elements(order);
      NodeByIdSome(g.nodes, id);
    }
    AllKnown(g.nodes, order);
  }

  lemma {:induction false} VisitIdsAt(visits: seq<Visit>, k: nat)
    requires k < |visits|
    ensures |VisitIds(visits)| == |visits| && VisitIds(visits)[k] == visits[k].node.id
  {
    var init := visits[..|visits| - 1];
    VisitIdsLength(visits);
    VisitIdsLength(init);
    if k < |init| { VisitIdsAt(init, k); }
  }

  lemma {:induction false} NoBlockLeft(nodes: seq<Node>, left: seq<string>, id: string)
    requires FirstBlock(nodes, left).None? && id in left
    ensures NodeById(nodes, id).Some? ==> !NodeById(nodes, id).value.kind.Block?
  {
    if left[0] != id { NoBlockLeft(nodes, left[1..], id); }
  }

  lemma {:induction false} TerminalIsKind(nodes: seq<Node>, i: nat)
    requires i < |nodes| && forall a, b :: 0 <= a < b < |nodes| ==> nodes[a].id != nodes[b].id
    ensures TopoSort.Terminal(nodes, nodes[i].id) == IsTerminalKind(nodes[i].kind)
  {
    if i < |nodes| - 1 {
      assert nodes[..|nodes| - 1][i] == nodes[i];
      TerminalIsKind(nodes[..|nodes| - 1], i);
    }
  }

  lemma {:induction false} VisitAt(w: World, g: Graph, ctx: Context, visits: seq<Visit>, k: nat)
    requires ValidVisits(w, g, ctx, visits) && k < |visits|
    ensures NodeById(g.nodes, visits[k].node.id) == Some(visits[k].node)
    ensures ValidStep(w, visits[k].node, visits[k].inputs, ctx.(messages := visits[k].before), visits[k].step)
    ensures k < |visits| - 1 ==> Passed(visits[k])
  {
    var init, v := LastVisit(w, g, ctx, visits);
    if k < |init| {
      assert init[k] in init;
      VisitAt(w, g, ctx, init, k);
    }
  }

  // ---- Block nodes -----------------------------------------------------

  ghost predicate LetThrough(run: Run, n: Node) {
    exists v :: v in run.visits && v.node == n && SaysNo(v.inputs)
  }

  /** In every graph of a run, the block nodes that ran, each on a false
      condition, are exactly those the sort scheduled, a node behind another of
      the same ID never being one. With unique IDs that is read off the graph:
      those that no cycle and no unknown source feeds, so all of them when every
      edge joins known nodes. */
  ghost predicate BlocksHeld(run: Run)
    decreases run
  {
    && TopoSort.TopoOrder(run.graph).Ok?
    && (forall n :: n in run.graph.nodes && n.kind.Block? ==>
          (LetThrough(run, n) <==>
              && NodeById(run.graph.nodes, n.id) == Some(n)
              && n.id in TopoSort.TopoOrder(run.graph).value))
    && (UniqueIds(run.graph) ==>
          forall n :: n in run.graph.nodes && n.kind.Block? ==>
              (LetThrough(run, n) <==> TopoSort.Schedulable(run.graph, n.id)))
    && (WellFormed(run.graph) ==> forall n :: n in run.graph.nodes && n.kind.Block? ==> LetThrough(run, n))
    && (forall v :: v in run.visits && v.step.nested.Some? ==> BlocksHeld(v.step.nested.value))
  }

  lemma {:induction false} ScheduledAreKnown(nodes: seq<Node>, order: seq<string>, id: string)
    requires id in order && NodeById(nodes, id).Some?
    ensures id in KnownIds(nodes, order)
  {
    if id != order[|order| - 1] { ScheduledAreKnown(nodes, order[..|order| - 1], id); }
  }

  lemma {:induction false} KnownAreScheduled(nodes: seq<Node>, order: seq<string>, id: string)
    requires id in KnownIds(nodes, order)
    ensures id in order
  {
    if id != order[|order| - 1] { KnownAreScheduled(nodes, order[..|order| - 1], id); }
  }

  /** Where a block node that is scheduled was visited. */
  lemma BlockPosition(run: Run, n: Node) returns (k: nat)
    requires FollowsSchedule(run) && run.result.Ok? && Finished(run, run.result.value)
    requires NodeById(run.graph.nodes, n.id) == Some(n) && n.kind.Block? && n.id in TopoSort.TopoOrder(run.graph).value
    ensures k < |run.visits| && run.visits[k].node.id == n.id
  {
    var known := KnownIds(run.graph.nodes, TopoSort.TopoOrder(run.graph).value);
    ScheduledAreKnown(run.graph.nodes, TopoSort.TopoOrder(run.graph).value, n.id);
    k :| 0 <= k < |known| && known[k] == n.id;
    if k < |run.visits| {
      VisitIdsAt(run.visits, k);
    } else {
      assert known[|run.visits|..][k - |run.visits|] == n.id;
      NoBlockLeft(run.graph.nodes, known[|run.visits|..], n.id);
      assert false;
    }
  }

  lemma BlockStepPassed(w: World, node: Node, inputs: Ports, ctx: Context, s: Step)
    requires node.kind.Block? && ValidStep(w, node, inputs, ctx, s)
    requires s.result.Ok? && s.result.value.rejected.None?
    ensures SaysNo(inputs)
  {
  }

  lemma BlockRan(w: World, run: Run, n: Node)
    requires ValidRun(w, run) && run.result.Ok?
    requires NodeById(run.graph.nodes, n.id) == Some(n) && n.kind.Block? && n.id in TopoSort.TopoOrder(run.graph).value
    ensures LetThrough(run, n)
  {
    var k := BlockPosition(run, n);
    VisitAt(w, run.graph, run.ctx, run.visits, k);
    var v := run.visits[k];
    assert v.step.result.Ok? && v.step.result.value.rejected.None?;
    BlockStepPassed(w, v.node, v.inputs, run.ctx.(messages := v.before), v.step);
    assert v in run.visits && v.node == n;
  }

  lemma VisitedIsScheduled(run: Run, v: Visit)
    requires FollowsSchedule(run) && v in run.visits
    ensures TopoSort.TopoOrder(run.graph).Ok? && v.node.id in TopoSort.TopoOrder(run.graph).value
  {
    var k :| 0 <= k < |run.visits| && run.visits[k] == v;
    VisitIdsAt(run.visits, k);
    KnownAreScheduled(run.graph.nodes, TopoSort.TopoOrder(run.graph).value, VisitIds(run.visits)[k]);
  }

  lemma BlockRanIffScheduled(w: World, run: Run, n: Node)
    requires ValidRun(w, run) && run.result.Ok? && n.kind.Block?
    ensures TopoSort.TopoOrder(run.graph).Ok?
    ensures LetThrough(run, n) <==>
            NodeById(run.graph.nodes, n.id) == Some(n) && n.id in TopoSort.TopoOrder(run.graph).value
  {
    if NodeById(run.graph.nodes, n.id) == Some(n) && n.id in TopoSort.TopoOrder(run.graph).value {
      BlockRan(w, run, n);
    } else if LetThrough(run, n) {
      var v :| v in run.visits && v.node == n && SaysNo(v.inputs);
      VisitedIsScheduled(run, v);
      var k :| 0 <= k < |run.visits| && run.visits[k] == v;
      VisitAt(w, run.graph, run.ctx, run.visits, k);
    }
  }

  /** With unique IDs, whether a block node runs is a fact of the graph. */
  lemma BlockRanIffSchedulable(w: World, run: Run, n: Node)
    requires ValidRun(w, run) && run.result.Ok? && UniqueIds(run.graph) && n in run.graph.nodes && n.kind.Block?
    ensures LetThrough(run, n) <==> TopoSort.Schedulable(run.graph, n.id)
  {
    var i :| 0 <= i < |run.graph.nodes| && run.graph.nodes[i] == n;
    NodeByIdFinds(run.graph.nodes, i);
    BlockRanIffScheduled(w, run, n);
    TopoSort.ScheduledIff(run.graph, n.id);
  }

  lemma WellFormedBlockRan(w: World, run: Run, n: Node)
    requires ValidRun(w, run) && run.result.Ok? && WellFormed(run.graph) && n in run.graph.nodes && n.kind.Block?
    ensures LetThrough(run, n)
  {
    var i :| 0 <= i < |run.graph.nodes| && run.graph.nodes[i] == n;
    NodeByIdFinds(run.graph.nodes, i);
    VisitsAreSchedule(run);
    assert n.id in Elements(TopoSort.TopoOrder(run.graph).value);
    BlockRanIffScheduled(w, run, n);
  }

  lemma OnlyLastNests(w: World, run: Run, v: Visit) returns (sub: Run)
    requires ValidRun(w, run) && run.result.Ok? && v in run.visits && v.step.nested.Some?
    ensures v.step.nested == Some(sub) && ValidRun(w, sub) && sub.result.Ok?
  {
    var init, last := LastVisit(w, run.graph, run.ctx, run.visits);
    PassedIsFlat(w, run.graph, run.ctx, init);
    assert v == last;
    sub := NestedRun(w, v.node, v.inputs, run.ctx.(messages := v.before), v.step);
  }

  lemma {:induction false} RunBlocksHeld(w: World, run: Run)
    requires ValidRun(w, run) && run.result.Ok?
    ensures BlocksHeld(run)
    decreases run
  {
    forall n | n in run.graph.nodes && n.kind.Block?
      ensures LetThrough(run, n) <==>
              NodeById(run.graph.nodes, n.id) == Some(n) && n.id in TopoSort.TopoOrder(run.graph).value
    {
      BlockRanIffScheduled(w, run, n);
    }
    if UniqueIds(run.graph) {
      forall n | n in run.graph.nodes && n.kind.Block?
        ensures LetThrough(run, n) <==> TopoSort.Schedulable(run.graph, n.id)
      {
        BlockRanIffSchedulable(w, run, n);
      }
    }
    if WellFormed(run.graph) {
      forall n | n in run.graph.nodes && n.kind.Block? ensures LetThrough(run, n) { WellFormedBlockRan(w, run, n); }
    }
    forall v | v in run.visits && v.step.nested.Some? ensures BlocksHeld(v.step.nested.value) {
      var sub := OnlyLastNests(w, run, v);
      RunBlocksHeld(w, sub);
    }
  }

  /** If a request passes then, in every graph it went through, at any depth and
      whichever node ended the pass, the block nodes that can be scheduled ran on
      a false condition: all of them in a well-formed graph. */
  lemma SuccessMeansNotBlocked(w: World, g: Graph, ctx: Context)
    requires RunForward(w, g, ctx, Root).result.Ok?
    ensures BlocksHeld(RunForward(w, g, ctx, Root))
  {
    RunForwardValid(w, g, ctx, Root);
    RunBlocksHeld(w, RunForward(w, g, ctx, Root));
  }

  // ---- Guards ----------------------------------------------------------

  /** A run that ends on a model or model_fallback node visited every
      non-terminal node no terminal node feeds. */
  ghost predicate GuardsRan(run: Run)
    decreases run
  {
    && (WellFormed(run.graph) && run.visits != [] && IsTerminalKind(run.visits[|run.visits| - 1].node.kind) ==>
          forall id :: TopoSort.Guard(run.graph, id) ==> id in VisitIds(run.visits))
    && (forall v :: v in run.visits && v.step.nested.Some? ==> GuardsRan(v.step.nested.value))
  }

  lemma GuardRan(w: World, run: Run, id: string)
    requires ValidRun(w, run) && WellFormed(run.graph) && TopoSort.Guard(run.graph, id)
    requires run.visits != [] && IsTerminalKind(run.visits[|run.visits| - 1].node.kind)
    ensures id in VisitIds(run.visits)
  {
    VisitsAreSchedule(run);
    var g := run.graph;
    var order := TopoSort.TopoOrder(g).value;
    var last := |run.visits| - 1;
    VisitIdsAt(run.visits, last);
    VisitAt(w, g, run.ctx, run.visits, last);
    NodeByIdSome(g.nodes, run.visits[last].node.id);
    var i :| 0 <= i < |g.nodes| && g.nodes[i] == run.visits[last].node;
    TerminalIsKind(g.nodes, i);
    assert id in Elements(order);
    var j :| 0 <= j < |order| && order[j] == id;
    assert j < last;
    assert VisitIds(run.visits)[j] == id;
  }

  lemma {:induction false} RunGuardsRan(w: World, run: Run)
    requires ValidRun(w, run)
    ensures GuardsRan(run)
    decreases run
  {
    if WellFormed(run.graph) && run.visits != [] && IsTerminalKind(run.visits[|run.visits| - 1].node.kind) {
      forall id | TopoSort.Guard(run.graph, id) ensures id in VisitIds(run.visits) { GuardRan(w, run, id); }
    }
    forall v | v in run.visits && v.step.nested.Some? ensures GuardsRan(v.step.nested.value) {
      var k :| 0 <= k < |run.visits| && run.visits[k] == v;
      VisitAt(w, run.graph, run.ctx, run.visits, k);
      var sub := NestedRun(w, v.node, v.inputs, run.ctx.(messages := v.before), v.step);
      RunGuardsRan(w, sub);
    }
  }

  lemma TerminalRunsLast(w: World, g: Graph, ctx: Context)
    ensures GuardsRan(RunForward(w, g, ctx, Root))
  {
    RunForwardValid(w, g, ctx, Root);
    RunGuardsRan(w, RunForward(w, g, ctx, Root));
  }

  // ---- Where the promise stops -----------------------------------------

  /** A vertex that feeds itself is never scheduled. */
  lemma SelfFedNeverScheduled(g: Graph, order: seq<string>, e: Edge)
    requires TopoSort.Drained(g, order) && e in g.edges && e.source == e.target
    ensures e.source !in order
  {
  }

  /** Generator g, model m under a name, sink s, and a block node b on a cycle;
      the last edge goes to x, which no node carries. */
  function HiddenBlock(g: string, m: string, s: string, b: string, x: string, name: string): Graph {
    Graph([Node(g, Generator, Absent), Node(m, Model, ModelConfig(name, false)),
           Node(s, Sink, Absent), Node(b, Block, Absent)],
          [Edge("e1", g, RequestPort, m, RequestPort), Edge("e2", m, ResponsePort, s, ResponsePort),
           Edge("e3", b, ConditionPort, b, ConditionPort), Edge("e4", g, RequestPort, x, RequestPort)])
  }

  lemma FiveDistinct(g: string, m: string, s: string, b: string, x: string)
    requires Distinct([g, m, s, b, x])
    ensures g != m && g != s && g != b && m != s && m != b && s != b && x !in {g, m, s, b}
  {
    var d := [g, m, s, b, x];
    assert d[0] == g && d[1] == m && d[2] == s && d[3] == b && d[4] == x;
  }

  lemma HiddenBlockShape(g: string, m: string, s: string, b: string, x: string, name: string)
    requires g != m && g != s && g != b && m != s && m != b && s != b && x !in {g, m, s, b}
    ensures var h := HiddenBlock(g, m, s, b, x, name);
            UniqueIds(h) && KnownSources(h) && !KnownTargets(h) && ValidGraph(h)
  {
    var h := HiddenBlock(g, m, s, b, x, name);
    HiddenBlockIds(g, m, s, b, x, name);
    assert h.nodes[0] in h.nodes && h.nodes[1] in h.nodes && h.nodes[2] in h.nodes;
    assert h.edges[3] in h.edges;
  }

  lemma HiddenBlockIds(g: string, m: string, s: string, b: string, x: string, name: string)
    ensures Ids(HiddenBlock(g, m, s, b, x, name)) == {g, m, s, b}
  {
    var h := HiddenBlock(g, m, s, b, x, name);
    assert h.nodes[0] in h.nodes && h.nodes[1] in h.nodes && h.nodes[2] in h.nodes && h.nodes[3] in h.nodes;
  }

  lemma HiddenBlockVertices(g: string, m: string, s: string, b: string, x: string, name: string)
    ensures TopoSort.Vertices(HiddenBlock(g, m, s, b, x, name)) == {g, m, s, b, x}
  {
    var h := HiddenBlock(g, m, s, b, x, name);
    HiddenBlockIds(g, m, s, b, x, name);
    assert h.edges[0] in h.edges && h.edges[1] in h.edges && h.edges[2] in h.edges && h.edges[3] in h.edges;
    assert TopoSort.Targets(h.edges) == {m, s, b, x};
  }

  /** What is scheduled follows from what feeds what. */
  lemma OrderFromFeeds(h: Graph, g: string, m: string, s: string, x: string, loop: Edge, order: seq<string>)
    requires TopoSort.Drained(h, order) && loop in h.edges && loop.source == loop.target
    requires TopoSort.Vertices(h) == {g, m, s, x, loop.source} && loop.source !in {g, m, s, x}
    requires forall e :: e in h.edges ==> e.target != g
    requires forall e :: e in h.edges && (e.target == m || e.target == x) ==> e.source == g
    requires forall e :: e in h.edges && e.target == s ==> e.source == m
    ensures Elements(order) == {g, m, s, x}
  {
    FedIsScheduled(h, order, g);
    FedIsScheduled(h, order, m);
    FedIsScheduled(h, order, s);
    FedIsScheduled(h, order, x);
    SelfFedNeverScheduled(h, order, loop);
    assert forall id :: id in order ==> TopoSort.Ready(h, order, id);
  }

  lemma SortFromFeeds(h: Graph, g: string, m: string, s: string, x: string, loop: Edge)
    requires UniqueIds(h) && |h.nodes| == 4 && loop in h.edges && loop.source == loop.target
    requires TopoSort.Vertices(h) == {g, m, s, x, loop.source} && loop.source !in {g, m, s, x}
    requires g != m && g != s && g != x && m != s && m != x && s != x
    requires forall e :: e in h.edges ==> e.target != g
    requires forall e :: e in h.edges && (e.target == m || e.target == x) ==> e.source == g
    requires forall e :: e in h.edges && e.target == s ==> e.source == m
    ensures TopoSort.TopoOrder(h).Ok? && TopoSort.Drained(h, TopoSort.TopoOrder(h).value)
    ensures Elements(TopoSort.TopoOrder(h).value) == {g, m, s, x}
  {
    TopoSort.ScheduledIsDrained(h);
    var order := TopoSort.Scheduled(h);
    OrderFromFeeds(h, g, m, s, x, loop, order);
    DistinctCardinality(order);
    assert |{g, m, s, x}| == 4;
  }

  lemma HiddenBlockFeeds(g: string, m: string, s: string, b: string, x: string, name: string, e: Edge)
    requires g != m && g != s && g != b && m != s && m != b && s != b && x !in {g, m, s, b}
    requires e in HiddenBlock(g, m, s, b, x, name).edges
    ensures e.target != g
    ensures e.target == m || e.target == x ==> e.source == g
    ensures e.target == s ==> e.source == m
    ensures e.targetPort != ModelNamePort
  {
    var edges := HiddenBlock(g, m, s, b, x, name).edges;
    var i :| 0 <= i < 4 && edges[i] == e;
  }

  lemma HiddenBlockOrder(g: string, m: string, s: string, b: string, x: string, name: string)
    requires g != m && g != s && g != b && m != s && m != b && s != b && x !in {g, m, s, b}
    ensures var h := HiddenBlock(g, m, s, b, x, name);
            && TopoSort.TopoOrder(h).Ok? && TopoSort.Drained(h, TopoSort.TopoOrder(h).value)
            && Elements(TopoSort.TopoOrder(h).value) == {g, m, s, x}
  {
    var h := HiddenBlock(g, m, s, b, x, name);
    HiddenBlockVertices(g, m, s, b, x, name);
    HiddenBlockShape(g, m, s, b, x, name);
    assert h.edges[2] in h.edges;
    forall e | e in h.edges
      ensures e.target != g
      ensures e.target == m || e.target == x ==> e.source == g
      ensures e.target == s ==> e.source == m
    {
      HiddenBlockFeeds(g, m, s, b, x, name, e);
    }
    SortFromFeeds(h, g, m, s, x, h.edges[2]);
  }

  lemma HiddenBlockNodes(g: string, m: string, s: string, b: string, x: string, name: string)
    requires g != m && g != s && g != b && m != s && m != b && s != b && x !in {g, m, s, b}
    ensures var h := HiddenBlock(g, m, s, b, x, name);
            && NodeById(h.nodes, g) == Some(h.nodes[0]) && NodeById(h.nodes, m) == Some(h.nodes[1])
            && NodeById(h.nodes, s) == Some(h.nodes[2]) && NodeById(h.nodes, x) == None
  {
    var h := HiddenBlock(g, m, s, b, x, name);
    HiddenBlockShape(g, m, s, b, x, name);
    HiddenBlockIds(g, m, s, b, x, name);
    FoundById(h, x);
    assert h.nodes[0].id == g && h.nodes[1].id == m && h.nodes[2].id == s;
  }

  lemma FoundById(h: Graph, x: string)
    requires UniqueIds(h) && x !in Ids(h)
    ensures forall i :: 0 <= i < |h.nodes| ==> NodeById(h.nodes, h.nodes[i].id) == Some(h.nodes[i])
    ensures NodeById(h.nodes, x) == None
  {
    forall i | 0 <= i < |h.nodes| ensures NodeById(h.nodes, h.nodes[i].id) == Some(h.nodes[i]) {
      NodeByIdFinds(h.nodes, i);
    }
    NodeByIdSome(h.nodes, x);
  }

  /** The model is first among the nodes after the generator. */
  lemma HiddenBlockSchedule(g: string, m: string, s: string, b: string, x: string, name: string) returns (k: nat)
    requires g != m && g != s && g != b && m != s && m != b && s != b && x !in {g, m, s, b}
    ensures var h := HiddenBlock(g, m, s, b, x, name);
            && TopoSort.TopoOrder(h).Ok?
            && var order := TopoSort.TopoOrder(h).value;
               && 0 < k < |order| && order[0] == g && order[k] == m
               && (forall j :: 0 < j < k ==> NodeById(h.nodes, order[j]).None?)
               && FirstBlock(h.nodes, order[k + 1..]).None?
  {
    HiddenBlockOrder(g, m, s, b, x, name);
    HiddenBlockNodes(g, m, s, b, x, name);
    HiddenBlockEdges(g, m, s, b, x, name);
    var order := TopoSort.TopoOrder(HiddenBlock(g, m, s, b, x, name)).value;
    assert m in Elements(order);
    assert forall v :: v in order ==> v in Elements(order);
    k := FirstAfterGenerator(HiddenBlock(g, m, s, b, x, name), order, g, m, s);
  }

  lemma HiddenBlockEdges(g: string, m: string, s: string, b: string, x: string, name: string)
    ensures var h := HiddenBlock(g, m, s, b, x, name); HasEdge(h, g, m) && HasEdge(h, m, s) && HasEdge(h, g, x)
  {
    var h := HiddenBlock(g, m, s, b, x, name);
    assert h.edges[0] in h.edges && h.edges[1] in h.edges && h.edges[3] in h.edges;
  }

  /** The world lets a model of that name be used as it is. */
  ghost predicate Serves(w: World, name: string) {
    w.registered(Model) && name !in w.orgModels && w.resolveReal(name).Ok?
  }

  lemma ModelAnswers(w: World, n: Node, inputs: Ports, ctx: Context, name: string)
    requires n.kind.Model? && n.data == ModelConfig(name, false) && ModelNamePort !in inputs
    requires name != "" && '/' !in name && Serves(w, name) && !ctx.checked && !ctx.forcePassthrough
    ensures var s := NodeForward(w, n, inputs, ctx);
            s.result.Ok? && s.result.value.rejected.None? && s.result.value.client.Some? && s.nested.None?
  {
    var entering := NodeBody(w, ctx, inputs);
    var c := ctx.(body := entering.0, bodyMessages := entering.1);
    assert NodeForward(w, n, inputs, ctx) == ModelForward(w, n, inputs, ctx);
    assert ModelNameOf(n, inputs) == name;
    assert ModelForward(w, n, inputs, ctx) == ResolveByName(w, name, c);
    NameAnswers(w, c, name);
  }

  lemma NameAnswers(w: World, ctx: Context, name: string)
    requires name != "" && '/' !in name && Serves(w, name) && !ctx.checked
    ensures var s := ResolveByName(w, name, ctx);
            s.result.Ok? && s.result.value.rejected.None? && s.result.value.client.Some? && s.nested.None?
  {
    PlainNameParses(ctx, name);
    assert !ParseName(ctx, name).value.Personal();
  }

  /** The dangling edge makes up for the node the cycle holds back: the graph,
      whose IDs are unique, sorts without its block node, and every request passes
      that the model named would serve. */
  lemma DanglingEdgeHidesBlock(
    g: string, m: string, s: string, b: string, x: string, name: string, w: World, ctx: Context)
    requires Distinct([g, m, s, b, x]) && name != "" && '/' !in name
    requires Serves(w, name) && LetsPass(w, Node(g, Generator, Absent)) && !ctx.checked && !ctx.forcePassthrough
    ensures var h := HiddenBlock(g, m, s, b, x, name);
            && UniqueIds(h) && KnownSources(h) && ValidGraph(h) && h.nodes[3].kind.Block?
            && RunForward(w, h, ctx, Root).result.Ok? && !LetThrough(RunForward(w, h, ctx, Root), h.nodes[3])
  {
    FiveDistinct(g, m, s, b, x);
    HiddenBlockShape(g, m, s, b, x, name);
    HiddenBlockPasses(g, m, s, b, x, name, w, ctx);
    HiddenBlockUnscheduled(g, m, s, b, x, name);
    UnscheduledNotLetThrough(w, HiddenBlock(g, m, s, b, x, name), ctx, Node(b, Block, Absent));
  }

  lemma HiddenBlockUnscheduled(g: string, m: string, s: string, b: string, x: string, name: string)
    requires g != m && g != s && g != b && m != s && m != b && s != b && x !in {g, m, s, b}
    ensures var order := TopoSort.TopoOrder(HiddenBlock(g, m, s, b, x, name)); order.Ok? && b !in order.value
  {
    HiddenBlockOrder(g, m, s, b, x, name);
    assert b !in Elements(TopoSort.TopoOrder(HiddenBlock(g, m, s, b, x, name)).value);
  }

  lemma UnscheduledNotLetThrough(w: World, h: Graph, ctx: Context, n: Node)
    requires TopoSort.TopoOrder(h).Ok? && n.id !in TopoSort.TopoOrder(h).value
    ensures !LetThrough(RunForward(w, h, ctx, Root), n)
  {
    UnscheduledNeverRuns(w, h, ctx, Root, n.id);
  }

  lemma HiddenBlockPasses(g: string, m: string, s: string, b: string, x: string, name: string, w: World, ctx: Context)
    requires g != m && g != s && g != b && m != s && m != b && s != b && x !in {g, m, s, b}
    requires name != "" && '/' !in name
    requires Serves(w, name) && LetsPass(w, Node(g, Generator, Absent)) && !ctx.checked && !ctx.forcePassthrough
    ensures RunForward(w, HiddenBlock(g, m, s, b, x, name), ctx, Root).result.Ok?
  {
    var t := Node(m, Model, ModelConfig(name, false));
    HiddenBlockShape(g, m, s, b, x, name);
    HiddenBlockNodes(g, m, s, b, x, name);
    var k := HiddenBlockSchedule(g, m, s, b, x, name);
    forall e | e in HiddenBlock(g, m, s, b, x, name).edges && e.target == m ensures e.targetPort != ModelNamePort {
      HiddenBlockFeeds(g, m, s, b, x, name, e);
    }
    forall inputs, text | ModelNamePort !in inputs ensures AnswersOn(w, t, inputs, ctx, text) {
      ModelAnswers(w, t, inputs, ctx.(messages := text), name);
    }
    var p := PassesOn(w, HiddenBlock(g, m, s, b, x, name), ctx, Root,
                      TopoSort.TopoOrder(HiddenBlock(g, m, s, b, x, name)).value, k,
                      Node(g, Generator, Absent), t);
  }

  /** There are such worlds and requests. */
  lemma SomeRequestPassesUnblocked(
    g: string, m: string, s: string, b: string, x: string, name: string, ctx: Context)
    returns (w: World)
    requires Distinct([g, m, s, b, x]) && name != "" && '/' !in name && !ctx.checked && !ctx.forcePassthrough
    ensures var h := HiddenBlock(g, m, s, b, x, name);
            && h.nodes[3].kind.Block? && RunForward(w, h, ctx, Root).result.Ok?
            && !LetThrough(RunForward(w, h, ctx, Root), h.nodes[3])
  {
    w := OpenWorld();
    OpenWorldLetsPass(Node(g, Generator, Absent));
    DanglingEdgeHidesBlock(g, m, s, b, x, name, w, ctx);
  }

  /** A node the sort left out is visited by no run of the graph. */
  lemma UnscheduledNeverRuns(w: World, g: Graph, ctx: Context, frame: Frame, id: string)
    requires TopoSort.TopoOrder(g).Ok? && id !in TopoSort.TopoOrder(g).value
    ensures forall v :: v in RunForward(w, g, ctx, frame).visits ==> v.node.id != id
  {
    RunForwardValid(w, g, ctx, frame);
    var run := RunForward(w, g, ctx, frame);
    forall v | v in run.visits ensures v.node.id != id {
      VisitedIsScheduled(run, v);
    }
  }
}
