/** The mutable value store computes the dataflow of the graph: for nodes whose
    outputs depend only on their inputs, each executed node receives exactly
    what the recursive evaluation of the graph gives it. */
module Dataflow {
  import opened Prelude
  import opened Graphs
  import opened Engine
  import opened Runs
  import opened Policies
  import TopoSort

  // ---- Recursive evaluation --------------------------------------------

  ghost function Ancestors(g: Graph, id: string): set<string> {
    set a | a in Ids(g) && IsAncestor(g, a, id)
  }

  lemma AncestorsShrink(g: Graph, e: Edge)
    requires WellFormed(g) && !Cyclic(g) && e in g.edges
    ensures |Ancestors(g, e.source)| < |Ancestors(g, e.target)|
  {
    var a, b := Ancestors(g, e.source), Ancestors(g, e.target);
    assert HasEdge(g, e.source, e.target);
    EdgeIsAncestor(g, e.source, e.target);
    forall v | v in a ensures v in b { AncestorTransitive(g, v, e.source, e.target); }
    assert e.source !in a by {
      if IsAncestor(g, e.source, e.source) {
        var p :| PathBetween(g, p, e.source, e.source);
        assert IsCycle(g, p);
      }
    }
    SubsetCardinality(a, b);
  }

  /** What a node that ends no pass answers on its output ports. */
  function NodeOutputs(w: World, node: Node, inputs: Ports, ctx: Context): Ports {
    if !IsLeaf(node.kind) then map[]
    else
      match w.leaf(node, inputs, ctx)
      case Err(_) => map[]
      case Ok(a) => a.outputs
  }

  function Seeded(node: Node, body: string): Ports {
    if node.kind.Generator? then map[RequestPort := Text(body)] else map[]
  }

  /** The values a node gives, from the values its ancestors give. */
  ghost function EvalOutputs(w: World, g: Graph, ctx: Context, id: string): Ports
    requires WellFormed(g) && !Cyclic(g)
    decreases |Ancestors(g, id)|, 1, 0
  {
    match NodeById(g.nodes, id)
    case None => map[]
    case Some(n) => Seeded(n, ctx.body) + NodeOutputs(w, n, EvalInputs(w, g, ctx, id, |g.edges|), ctx)
  }

  /** The values a node receives along the first k edges. */
  ghost function EvalInputs(w: World, g: Graph, ctx: Context, id: string, k: nat): Ports
    requires WellFormed(g) && !Cyclic(g) && k <= |g.edges|
    decreases |Ancestors(g, id)|, 0, k
  {
    if k == 0 then map[]
    else
      var e := g.edges[k - 1];
      var inputs := EvalInputs(w, g, ctx, id, k - 1);
      if e.target != id then inputs
      else
        AncestorsShrink(g, e);
        var outputs := EvalOutputs(w, g, ctx, e.source);
        if e.sourcePort in outputs then inputs[e.targetPort := outputs[e.sourcePort]] else inputs
  }

  // ---- The store against the evaluation --------------------------------

  /** The outputs of every node depend on its inputs and on the request, not on
      the messages running past it. */
  ghost predicate DependsOnInputs(w: World) {
    forall n: Node, inputs: Ports, ctx: Context, m: string {:trigger NodeOutputs(w, n, inputs, SetMessages(ctx, m))} ::
      NodeOutputs(w, n, inputs, SetMessages(ctx, m)) == NodeOutputs(w, n, inputs, ctx)
  }

  ghost function SetMessages(ctx: Context, m: string): Context { ctx.(messages := m) }

  function Stored(values: Store, id: string): Ports {
    if id in values then values[id] else map[]
  }

  ghost predicate StoreAgrees(w: World, g: Graph, ctx: Context, values: Store, done: seq<string>)
    requires WellFormed(g) && !Cyclic(g)
  {
    forall n :: n in g.nodes ==>
      Stored(values, n.id) == if n.id in done then EvalOutputs(w, g, ctx, n.id) else Seeded(n, ctx.body)
  }

  lemma {:induction false} SeedStored(nodes: seq<Node>, body: string)
    requires forall a, b :: 0 <= a < b < |nodes| ==> nodes[a].id != nodes[b].id
    ensures forall n :: n in nodes ==> Stored(Seed(nodes, body), n.id) == Seeded(n, body)
    ensures forall id :: id in Seed(nodes, body) ==> exists i :: 0 <= i < |nodes| && nodes[i].id == id
  {
    if nodes != [] {
      var init, last := nodes[..|nodes| - 1], nodes[|nodes| - 1];
      SeedStored(init, body);
      assert forall i :: 0 <= i < |init| ==> init[i] == nodes[i];
      assert last.id !in Seed(init, body);
      forall n | n in nodes ensures Stored(Seed(nodes, body), n.id) == Seeded(n, body) {
        if n != last { assert n in init; }
      }
      forall id | id in Seed(nodes, body) ensures exists i :: 0 <= i < |nodes| && nodes[i].id == id {
        if id in Seed(init, body) {
          var i :| 0 <= i < |init| && init[i].id == id;
          assert nodes[i].id == id;
        } else {
          assert nodes[|nodes| - 1].id == id;
        }
      }
    }
  }

  /** One edge more: its value, when there is one and it leads to the node. */
  ghost function Receive(inputs: Ports, e: Edge, id: string, outputs: Ports): Ports {
    if e.target == id && e.sourcePort in outputs then inputs[e.targetPort := outputs[e.sourcePort]] else inputs
  }

  lemma ResolveStep(values: Store, edges: seq<Edge>, id: string, k: nat)
    requires 0 < k <= |edges|
    ensures ResolveInputs(values, edges[..k], id)
         == Receive(ResolveInputs(values, edges[..k - 1], id), edges[k - 1], id, Stored(values, edges[k - 1].source))
  {
    assert edges[..k][..k - 1] == edges[..k - 1];
  }

  lemma EvalStep(w: World, g: Graph, ctx: Context, id: string, k: nat)
    requires WellFormed(g) && !Cyclic(g) && 0 < k <= |g.edges|
    ensures EvalInputs(w, g, ctx, id, k)
         == Receive(EvalInputs(w, g, ctx, id, k - 1), g.edges[k - 1], id, EvalOutputs(w, g, ctx, g.edges[k - 1].source))
  {
  }

  /** What a node reads from the store is what the evaluation gives it. */
  lemma {:induction false} InputsAgree(w: World, g: Graph, ctx: Context, values: Store, id: string, k: nat)
    requires WellFormed(g) && !Cyclic(g) && k <= |g.edges|
    requires forall e :: e in g.edges && e.target == id ==> Stored(values, e.source) == EvalOutputs(w, g, ctx, e.source)
    ensures ResolveInputs(values, g.edges[..k], id) == EvalInputs(w, g, ctx, id, k)
  {
    if k > 0 {
      InputsAgree(w, g, ctx, values, id, k - 1);
      ResolveStep(values, g.edges, id, k);
      EvalStep(w, g, ctx, id, k);
      assert g.edges[k - 1] in g.edges;
    }
  }

  lemma SourceAgrees(w: World, g: Graph, ctx: Context, values: Store, done: seq<string>, e: Edge)
    requires WellFormed(g) && !Cyclic(g) && StoreAgrees(w, g, ctx, values, done)
    requires e in g.edges && e.source in done
    ensures Stored(values, e.source) == EvalOutputs(w, g, ctx, e.source)
  {
    var n :| n in g.nodes && n.id == e.source;
    assert Stored(values, n.id) == EvalOutputs(w, g, ctx, n.id);
  }

  lemma StoreStep(
    w: World, g: Graph, ctx: Context, values: Store, done: seq<string>, node: Node, inputs: Ports, r: ForwardResult)
    requires WellFormed(g) && !Cyclic(g) && StoreAgrees(w, g, ctx, values, done)
    requires NodeById(g.nodes, node.id) == Some(node) && node in g.nodes && node.id !in done
    requires inputs == EvalInputs(w, g, ctx, node.id, |g.edges|) && r.outputs == NodeOutputs(w, node, inputs, ctx)
    ensures StoreAgrees(w, g, ctx, SetPorts(values, node.id, r.outputs), done + [node.id])
  {
    var after := SetPorts(values, node.id, r.outputs);
    assert Stored(after, node.id) == Stored(values, node.id) + r.outputs;
    forall n | n in g.nodes ensures
      Stored(after, n.id) == if n.id in done + [node.id] then EvalOutputs(w, g, ctx, n.id) else Seeded(n, ctx.body)
    {
      if n.id != node.id { assert Stored(after, n.id) == Stored(values, n.id); }
    }
  }

  /** A step the loop goes past answered NodeOutputs. */
  lemma PassedOutputs(w: World, node: Node, inputs: Ports, ctx: Context, s: Step)
    requires ValidStep(w, node, inputs, ctx, s) && s.result.Ok? && s.result.value.client.None?
    ensures s.result.value.outputs == NodeOutputs(w, node, inputs, ctx)
  {
  }

  lemma PassedStore(w: World, g: Graph, ctx: Context, p: Progress, done: seq<string>, v: Visit)
    requires WellFormed(g) && !Cyclic(g) && DependsOnInputs(w) && StoreAgrees(w, g, ctx, p.values, done)
    requires Passed(v) && ValidStep(w, v.node, v.inputs, ctx.(messages := v.before), v.step)
    requires NodeById(g.nodes, v.node.id) == Some(v.node) && v.node.id !in done
    requires v.inputs == EvalInputs(w, g, ctx, v.node.id, |g.edges|)
    ensures StoreAgrees(w, g, ctx, Advance(p, v, v.step.result.value).values, done + [v.node.id])
  {
    PassedOutputs(w, v.node, v.inputs, SetMessages(ctx, v.before), v.step);
    NodeByIdSome(g.nodes, v.node.id);
    StoreStep(w, g, ctx, p.values, done, v.node, v.inputs, v.step.result.value);
  }

  ghost predicate Agrees(w: World, g: Graph, ctx: Context, visits: seq<Visit>)
    requires WellFormed(g) && !Cyclic(g)
  {
    forall v :: v in visits ==> v.inputs == EvalInputs(w, g, ctx, v.node.id, |g.edges|)
  }

  lemma SourcesDone(g: Graph, order: seq<string>, visits: seq<Visit>, v: Visit)
    requires TopoSort.IsSchedule(g, order) && VisitIds(visits + [v]) <= order
    ensures VisitIds(visits) <= order && v.node.id !in VisitIds(visits)
    ensures forall e :: e in g.edges && e.target == v.node.id ==> e.source in VisitIds(visits)
  {
    assert (visits + [v])[..|visits|] == visits;
    var done := VisitIds(visits);
    assert VisitIds(visits + [v]) == done + [v.node.id];
    assert order[|done|] == v.node.id && order[..|done|] == done;
  }

  lemma LastAgrees(w: World, g: Graph, ctx: Context, values: Store, done: seq<string>, v: Visit)
    requires WellFormed(g) && !Cyclic(g) && StoreAgrees(w, g, ctx, values, done)
    requires forall e :: e in g.edges && e.target == v.node.id ==> e.source in done
    requires v.inputs == ResolveInputs(values, g.edges, v.node.id)
    ensures v.inputs == EvalInputs(w, g, ctx, v.node.id, |g.edges|)
  {
    forall e | e in g.edges && e.target == v.node.id
      ensures Stored(values, e.source) == EvalOutputs(w, g, ctx, e.source)
    {
      SourceAgrees(w, g, ctx, values, done, e);
    }
    InputsAgree(w, g, ctx, values, v.node.id, |g.edges|);
    assert g.edges[..|g.edges|] == g.edges;
  }

  /** After every visit the loop goes past, the store holds the outputs of the
      evaluation for the nodes that ran, and the seeds for the others. */
  ghost predicate StoresAgree(w: World, g: Graph, ctx: Context, visits: seq<Visit>)
    requires WellFormed(g) && !Cyclic(g)
  {
    && (AllPassed(visits) ==> StoreAgrees(w, g, ctx, After(g, ctx, visits).values, VisitIds(visits)))
    && (visits != [] ==> StoresAgree(w, g, ctx, visits[..|visits| - 1]))
  }

  lemma {:induction false} VisitsAgree(w: World, g: Graph, ctx: Context, visits: seq<Visit>, order: seq<string>)
    requires ValidVisits(w, g, ctx, visits) && DependsOnInputs(w)
    requires WellFormed(g) && !Cyclic(g) && TopoSort.IsSchedule(g, order) && VisitIds(visits) <= order
    ensures Agrees(w, g, ctx, visits) && StoresAgree(w, g, ctx, visits)
    decreases visits
  {
    if visits == [] {
      SeedStored(g.nodes, ctx.body);
    } else {
      var init, v := LastVisit(w, g, ctx, visits);
      SourcesDone(g, order, init, v);
      VisitsAgree(w, g, ctx, init, order);
      LastVisitAgrees(w, g, ctx, init, v);
      assert VisitIds(visits) == VisitIds(init) + [v.node.id];
      assert forall u :: u in visits ==> u in init || u == v;
    }
  }

  lemma LastVisitAgrees(w: World, g: Graph, ctx: Context, init: seq<Visit>, v: Visit)
    requires WellFormed(g) && !Cyclic(g) && DependsOnInputs(w)
    requires ValidVisits(w, g, ctx, init + [v]) && v.node.id !in VisitIds(init)
    requires StoreAgrees(w, g, ctx, After(g, ctx, init).values, VisitIds(init))
    requires forall e :: e in g.edges && e.target == v.node.id ==> e.source in VisitIds(init)
    ensures v.inputs == EvalInputs(w, g, ctx, v.node.id, |g.edges|)
    ensures AllPassed(init + [v]) ==>
            StoreAgrees(w, g, ctx, After(g, ctx, init + [v]).values, VisitIds(init) + [v.node.id])
  {
    var i, u := LastVisit(w, g, ctx, init + [v]);
    assert i == init && u == v;
    LastAgrees(w, g, ctx, After(g, ctx, init).values, VisitIds(init), v);
    if AllPassed(init + [v]) {
      assert v in init + [v];
      PassedStore(w, g, ctx, After(g, ctx, init), VisitIds(init), v);
    }
  }

  /** At every depth, each node ran on the inputs of the evaluation, and left its
      outputs in the store. */
  ghost predicate EvaluatesGraph(w: World, run: Run)
    decreases run
  {
    && (WellFormed(run.graph) && run.visits != [] ==>
          !Cyclic(run.graph) && Agrees(w, run.graph, run.ctx, run.visits)
              && StoresAgree(w, run.graph, run.ctx, run.visits))
    && (forall v :: v in run.visits && v.step.nested.Some? ==> EvaluatesGraph(w, v.step.nested.value))
  }

  lemma {:induction false} RunEvaluates(w: World, run: Run)
    requires ValidRun(w, run) && DependsOnInputs(w)
    ensures EvaluatesGraph(w, run)
    decreases run
  {
    if WellFormed(run.graph) && run.visits != [] {
      VisitsAreSchedule(run);
      TopoSort.SortFailsIffCyclic(run.graph);
      VisitsAgree(w, run.graph, run.ctx, run.visits, TopoSort.TopoOrder(run.graph).value);
    }
    forall v | v in run.visits && v.step.nested.Some? ensures EvaluatesGraph(w, v.step.nested.value) {
      var k :| 0 <= k < |run.visits| && run.visits[k] == v;
      VisitAt(w, run.graph, run.ctx, run.visits, k);
      var sub := NestedRun(w, v.node, v.inputs, run.ctx.(messages := v.before), v.step);
      RunEvaluates(w, sub);
    }
  }

  /** The inputs of every node executed anywhere in a nested run, and the outputs
      stored of those the loop went past, are those of the recursive evaluation
      of its graph, which mentions no order: the tie-breaks of the sort change
      nothing. */
  lemma ForwardEvaluatesGraph(w: World, g: Graph, ctx: Context)
    requires DependsOnInputs(w)
    ensures EvaluatesGraph(w, RunForward(w, g, ctx, Root))
  {
    RunForwardValid(w, g, ctx, Root);
    RunEvaluates(w, RunForward(w, g, ctx, Root));
  }
}
