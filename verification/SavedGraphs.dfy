/** What every saved graph holds, and what that gives the requests that run it
    (internal/core/service/pipeline_graph.go:14-63). */
module SavedGraphs {
  import opened Prelude
  import opened Graphs
  import opened Engine
  import opened Runs
  import opened Nesting
  import opened Policies
  import TopoSort

  const MaxNodes: nat := 500
  const MaxEdges: nat := 2000

  /** The syntax of an ID, and the type and configuration of one node. */
  datatype Rules = Rules(validId: string -> bool, validNode: Node -> bool)

  // ---- The validator ---------------------------------------------------

  /** What the validator promises of a graph it accepts. */
  ghost predicate Saved(rules: Rules, g: Graph) {
    && |g.nodes| <= MaxNodes && |g.edges| <= MaxEdges
    && (forall n :: n in g.nodes ==> rules.validId(n.id) && rules.validNode(n))
    && (forall e :: e in g.edges ==> rules.validId(e.id) && e.source in Ids(g) && e.target in Ids(g))
    && UniqueIds(g)
    && (forall i, j :: 0 <= i < j < |g.edges| ==> g.edges[i].id != g.edges[j].id)
  }

  /** The nodes: valid, and each ID taken once. */
  method ValidateNodes(rules: Rules, nodes: seq<Node>) returns (ok: bool, ids: set<string>)
    ensures ok <==> && (forall n :: n in nodes ==> rules.validId(n.id) && rules.validNode(n))
                    && (forall i, j :: 0 <= i < j < |nodes| ==> nodes[i].id != nodes[j].id)
    ensures ok ==> ids == set n | n in nodes :: n.id
  {
    ids := {};
    for k := 0 to |nodes|
      invariant forall i :: 0 <= i < k ==> rules.validId(nodes[i].id) && rules.validNode(nodes[i])
      invariant forall i, j :: 0 <= i < j < k ==> nodes[i].id != nodes[j].id
      invariant forall id :: id in ids <==> exists i :: 0 <= i < k && nodes[i].id == id
    {
      assert nodes[k] in nodes;
      if !rules.validId(nodes[k].id) { return false, ids; }
      if nodes[k].id in ids {
        var i :| 0 <= i < k && nodes[i].id == nodes[k].id;
        return false, ids;
      }
      ids := ids + {nodes[k].id};
      if !rules.validNode(nodes[k]) { return false, ids; }
    }
    return true, ids;
  }

  /** The edges: each ID taken once, and both ends known. */
  method ValidateEdges(rules: Rules, edges: seq<Edge>, ids: set<string>) returns (ok: bool)
    ensures ok <==> && (forall e :: e in edges ==> rules.validId(e.id) && e.source in ids && e.target in ids)
                    && (forall i, j :: 0 <= i < j < |edges| ==> edges[i].id != edges[j].id)
  {
    var taken: set<string> := {};
    for k := 0 to |edges|
      invariant forall i :: 0 <= i < k ==>
          rules.validId(edges[i].id) && edges[i].source in ids && edges[i].target in ids
      invariant forall i, j :: 0 <= i < j < k ==> edges[i].id != edges[j].id
      invariant forall id :: id in taken <==> exists i :: 0 <= i < k && edges[i].id == id
    {
      assert edges[k] in edges;
      if !rules.validId(edges[k].id) { return false; }
      if edges[k].id in taken {
        var i :| 0 <= i < k && edges[i].id == edges[k].id;
        return false;
      }
      taken := taken + {edges[k].id};
      if edges[k].source !in ids || edges[k].target !in ids { return false; }
    }
    return true;
  }

  /** A missing graph is saved as it is. */
  method Validate(rules: Rules, graph: Option<Graph>) returns (ok: bool)
    ensures ok <==> graph.None? || Saved(rules, graph.value)
    ensures ok && graph.Some? ==> WellFormed(graph.value)
  {
    if graph.None? { return true; }
    var g := graph.value;
    if |g.nodes| > MaxNodes || |g.edges| > MaxEdges { return false; }
    var valid, ids := ValidateNodes(rules, g.nodes);
    if !valid { return false; }
    ok := ValidateEdges(rules, g.edges, ids);
  }

  // ---- Requests over saved graphs --------------------------------------

  ghost predicate AllSaved(rules: Rules, models: map<string, VirtualModel>) {
    forall name :: name in models && models[name].graph.Some? ==> Saved(rules, models[name].graph.value)
  }

  ghost predicate PendingSaved(rules: Rules, pending: seq<Middleware>) {
    forall m :: m in pending && m.graph.Some? ==> Saved(rules, m.graph.value)
  }

  /** Every graph a request can reach went through the validator. */
  ghost predicate Validated(rules: Rules, w: World, g: Graph, ctx: Context) {
    && Saved(rules, g)
    && AllSaved(rules, w.orgModels) && AllSaved(rules, w.personalModels)
    && PendingSaved(rules, ctx.pending)
  }

  lemma DescentSaved(rules: Rules, w: World, g: Graph, ctx: Context, sub: Run)
    requires Validated(rules, w, g, ctx) && Descent(w, ctx, sub.frame, sub.graph, sub.ctx)
    ensures Validated(rules, w, sub.graph, sub.ctx)
  {
    if sub.frame.OfMiddleware? { assert ctx.pending[0] in ctx.pending; }
  }

  /** Every graph of the run is well formed, so that it fails to sort exactly
      when it has a cycle. */
  ghost predicate SortsUnlessCyclic(run: Run)
    decreases run
  {
    && WellFormed(run.graph) && (TopoSort.TopoOrder(run.graph).Err? <==> Cyclic(run.graph))
    && (forall v :: v in run.visits && v.step.nested.Some? ==> SortsUnlessCyclic(v.step.nested.value))
  }

  /** Every block node of every graph of the run let the request through. */
  ghost predicate EveryBlockHeld(run: Run)
    decreases run
  {
    && (forall n :: n in run.graph.nodes && n.kind.Block? ==> LetThrough(run, n))
    && (forall v :: v in run.visits && v.step.nested.Some? ==> EveryBlockHeld(v.step.nested.value))
  }

  lemma {:induction false} ValidatedRunSorts(rules: Rules, w: World, run: Run)
    requires ValidRun(w, run) && Validated(rules, w, run.graph, run.ctx)
    ensures SortsUnlessCyclic(run)
    decreases run
  {
    TopoSort.SortFailsIffCyclic(run.graph);
    forall v | v in run.visits && v.step.nested.Some? ensures SortsUnlessCyclic(v.step.nested.value) {
      var k :| 0 <= k < |run.visits| && run.visits[k] == v;
      VisitAt(w, run.graph, run.ctx, run.visits, k);
      var sub := NestedRun(w, v.node, v.inputs, run.ctx.(messages := v.before), v.step);
      DescentSaved(rules, w, run.graph, run.ctx.(messages := v.before), sub);
      ValidatedRunSorts(rules, w, sub);
    }
  }

  lemma {:induction false} HeldWhenWellFormed(run: Run)
    requires BlocksHeld(run) && SortsUnlessCyclic(run)
    ensures EveryBlockHeld(run)
    decreases run
  {
    forall v | v in run.visits && v.step.nested.Some? ensures EveryBlockHeld(v.step.nested.value) {
      HeldWhenWellFormed(v.step.nested.value);
    }
  }

  /** Over validated graphs, at every depth the sort fails exactly on a cycle; and
      a request that passes ran every block node of every graph it went through,
      on a false condition. */
  lemma ValidatedRequestsAreGuarded(rules: Rules, w: World, g: Graph, ctx: Context)
    requires Validated(rules, w, g, ctx)
    ensures var run := RunForward(w, g, ctx, Root);
            SortsUnlessCyclic(run) && (run.result.Ok? ==> EveryBlockHeld(run))
  {
    RunForwardValid(w, g, ctx, Root);
    ValidatedRunSorts(rules, w, RunForward(w, g, ctx, Root));
    if RunForward(w, g, ctx, Root).result.Ok? {
      SuccessMeansNotBlocked(w, g, ctx);
      HeldWhenWellFormed(RunForward(w, g, ctx, Root));
    }
  }

  /** The graphs whose block node is hidden are refused: an edge leads nowhere. */
  lemma HiddenBlockIsRefused(rules: Rules, g: string, m: string, s: string, b: string, x: string, name: string)
    requires Distinct([g, m, s, b, x])
    ensures !Saved(rules, HiddenBlock(g, m, s, b, x, name))
  {
    FiveDistinct(g, m, s, b, x);
    HiddenBlockShape(g, m, s, b, x, name);
  }
}
