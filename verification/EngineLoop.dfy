/** The engine as it runs: loops over a mutable value store
    (internal/pipeline/engine.go:60-168, value_context.go:12-52), proved to
    compute Engine.RunForward. */
module EngineLoop {
  import opened Prelude
  import opened Graphs
  import opened Engine
  import TopoSort

  lemma SetPortExtends(values: Store, id: string, done: Ports, port: Port, v: Value)
    ensures SetPort(SetPorts(values, id, done), id, port, v) == SetPorts(values, id, done[port := v])
  {
    var base := if id in values then values[id] else map[];
    assert (base + done)[port := v] == base + done[port := v];
    assert done == map[] ==> base + done == base;
    assert port in done[port := v];
    assert values[id := base + done][id := (base + done)[port := v]] == values[id := (base + done)[port := v]];
  }

  class ValueContext {
    var values: Store

    constructor ()
      ensures values == map[]
    {
      values := map[];
    }

    method Set(id: string, port: Port, value: Value)
      modifies this
      ensures values == SetPort(old(values), id, port, value)
    {
      if id !in values { values := values[id := map[]]; }
      values := values[id := values[id][port := value]];
    }

    method Get(id: string, port: Port) returns (v: Option<Value>)
      ensures v == GetPort(values, id, port)
    {
      if id !in values || port !in values[id] { return None; }
      return Some(values[id][port]);
    }

    /** The inputs of a node, the last edge into a port winning. */
    method Resolve(g: Graph, id: string) returns (inputs: Ports)
      ensures inputs == ResolveInputs(values, g.edges, id)
    {
      inputs := map[];
      for k := 0 to |g.edges|
        invariant inputs == ResolveInputs(values, g.edges[..k], id)
      {
        assert g.edges[..k + 1][..k] == g.edges[..k];
        if g.edges[k].target == id {
          var v := Get(g.edges[k].source, g.edges[k].sourcePort);
          if v.Some? { inputs := inputs[g.edges[k].targetPort := v.value]; }
        }
      }
      assert g.edges[..|g.edges|] == g.edges;
    }

    /** Stores outputs one port at a time, in any order. */
    method SetAll(id: string, outputs: Ports)
      modifies this
      ensures values == SetPorts(old(values), id, outputs)
    {
      var left := outputs.Keys;
      while left != {}
        invariant left <= outputs.Keys
        invariant values == SetPorts(old(values), id, map k | k in outputs && k !in left :: outputs[k])
        decreases |left|
      {
        var port :| port in left;
        ghost var done := map k | k in outputs && k !in left :: outputs[k];
        left := left - {port};
        Set(id, port, outputs[port]);
        assert (map k | k in outputs && k !in left :: outputs[k]) == done[port := outputs[port]];
        SetPortExtends(old(values), id, done, port, outputs[port]);
      }
      assert (map k | k in outputs && k !in left :: outputs[k]) == outputs;
    }

    method SeedGenerators(g: Graph, body: string)
      requires values == map[]
      modifies this
      ensures values == Seed(g.nodes, body)
    {
      for i := 0 to |g.nodes|
        invariant values == Seed(g.nodes[..i], body)
      {
        assert g.nodes[..i + 1][..i] == g.nodes[..i];
        if g.nodes[i].kind.Generator? { Set(g.nodes[i].id, RequestPort, Text(body)); }
      }
      assert g.nodes[..|g.nodes|] == g.nodes;
    }
  }

  /** Runs the graph in schedule order until a node resolves a client. */
  method Forward(w: World, g: Graph, ctx: Context, frame: Frame) returns (run: Run)
    ensures run == RunForward(w, g, ctx, frame)
    decreases Remaining(w, ctx), 4
  {
    if !ValidGraph(g) { return Run(frame, g, ctx, [], Err(InvalidGraph)); }
    var sorted := TopoSort.Sort(g);
    if sorted.Err? { return Run(frame, g, ctx, [], Err(UnsortedGraph)); }
    var order := sorted.value;

    var vc := new ValueContext();
    vc.SeedGenerators(g, ctx.body);
    var p := Start(g, ctx);
    for i := 0 to |order|
      invariant p.values == vc.values
      invariant RunNodes(w, g, ctx, frame, order, i, p) == RunForward(w, g, ctx, frame)
    {
      var ended;
      ended, p := Turn(w, g, ctx, frame, order, i, vc, p);
      if ended.Some? { return ended.value; }
    }
    return Run(frame, g, ctx, p.visits, Err(NoTerminal));
  }

  /** One turn of the loop: the node at position i runs, its outputs reach the
      store, and the pass ends or goes on. */
  method Turn(w: World, g: Graph, ctx: Context, frame: Frame, order: seq<string>, i: nat, vc: ValueContext, p: Progress)
    returns (ended: Option<Run>, next: Progress)
    requires i < |order| && p.values == vc.values
    modifies vc
    ensures next.values == vc.values
    ensures RunNodes(w, g, ctx, frame, order, i, p) ==
            if ended.Some? then ended.value else RunNodes(w, g, ctx, frame, order, i + 1, next)
    decreases Remaining(w, ctx), 3
  {
    next := p;
    var found := NodeById(g.nodes, order[i]);
    if found.None? { return None, p; }
    var node := found.value;
    if !w.registered(node.kind) { return Some(Run(frame, g, ctx, p.visits, Err(NoExecutor(node.id)))), p; }
    var inputs := vc.Resolve(g, node.id);
    var step := Execute(w, node, inputs, ctx.(messages := p.messages));
    var v := Visit(node, inputs, p.messages, step);
    assert RunNodes(w, g, ctx, frame, order, i, p) == AfterVisit(w, g, ctx, frame, order, i, p, v);
    ended, next := Settle(w, g, ctx, frame, order, i, vc, p, v);
  }

  method Settle(
    w: World, g: Graph, ctx: Context, frame: Frame, order: seq<string>, i: nat, vc: ValueContext, p: Progress, v: Visit)
    returns (ended: Option<Run>, next: Progress)
    requires i < |order| && p.values == vc.values
    modifies vc
    ensures next.values == vc.values
    ensures AfterVisit(w, g, ctx, frame, order, i, p, v) ==
            if ended.Some? then ended.value else RunNodes(w, g, ctx, frame, order, i + 1, next)
  {
    var visits := p.visits + [v];
    if v.step.result.Err? { return Some(Run(frame, g, ctx, visits, Err(v.step.result.error))), p; }
    var r := v.step.result.value;
    if r.rejected.Some? { return Some(Run(frame, g, ctx, visits, Err(Rejected(r.rejected.value)))), p; }
    var executed := p.executed + r.nested + [ExecutedNode(v.node, r.state, r.pluginContext, r.noRewrite)];
    vc.SetAll(v.node.id, r.outputs);
    var messages := Rewritten(r, p.messages);
    var tools := p.tools + r.tools;
    var decorators := if r.decorator.Some? then p.decorators + [r.decorator.value] else p.decorators;
    next := Progress(vc.values, executed, messages, tools, decorators, visits);
    if r.client.None? { return None, next; }
    var blocked := PendingBlockNode(g, order[i + 1..]);
    if blocked.Some? { return Some(Run(frame, g, ctx, visits, Err(PendingBlock(blocked.value)))), next; }
    return Some(Run(frame, g, ctx, visits, Ok(Finish(next, r)))), next;
  }

  method PendingBlockNode(g: Graph, left: seq<string>) returns (id: Option<string>)
    ensures id == FirstBlock(g.nodes, left)
  {
    for i := 0 to |left|
      invariant FirstBlock(g.nodes, left) == FirstBlock(g.nodes, left[i..])
    {
      var n := NodeById(g.nodes, left[i]);
      if n.Some? && n.value.kind.Block? { return Some(left[i]); }
    }
    return None;
  }

  method Execute(w: World, node: Node, inputs: Ports, ctx: Context) returns (step: Step)
    ensures step == NodeForward(w, node, inputs, ctx)
    decreases Remaining(w, ctx), 2, 1
  {
    match node.kind {
      case Model => step := ExecuteModel(w, node, inputs, ctx);
      case ModelFallback => step := FallbackForward(w, node, inputs, ctx);
      case Block => step := BlockForward(node, inputs);
      case _ => step := LeafForward(w, node, inputs, ctx);
    }
  }

  method ExecuteModel(w: World, node: Node, inputs: Ports, ctx0: Context) returns (step: Step)
    ensures step == ModelForward(w, node, inputs, ctx0)
    decreases Remaining(w, ctx0), 2, 0
  {
    var entering := NodeBody(w, ctx0, inputs);
    var ctx := ctx0.(body := entering.0, bodyMessages := entering.1);
    if IsPassthrough(node) || ctx.forcePassthrough {
      if ctx.pending != [] {
        var next := ctx.pending[0];
        if next.graph.None? { return Step(Err(NoPipeline(next.name)), [], None); }
        var child := MiddlewareContext(ctx, next.graph.value);
        var sub := Forward(w, next.graph.value, child, OfMiddleware(next.name));
        return Nested(sub);
      }
      if ctx.target == "" { return Step(Err(NoTarget), [], None); }
      step := ExecuteByName(w, ctx.target, ctx);
      return;
    }
    var name := ModelNameOf(node, inputs);
    if name == "" { return Step(Err(NoModelName), [], None); }
    step := ExecuteByName(w, name, ctx);
  }

  method ExecuteByName(w: World, name: string, ctx: Context) returns (step: Step)
    ensures step == ResolveByName(w, name, ctx)
    decreases Remaining(w, ctx), 1
  {
    var denied := CheckAccess(w, ctx, name);
    if denied.Some? { return Step(Err(denied.value), [], None); }
    var parsed := ParseName(ctx, name);
    if parsed.None? { return Step(Err(BadModelName(name)), [], None); }
    var n := parsed.value;
    if n.Personal() && ctx.personalStore && ctx.userId != "" && n.local in w.personalModels {
      var vm := w.personalModels[n.local];
      var key := PersonalKey(vm.id);
      if key in ctx.visited { return Step(Err(ModelCycle(name)), [], None); }
      if vm.graph.None? { return Step(Err(NoPipeline(name)), [], None); }
      VisitingShrinks(w, ctx.visited, key);
      var sub := Forward(w, vm.graph.value, PersonalContext(ctx, vm), OfPersonalModel(name, key));
      return Nested(sub);
    }
    if w.orgStore && !n.Personal() && (n.org == "" || n.org == ctx.orgSlug || ctx.orgSlug == "")
        && n.local in w.orgModels {
      var vm := w.orgModels[n.local];
      if OrgKey(vm.id) in ctx.visited { return Step(Err(ModelCycle(name)), [], None); }
      if vm.graph.None? { return Step(Err(NoPipeline(name)), [], None); }
      VisitingShrinks(w, ctx.visited, OrgKey(vm.id));
      var sub := Forward(w, vm.graph.value, OrgContext(ctx, vm, vm.graph.value), OfOrgModel(name, OrgKey(vm.id)));
      return Nested(sub);
    }
    var found := w.resolveReal(n.OrgLevel().Text());
    if found.Err? { return Step(Err(found.error), [], None); }
    return Step(Ok(Plain(map[ResponsePort := Text("")]).(client := Some(found.value))), [name], None);
  }
}
