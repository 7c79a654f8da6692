/** What the tree of a run says, node by node, without the recursion that built
    it; every run of the engine is such a tree. The properties of whole nested
    runs are proved on these trees. */
module Runs {
  import opened Prelude
  import opened Graphs
  import opened Engine
  import TopoSort
  import ModelNames

  /** The loop state after some visits. */
  function After(g: Graph, ctx: Context, visits: seq<Visit>): Progress {
    if visits == [] then Start(g, ctx)
    else
      var p := After(g, ctx, visits[..|visits| - 1]);
      var v := visits[|visits| - 1];
      if v.step.result.Ok? then Advance(p, v, v.step.result.value) else p
  }

  /** The visit let the loop go on. */
  predicate Passed(v: Visit) {
    v.step.result.Ok? && v.step.result.value.rejected.None? && v.step.result.value.client.None?
  }

  ghost predicate AllPassed(visits: seq<Visit>) {
    forall v :: v in visits ==> Passed(v)
  }

  function VisitIds(visits: seq<Visit>): seq<string> {
    if visits == [] then [] else VisitIds(visits[..|visits| - 1]) + [visits[|visits| - 1].node.id]
  }

  /** The engine leaves the node to an executor it does not define. */
  predicate IsLeaf(kind: NodeKind) {
    !kind.Model? && !kind.ModelFallback? && !kind.Block?
  }

  /** The scheduled IDs that are nodes. */
  function KnownIds(nodes: seq<Node>, order: seq<string>): seq<string> {
    if order == [] then []
    else KnownIds(nodes, order[..|order| - 1]) +
         (if NodeById(nodes, order[|order| - 1]).Some? then [order[|order| - 1]] else [])
  }

  /** The personal model a name designates for the user of the request. */
  function PersonalModel(w: World, ctx: Context, name: string): Option<VirtualModel> {
    match ParseName(ctx, name)
    case None => None
    case Some(n) =>
      if n.org == "~" && ctx.personalStore && ctx.userId != "" && n.local in w.personalModels
      then Some(w.personalModels[n.local]) else None
  }

  /** The organization's virtual model a name designates. */
  function OrgModel(w: World, ctx: Context, name: string): Option<VirtualModel> {
    match ParseName(ctx, name)
    case None => None
    case Some(n) =>
      if w.orgStore && n.org != "~" && (n.org in {"", ctx.orgSlug} || ctx.orgSlug == "") && n.local in w.orgModels
      then Some(w.orgModels[n.local]) else None
  }

  /** The real model a name designates, its team dropped. */
  function RealModel(w: World, ctx: Context, name: string): Result<Resolution, Fault> {
    match ParseName(ctx, name)
    case None => Err(BadModelName(name))
    case Some(n) => w.resolveReal(if n.org == "" then n.local else n.org + "/" + n.local)
  }

  /** The condition fed to a block node says yes, or no. */
  predicate SaysYes(inputs: Ports) {
    ConditionPort in inputs &&
    match inputs[ConditionPort]
    case Flag(b) => b == true
    case Number(n) => n < 0.0 || n > 0.0
    case NotFinite => true
    case _ => false
  }

  predicate SaysNo(inputs: Ports) {
    ConditionPort in inputs && (inputs[ConditionPort] == Flag(false) || inputs[ConditionPort] == Number(0.0))
  }

  /** The text fed to the request port of a node, when there is one. */
  function RequestFed(inputs: Ports): string {
    if RequestPort in inputs && inputs[RequestPort].Text? then inputs[RequestPort].s else ""
  }

  /** The name a model node asks for; none when it wraps the next middleware. */
  function Asked(node: Node, inputs: Ports, ctx: Context): Option<string> {
    var config := node.data.ModelConfig?;
    var fed := ModelNamePort in inputs && inputs[ModelNamePort].Text? && inputs[ModelNamePort].s != "";
    if (config && node.data.passthrough) || ctx.forcePassthrough then
      if |ctx.pending| > 0 then None else Some(ctx.target)
    else Some(if fed then inputs[ModelNamePort].s else if config then node.data.proxyName else "")
  }

  /** How the context of a nested run follows from its parent's. */
  ghost predicate Descent(w: World, parent: Context, frame: Frame, g: Graph, c: Context) {
    && c.orgSlug == parent.orgSlug && c.teamSlug == parent.teamSlug && c.userId == parent.userId
    && c.checked == parent.checked && c.personalStore == parent.personalStore && c.target == parent.target
    && c.messages == parent.messages
    && match frame
       case Root => false
       case OfMiddleware(name) =>
         && parent.pending != [] && parent.pending[0].name == name
         && parent.pending[0].graph == Some(g) && c.secretScope == OrgKey(parent.pending[0].org)
         && c.pending == parent.pending[1..] && c.visited == parent.visited
         && c.delegated == StaticKeys(parent, g)
         && c.forcePassthrough == parent.forcePassthrough
       case OfOrgModel(name, key) =>
         && key in AllKeys(w) - parent.visited && c.visited == parent.visited + {key} && c.pending == parent.pending
         && CheckAccess(w, parent, name).None?
         && EntersOrg(w, parent, name, key, g, c.secretScope)
         && c.delegated == StaticKeys(parent, g)
         && !c.forcePassthrough
       case OfPersonalModel(name, key) =>
         && key in AllKeys(w) - parent.visited && c.visited == parent.visited + {key} && c.pending == parent.pending
         && CheckAccess(w, parent, name).None?
         && EntersPersonal(w, parent, name, key, g, c.secretScope)
         && c.delegated == {}
         && !c.forcePassthrough
  }

  /** The name's organization model is entered: its graph runs, under its key,
      with the secrets of its owner. */
  ghost predicate EntersOrg(w: World, ctx: Context, name: string, key: Key, g: Graph, scope: Key) {
    match OrgModel(w, ctx, name)
    case None => false
    case Some(vm) => key == OrgKey(vm.id) && vm.graph == Some(g) && scope == OrgKey(vm.owner)
  }

  ghost predicate EntersPersonal(w: World, ctx: Context, name: string, key: Key, g: Graph, scope: Key) {
    match PersonalModel(w, ctx, name)
    case None => false
    case Some(vm) => key == PersonalKey(vm.id) && vm.graph == Some(g) && scope == PersonalKey(vm.owner)
  }

  /** The graph that ran is that of what was asked for. */
  ghost predicate FrameFor(asked: Option<string>, frame: Frame) {
    match asked
    case None => frame.OfMiddleware?
    case Some(name) => (frame.OfOrgModel? || frame.OfPersonalModel?) && frame.name == name
  }

  /** A model node's step that ran no graph: nothing, or the real model asked
      for, which no virtual model stands for. */
  ghost predicate DirectModel(w: World, ctx: Context, asked: Option<string>, s: Step) {
    && (forall name :: name in s.resolved ==> CheckAccess(w, ctx, name).None?)
    && (s.result.Ok? ==>
          var r := s.result.value;
          && r.nested == [] && r.client.Some? && r.outcome.None? && r.outputs == map[ResponsePort := Text("")]
          && Silent(r) && ResolvesReal(w, ctx, asked, s.resolved, r.client.value))
    && (s.result.Err? ==> ModelFails(w, ctx, asked, s.result.error))
  }

  /** The answer of a node that keeps nothing for the backward pass and adds
      nothing to the request. */
  predicate Silent(r: ForwardResult) {
    && r.state == "" && r.pluginContext == "" && !r.noRewrite
    && r.rejected.None? && r.tools == [] && r.decorator.None?
  }

  /** Why nothing was asked for, or what was asked for is not to be had. */
  ghost predicate ModelFails(w: World, ctx: Context, asked: Option<string>, f: Fault) {
    match asked
    case None => ctx.pending != [] && ctx.pending[0].graph.None? && f == NoPipeline(ctx.pending[0].name)
    case Some(name) =>
      if name == "" then f in {NoTarget, NoModelName}
      else if CheckAccess(w, ctx, name).Some? then CheckAccess(w, ctx, name) == Some(f)
      else if PersonalModel(w, ctx, name).Some? then
        var vm := PersonalModel(w, ctx, name).value;
        NotEntered(vm, PersonalKey(vm.id), ctx.visited, name, f)
      else if OrgModel(w, ctx, name).Some? then
        var vm := OrgModel(w, ctx, name).value;
        NotEntered(vm, OrgKey(vm.id), ctx.visited, name, f)
      else RealModel(w, ctx, name) == Err(f)
  }

  /** A virtual model is refused when it is running already, and when it has no
      graph. */
  predicate NotEntered(vm: VirtualModel, key: Key, visited: set<Key>, name: string, f: Fault) {
    (key in visited && f == ModelCycle(name)) || (key !in visited && vm.graph.None? && f == NoPipeline(name))
  }

  ghost predicate ResolvesReal(
    w: World, ctx: Context, asked: Option<string>, resolved: seq<string>, client: Resolution)
  {
    && asked.Some? && resolved == [asked.value]
    && PersonalModel(w, ctx, asked.value).None? && OrgModel(w, ctx, asked.value).None?
    && RealModel(w, ctx, asked.value) == Ok(client)
  }

  ghost predicate ValidStep(w: World, node: Node, inputs: Ports, ctx: Context, s: Step)
    decreases s
  {
    match s.nested
    case None =>
      (match node.kind
       case Model => DirectModel(w, ctx, Asked(node, inputs, ctx), s)
       case ModelFallback => s == FallbackForward(w, node, inputs, ctx)
       case Block => s == BlockForward(node, inputs)
       case _ => s == LeafForward(w, node, inputs, ctx))
    case Some(run) =>
      && node.kind.Model?
      && s == Nested(run)
      && FrameFor(Asked(node, inputs, ctx), run.frame)
      && Descent(w, ctx, run.frame, run.graph, run.ctx)
      && (run.ctx.body, run.ctx.bodyMessages) == NodeBody(w, ctx, inputs)
      && ValidRun(w, run)
  }

  ghost predicate ValidVisits(w: World, g: Graph, ctx: Context, visits: seq<Visit>)
    decreases visits
  {
    visits != [] ==>
      var init, v := visits[..|visits| - 1], visits[|visits| - 1];
      var p := After(g, ctx, init);
      && ValidVisits(w, g, ctx, init) && AllPassed(init)
      && v.before == p.messages && v.inputs == ResolveInputs(p.values, g.edges, v.node.id)
      && NodeById(g.nodes, v.node.id) == Some(v.node) && w.registered(v.node.kind)
      && ValidStep(w, v.node, v.inputs, ctx.(messages := p.messages), v.step)
  }

  /** The visits walk the schedule from its start. */
  ghost predicate FollowsSchedule(run: Run) {
    run.visits != [] ==>
      && TopoSort.TopoOrder(run.graph).Ok?
      && VisitIds(run.visits) <= KnownIds(run.graph.nodes, TopoSort.TopoOrder(run.graph).value)
  }

  /** The last visit resolved a client and no block node was left to run. */
  ghost predicate Finished(run: Run, exec: ForwardExecution) {
    run.visits != [] &&
    var init, v := run.visits[..|run.visits| - 1], run.visits[|run.visits| - 1];
    && v.step.result.Ok? && v.step.result.value.rejected.None? && v.step.result.value.client.Some?
    && exec == Finish(After(run.graph, run.ctx, run.visits), v.step.result.value)
    && TopoSort.TopoOrder(run.graph).Ok?
    && var known := KnownIds(run.graph.nodes, TopoSort.TopoOrder(run.graph).value);
    && |run.visits| <= |known|
    && FirstBlock(run.graph.nodes, known[|run.visits|..]).None?
  }

  ghost predicate ValidRun(w: World, run: Run)
    decreases run
  {
    && ValidVisits(w, run.graph, run.ctx, run.visits)
    && FollowsSchedule(run)
    && (run.result.Ok? ==> Finished(run, run.result.value))
  }

  // ---- Entering a graph ------------------------------------------------

  lemma ParseDependsOn(a: Context, b: Context, name: string)
    requires a.orgSlug == b.orgSlug && a.teamSlug == b.teamSlug
    ensures ParseName(a, name) == ParseName(b, name)
  {
    var f := (org, segment) => org == a.orgSlug && a.teamSlug != "" && segment == a.teamSlug;
    var g := (org, segment) => org == b.orgSlug && b.teamSlug != "" && segment == b.teamSlug;
    assert ModelNames.Parse(name, f) == ModelNames.Parse(name, g);
  }

  lemma RefKeyDependsOn(a: Context, b: Context, name: string)
    requires a.orgSlug == b.orgSlug && a.teamSlug == b.teamSlug
    ensures RefKey(a, name) == RefKey(b, name)
  {
    ParseDependsOn(a, b, name);
  }

  lemma StaticKeysDependOn(a: Context, b: Context, g: Graph)
    requires a.orgSlug == b.orgSlug && a.teamSlug == b.teamSlug
    ensures StaticKeys(a, g) == StaticKeys(b, g)
  {
    forall name ensures RefKey(a, name) == RefKey(b, name) { RefKeyDependsOn(a, b, name); }
  }

  lemma CheckAccessDependsOn(w: World, a: Context, b: Context, name: string)
    requires a.orgSlug == b.orgSlug && a.teamSlug == b.teamSlug
    requires a.checked == b.checked && a.delegated == b.delegated
    ensures CheckAccess(w, a, name) == CheckAccess(w, b, name)
  {
    RefKeyDependsOn(a, b, name);
  }

  /** The body a model node hands down does not bear on access or order. */
  lemma DescentIgnoresBody(w: World, a: Context, b: Context, frame: Frame, g: Graph, c: Context)
    requires b == a.(body := b.body, bodyMessages := b.bodyMessages)
    requires Descent(w, b, frame, g, c)
    ensures Descent(w, a, frame, g, c)
  {
    StaticKeysDependOn(a, b, g);
    if frame.OfOrgModel? || frame.OfPersonalModel? {
      CheckAccessDependsOn(w, a, b, frame.name);
      ParseDependsOn(a, b, frame.name);
    }
  }

  // ---- Every run is a valid tree ---------------------------------------

  lemma KnownIdsStep(nodes: seq<Node>, order: seq<string>, i: nat)
    requires i < |order|
    ensures KnownIds(nodes, order[..i + 1]) ==
            KnownIds(nodes, order[..i]) + (if NodeById(nodes, order[i]).Some? then [order[i]] else [])
  {
    assert order[..i + 1][..i] == order[..i];
  }

  lemma {:induction false} KnownIdsPrefix(nodes: seq<Node>, order: seq<string>, i: nat)
    requires i <= |order|
    ensures KnownIds(nodes, order[..i]) <= KnownIds(nodes, order)
    ensures FirstBlock(nodes, order[i..]).None? ==>
              FirstBlock(nodes, KnownIds(nodes, order)[|KnownIds(nodes, order[..i])|..]).None?
    decreases |order| - i
  {
    if i == |order| {
      assert order[..i] == order;
    } else {
      KnownIdsStep(nodes, order, i);
      KnownIdsPrefix(nodes, order, i + 1);
      var known, here := KnownIds(nodes, order), KnownIds(nodes, order[..i]);
      assert order[i..][1..] == order[i + 1..];
      if NodeById(nodes, order[i]).Some? {
        assert known[|here|] == order[i];
        assert known[|here|..][1..] == known[|here| + 1..];
      }
    }
  }

  lemma ExtendVisits(w: World, g: Graph, ctx: Context, visits: seq<Visit>, v: Visit)
    requires ValidVisits(w, g, ctx, visits) && AllPassed(visits)
    requires var p := After(g, ctx, visits);
             && v.before == p.messages && v.inputs == ResolveInputs(p.values, g.edges, v.node.id)
             && NodeById(g.nodes, v.node.id) == Some(v.node) && w.registered(v.node.kind)
             && ValidStep(w, v.node, v.inputs, ctx.(messages := p.messages), v.step)
    ensures ValidVisits(w, g, ctx, visits + [v])
    ensures VisitIds(visits + [v]) == VisitIds(visits) + [v.node.id]
    ensures v.step.result.Ok? ==>
              After(g, ctx, visits + [v]) == Advance(After(g, ctx, visits), v, v.step.result.value)
  {
    assert (visits + [v])[..|visits|] == visits;
  }

  /** What the forward loop knows at position i. */
  ghost predicate AtPosition(w: World, g: Graph, ctx: Context, order: seq<string>, i: nat, p: Progress) {
    && i <= |order| && TopoSort.TopoOrder(g) == Ok(order)
    && p == After(g, ctx, p.visits)
    && ValidVisits(w, g, ctx, p.visits) && AllPassed(p.visits)
    && VisitIds(p.visits) == KnownIds(g.nodes, order[..i])
  }

  lemma {:induction false} VisitIdsLength(visits: seq<Visit>)
    ensures |VisitIds(visits)| == |visits|
  {
    if visits != [] { VisitIdsLength(visits[..|visits| - 1]); }
  }

  lemma ValidStop(
    w: World, g: Graph, ctx: Context, frame: Frame, order: seq<string>, i: nat, visits: seq<Visit>, fault: Fault)
    requires i <= |order| && TopoSort.TopoOrder(g) == Ok(order)
    requires ValidVisits(w, g, ctx, visits) && VisitIds(visits) == KnownIds(g.nodes, order[..i])
    ensures ValidRun(w, Run(frame, g, ctx, visits, Err(fault)))
  {
    KnownIdsPrefix(g.nodes, order, i);
  }

  lemma ValidFinish(w: World, g: Graph, ctx: Context, frame: Frame, order: seq<string>, i: nat, p: Progress, v: Visit)
    requires i < |order| && TopoSort.TopoOrder(g) == Ok(order)
    requires p.visits != [] && p.visits[|p.visits| - 1] == v && p == After(g, ctx, p.visits)
    requires ValidVisits(w, g, ctx, p.visits) && VisitIds(p.visits) == KnownIds(g.nodes, order[..i + 1])
    requires v.step.result.Ok? && v.step.result.value.rejected.None? && v.step.result.value.client.Some?
    requires FirstBlock(g.nodes, order[i + 1..]).None?
    ensures ValidRun(w, Run(frame, g, ctx, p.visits, Ok(Finish(p, v.step.result.value))))
  {
    KnownIdsPrefix(g.nodes, order, i + 1);
    VisitIdsLength(p.visits);
  }

  lemma {:induction false} RunNodesValid(
    w: World, g: Graph, ctx: Context, frame: Frame, order: seq<string>, i: nat, p: Progress)
    requires AtPosition(w, g, ctx, order, i, p)
    ensures ValidRun(w, RunNodes(w, g, ctx, frame, order, i, p))
    ensures var run := RunNodes(w, g, ctx, frame, order, i, p); run.frame == frame && run.graph == g && run.ctx == ctx
    decreases Remaining(w, ctx), 2, |order| - i, 2
  {
    if i == |order| {
      ValidStop(w, g, ctx, frame, order, i, p.visits, NoTerminal);
    } else {
      var found := NodeById(g.nodes, order[i]);
      KnownIdsStep(g.nodes, order, i);
      if found.None? {
        RunNodesValid(w, g, ctx, frame, order, i + 1, p);
      } else if !w.registered(found.value.kind) {
        ValidStop(w, g, ctx, frame, order, i, p.visits, NoExecutor(found.value.id));
      } else {
        RunNodesValidVisit(w, g, ctx, frame, order, i, p, found.value);
      }
    }
  }

  lemma {:induction false} RunNodesValidVisit(
    w: World, g: Graph, ctx: Context, frame: Frame, order: seq<string>, i: nat, p: Progress, node: Node)
    requires AtPosition(w, g, ctx, order, i, p) && i < |order|
    requires NodeById(g.nodes, order[i]) == Some(node) && w.registered(node.kind)
    requires KnownIds(g.nodes, order[..i + 1]) == KnownIds(g.nodes, order[..i]) + [order[i]]
    ensures ValidRun(w, RunNodes(w, g, ctx, frame, order, i, p))
    ensures var run := RunNodes(w, g, ctx, frame, order, i, p); run.frame == frame && run.graph == g && run.ctx == ctx
    decreases Remaining(w, ctx), 2, |order| - i, 1
  {
    NodeByIdSome(g.nodes, order[i]);
    var inputs := ResolveInputs(p.values, g.edges, node.id);
    var nodeCtx := ctx.(messages := p.messages);
    NodeForwardValid(w, node, inputs, nodeCtx);
    var v := Visit(node, inputs, p.messages, NodeForward(w, node, inputs, nodeCtx));
    ExtendVisits(w, g, ctx, p.visits, v);
    AfterVisitValid(w, g, ctx, frame, order, i, p, v);
  }

  lemma {:induction false} AfterVisitValid(w: World, g: Graph, ctx: Context, frame: Frame, order: seq<string>, i: nat,
                                           p: Progress, v: Visit)
    requires i < |order| && TopoSort.TopoOrder(g) == Ok(order)
    requires p == After(g, ctx, p.visits) && AllPassed(p.visits)
    requires ValidVisits(w, g, ctx, p.visits + [v]) && VisitIds(p.visits + [v]) == KnownIds(g.nodes, order[..i + 1])
    requires v.step.result.Ok? ==> After(g, ctx, p.visits + [v]) == Advance(p, v, v.step.result.value)
    ensures ValidRun(w, AfterVisit(w, g, ctx, frame, order, i, p, v))
    ensures var run := AfterVisit(w, g, ctx, frame, order, i, p, v);
            run.frame == frame && run.graph == g && run.ctx == ctx
    decreases Remaining(w, ctx), 2, |order| - i, 0
  {
    match v.step.result
    case Err(f) => ValidStop(w, g, ctx, frame, order, i + 1, p.visits + [v], f);
    case Ok(r) =>
      if r.rejected.Some? {
        ValidStop(w, g, ctx, frame, order, i + 1, p.visits + [v], Rejected(r.rejected.value));
      } else if r.client.None? {
        RunNodesValid(w, g, ctx, frame, order, i + 1, Advance(p, v, r));
      } else {
        match FirstBlock(g.nodes, order[i + 1..])
        case Some(id) => ValidStop(w, g, ctx, frame, order, i + 1, p.visits + [v], PendingBlock(id));
        case None => ValidFinish(w, g, ctx, frame, order, i, Advance(p, v, r), v);
      }
  }

  /** Every forward pass is a valid tree of calls, nested ones included. */
  lemma {:induction false} RunForwardValid(w: World, g: Graph, ctx: Context, frame: Frame)
    ensures ValidRun(w, RunForward(w, g, ctx, frame))
    ensures var run := RunForward(w, g, ctx, frame); run.frame == frame && run.graph == g && run.ctx == ctx
    decreases Remaining(w, ctx), 4, 0
  {
    if ValidGraph(g) && TopoSort.TopoOrder(g).Ok? {
      var order := TopoSort.TopoOrder(g).value;
      assert KnownIds(g.nodes, order[..0]) == [];
      RunNodesValid(w, g, ctx, frame, order, 0, Start(g, ctx));
    }
  }

  lemma {:induction false} NodeForwardValid(w: World, node: Node, inputs: Ports, ctx0: Context)
    ensures ValidStep(w, node, inputs, ctx0, NodeForward(w, node, inputs, ctx0))
    decreases Remaining(w, ctx0), 1, 2
  {
    if node.kind.Model? { ModelForwardValid(w, node, inputs, ctx0); }
  }

  /** What resolving a name does, in the terms of the context it is given. */
  ghost predicate ValidResolution(w: World, ctx: Context, asked: Option<string>, s: Step) {
    match s.nested
    case None => DirectModel(w, ctx, asked, s)
    case Some(run) =>
      && s == Nested(run)
      && FrameFor(asked, run.frame)
      && Descent(w, ctx, run.frame, run.graph, run.ctx)
      && run.ctx.body == ctx.body && run.ctx.bodyMessages == ctx.bodyMessages
      && ValidRun(w, run)
  }

  lemma {:induction false} ModelForwardValid(w: World, node: Node, inputs: Ports, ctx0: Context)
    requires node.kind.Model?
    ensures ValidStep(w, node, inputs, ctx0, ModelForward(w, node, inputs, ctx0))
    decreases Remaining(w, ctx0), 1, 1
  {
    var entering := NodeBody(w, ctx0, inputs);
    var ctx := ctx0.(body := entering.0, bodyMessages := entering.1);
    var s := ModelForward(w, node, inputs, ctx0);
    assert ValidResolution(w, ctx, Asked(node, inputs, ctx), s) by {
      if IsPassthrough(node) || ctx.forcePassthrough {
        if ctx.pending != [] {
          if ctx.pending[0].graph.Some? { EnterMiddleware(w, ctx); }
        } else if ctx.target != "" {
          ResolveByNameValid(w, ctx.target, ctx);
        }
      } else if ModelNameOf(node, inputs) != "" {
        ResolveByNameValid(w, ModelNameOf(node, inputs), ctx);
      }
    }
    ResolutionIsStep(w, node, inputs, ctx0, ctx, s);
  }

  lemma ResolutionIsStep(w: World, node: Node, inputs: Ports, ctx0: Context, ctx: Context, s: Step)
    requires node.kind.Model? && ValidResolution(w, ctx, Asked(node, inputs, ctx), s)
    requires ctx == ctx0.(body := NodeBody(w, ctx0, inputs).0, bodyMessages := NodeBody(w, ctx0, inputs).1)
    ensures ValidStep(w, node, inputs, ctx0, s)
  {
    if s.nested.Some? {
      DescentIgnoresBody(w, ctx0, ctx, s.nested.value.frame, s.nested.value.graph, s.nested.value.ctx);
    } else {
      forall name | name in s.resolved ensures CheckAccess(w, ctx0, name).None? {
        CheckAccessDependsOn(w, ctx0, ctx, name);
      }
      if Asked(node, inputs, ctx).Some? {
        ParseDependsOn(ctx0, ctx, Asked(node, inputs, ctx).value);
        CheckAccessDependsOn(w, ctx0, ctx, Asked(node, inputs, ctx).value);
      }
    }
  }

  lemma {:induction false} EnterMiddleware(w: World, ctx: Context)
    requires ctx.pending != [] && ctx.pending[0].graph.Some?
    ensures var g := ctx.pending[0].graph.value;
            ValidResolution(w, ctx, None,
                Nested(RunForward(w, g, MiddlewareContext(ctx, g), OfMiddleware(ctx.pending[0].name))))
    decreases Remaining(w, ctx), 0, 0
  {
    var g := ctx.pending[0].graph.value;
    RunForwardValid(w, g, MiddlewareContext(ctx, g), OfMiddleware(ctx.pending[0].name));
  }

  lemma {:induction false} EnterPersonal(w: World, name: string, ctx: Context, vm: VirtualModel)
    requires CheckAccess(w, ctx, name).None? && vm.graph.Some?
    requires PersonalKey(vm.id) in PersonalKeys(w) && PersonalKey(vm.id) !in ctx.visited
    requires PersonalModel(w, ctx, name) == Some(vm)
    ensures var sub := RunForward(w, vm.graph.value, PersonalContext(ctx, vm),
                                  OfPersonalModel(name, PersonalKey(vm.id)));
            ValidResolution(w, ctx, Some(name), Nested(sub))
    decreases Remaining(w, ctx), 0, 0
  {
    VisitingShrinks(w, ctx.visited, PersonalKey(vm.id));
    RunForwardValid(w, vm.graph.value, PersonalContext(ctx, vm), OfPersonalModel(name, PersonalKey(vm.id)));
  }

  lemma {:induction false} EnterOrg(w: World, name: string, ctx: Context, vm: VirtualModel)
    requires CheckAccess(w, ctx, name).None? && vm.graph.Some?
    requires OrgKey(vm.id) in OrgKeys(w) && OrgKey(vm.id) !in ctx.visited
    requires OrgModel(w, ctx, name) == Some(vm)
    ensures var sub := RunForward(w, vm.graph.value, OrgContext(ctx, vm, vm.graph.value),
                                  OfOrgModel(name, OrgKey(vm.id)));
            ValidResolution(w, ctx, Some(name), Nested(sub))
    decreases Remaining(w, ctx), 0, 0
  {
    VisitingShrinks(w, ctx.visited, OrgKey(vm.id));
    RunForwardValid(w, vm.graph.value, OrgContext(ctx, vm, vm.graph.value), OfOrgModel(name, OrgKey(vm.id)));
  }

  lemma {:induction false} ResolveByNameValid(w: World, name: string, ctx: Context)
    requires name != ""
    ensures ValidResolution(w, ctx, Some(name), ResolveByName(w, name, ctx))
    decreases Remaining(w, ctx), 1, 0
  {
    if CheckAccess(w, ctx, name).None? && ParseName(ctx, name).Some? {
      var n := ParseName(ctx, name).value;
      if n.Personal() && ctx.personalStore && ctx.userId != "" && n.local in w.personalModels {
        var vm := w.personalModels[n.local];
        if PersonalKey(vm.id) !in ctx.visited && vm.graph.Some? { EnterPersonal(w, name, ctx, vm); }
      } else if w.orgStore && !n.Personal() && (n.org == "" || n.org == ctx.orgSlug || ctx.orgSlug == "")
                && n.local in w.orgModels {
        var vm := w.orgModels[n.local];
        if OrgKey(vm.id) !in ctx.visited && vm.graph.Some? { EnterOrg(w, name, ctx, vm); }
      } else {
        ModelNames.OrgLevelText(n);
      }
    }
  }

  // ---- Taking a valid tree apart ---------------------------------------

  /** The last visit of a valid list, and what came before it. */
  lemma LastVisit(w: World, g: Graph, ctx: Context, visits: seq<Visit>) returns (init: seq<Visit>, v: Visit)
    requires ValidVisits(w, g, ctx, visits) && visits != []
    ensures init == visits[..|visits| - 1] && v == visits[|visits| - 1] && visits == init + [v]
    ensures ValidVisits(w, g, ctx, init) && AllPassed(init)
    ensures v.before == After(g, ctx, init).messages
    ensures v.inputs == ResolveInputs(After(g, ctx, init).values, g.edges, v.node.id)
    ensures NodeById(g.nodes, v.node.id) == Some(v.node) && w.registered(v.node.kind)
    ensures ValidStep(w, v.node, v.inputs, ctx.(messages := v.before), v.step)
    ensures v.step.result.Ok? ==> After(g, ctx, visits) == Advance(After(g, ctx, init), v, v.step.result.value)
  {
    init, v := visits[..|visits| - 1], visits[|visits| - 1];
  }

  lemma NestedRun(w: World, node: Node, inputs: Ports, ctx: Context, s: Step) returns (sub: Run)
    requires ValidStep(w, node, inputs, ctx, s) && s.nested.Some?
    ensures s.nested == Some(sub) && ValidRun(w, sub) && s == Nested(sub) && node.kind.Model?
    ensures FrameFor(Asked(node, inputs, ctx), sub.frame) && Descent(w, ctx, sub.frame, sub.graph, sub.ctx)
    ensures (sub.ctx.body, sub.ctx.bodyMessages) == NodeBody(w, ctx, inputs)
    ensures s.result.Ok? <==> sub.result.Ok?
  {
    sub := s.nested.value;
  }

  lemma DirectStep(w: World, node: Node, inputs: Ports, ctx: Context, s: Step)
    requires ValidStep(w, node, inputs, ctx, s) && s.nested.None?
    ensures s.result.Ok? ==> s.result.value.nested == []
    ensures forall name :: name in s.resolved ==> CheckAccess(w, ctx, name).None?
  {
  }

  lemma {:induction false} AfterKeepsVisits(w: World, g: Graph, ctx: Context, visits: seq<Visit>)
    requires ValidVisits(w, g, ctx, visits)
    requires visits != [] ==> visits[|visits| - 1].step.result.Ok?
    ensures After(g, ctx, visits).visits == visits
  {
    if visits != [] {
      var init, v := LastVisit(w, g, ctx, visits);
      assert init != [] ==> init[|init| - 1] in init;
      AfterKeepsVisits(w, g, ctx, init);
    }
  }
}
