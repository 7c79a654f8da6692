/** What a run hands over, read off what the executors it called answered
    (internal/pipeline/engine.go:83-157, model_executor.go:41-47, 204-216). */
module Answers {
  import opened Prelude
  import opened Graphs
  import opened Engine
  import opened Runs
  import opened Nesting
  import Policies
  import ModelNames

  /** What the executor of a node the engine does not define answered. */
  function Told(w: World, ctx: Context, v: Visit): Option<LeafResult> {
    if !IsLeaf(v.node.kind) then None
    else
      match w.leaf(v.node, v.inputs, ctx.(messages := v.before))
      case Err(_) => None
      case Ok(a) => Some(a)
  }

  // ---- The client, its decorators and the tools ------------------------

  function DecoratorTold(w: World, ctx: Context, v: Visit): Option<string> {
    if Told(w, ctx, v).Some? then Told(w, ctx, v).value.decorator else None
  }

  /** client is inner in the decorators answered, the last one outermost. */
  ghost predicate Wraps(w: World, ctx: Context, visits: seq<Visit>, client: Client, inner: Client)
    decreases |visits|
  {
    if visits == [] then client == inner
    else
      var init, v := visits[..|visits| - 1], visits[|visits| - 1];
      match DecoratorTold(w, ctx, v)
      case None => Wraps(w, ctx, init, client, inner)
      case Some(d) => client.Decorated? && client.wrapper == d && Wraps(w, ctx, init, client.inner, inner)
  }

  /** The tools answered, in the order of the visits. */
  function ToolsTold(w: World, ctx: Context, visits: seq<Visit>): seq<string> {
    if visits == [] then []
    else
      ToolsTold(w, ctx, visits[..|visits| - 1]) +
      (if Told(w, ctx, visits[|visits| - 1]).Some? then Told(w, ctx, visits[|visits| - 1]).value.tools else [])
  }

  /** The name fed to a fallback node, then those it is configured with. */
  function CandidateNames(node: Node, inputs: Ports): seq<string> {
    (if ModelNamePort in inputs && inputs[ModelNamePort].Text? && inputs[ModelNamePort].s != ""
     then [inputs[ModelNamePort].s] else []) +
    (if node.data.FallbackConfig? then NonEmpty(node.data.models) else [])
  }

  /** A fallback client over the candidates, in the context of its node; told as
      the model its first candidate resolves to, which the request may reach. */
  ghost predicate ResolvesFallback(w: World, ctx: Context, v: Visit, r: Resolution) {
    var names := CandidateNames(v.node, v.inputs);
    && names != [] && r.client == FallbackClient(names, ctx) && v.step.resolved == [names[0]]
    && CheckAccess(w, ctx, names[0]).None?
    && var primary := Primary(w, ctx, names[0]);
       primary.Ok? && r.model == primary.value.model && r.modelId == primary.value.modelId
  }

  /** The real model of a candidate; a name that cannot be read goes as it is. */
  function Primary(w: World, ctx: Context, name: string): Result<Resolution, Fault> {
    if ParseName(ctx, name).None? then w.resolveReal(name) else RealModel(w, ctx, name)
  }

  /** What the visit resolved: the model its nested run ended on, the real model
      asked for, the candidates of a fallback, or what the executor answered. */
  ghost predicate Resolved(w: World, ctx: Context, v: Visit, r: Resolution) {
    match v.step.nested
    case Some(sub) => sub.result.Ok? && r == ResolutionOf(sub.result.value)
    case None =>
      var c := ctx.(messages := v.before);
      match v.node.kind
      case Model => ResolvesReal(w, c, Asked(v.node, v.inputs, c), v.step.resolved, r)
      case ModelFallback => ResolvesFallback(w, c, v, r)
      case _ => Told(w, ctx, v).Some? && Told(w, ctx, v).value.client == Some(r)
  }

  function ResolutionOf(e: ForwardExecution): Resolution {
    Resolution(e.client, e.model, e.modelId)
  }

  // ---- Failures and rejections -----------------------------------------

  /** The engine takes the executors at their word: a leaf's failure, rejection,
      outputs and client are those answered; a block node rejects on yes, with its
      own message if it has one, and passes on no; a fallback node fails for want
      of candidates, of access or of its first candidate. */
  ghost predicate AtItsWord(w: World, ctx: Context, v: Visit) {
    var c := ctx.(messages := v.before);
    match v.node.kind
    case Model => true
    case Block => BlockAtItsWord(v.node, v.inputs, v.step.result)
    case ModelFallback => v.step.result.Err? ==> FallbackFails(w, c, v, v.step.result.error)
    case _ =>
      match w.leaf(v.node, v.inputs, c)
      case Err(f) => v.step.result == Err(f)
      case Ok(a) =>
        && v.step.result.Ok?
        && var r := v.step.result.value;
           r.outputs == a.outputs && r.rejected == a.rejected && r.client == a.client
  }

  ghost predicate BlockAtItsWord(n: Node, inputs: Ports, result: Result<ForwardResult, Fault>) {
    if n.data == Malformed then result == Err(BadNodeData(n.id))
    else if SaysNo(inputs) then result.Ok? && result.value.rejected == None
    else if SaysYes(inputs) then
      && result.Ok?
      && result.value.rejected ==
         Some(if n.data.BlockConfig? && |n.data.message| > 0 then n.data.message else BLOCK_MESSAGE)
    else result == Err(BadCondition(n.id))
  }

  ghost predicate FallbackFails(w: World, ctx: Context, v: Visit, f: Fault) {
    var names := CandidateNames(v.node, v.inputs);
    if v.node.data == Malformed then f == BadNodeData(v.node.id)
    else if names == [] then f == NoCandidate(v.node.id)
    else if CheckAccess(w, ctx, names[0]).Some? then CheckAccess(w, ctx, names[0]) == Some(f)
    else Primary(w, ctx, names[0]) == Err(f)
  }

  lemma FallbackAtItsWord(w: World, ctx: Context, v: Visit)
    requires v.node.kind.ModelFallback? && v.step == FallbackForward(w, v.node, v.inputs, ctx.(messages := v.before))
    ensures AtItsWord(w, ctx, v)
  {
    CandidatesAre(v.node, v.inputs);
    var names, c := CandidateNames(v.node, v.inputs), ctx.(messages := v.before);
    if names != [] && ParseName(c, names[0]).Some? { ModelNames.OrgLevelText(ParseName(c, names[0]).value); }
  }

  lemma VisitAtItsWord(w: World, ctx: Context, v: Visit)
    requires ValidStep(w, v.node, v.inputs, ctx.(messages := v.before), v.step)
    ensures AtItsWord(w, ctx, v)
  {
    if v.step.nested.None? && v.node.kind.ModelFallback? { FallbackAtItsWord(w, ctx, v); }
  }

  // ---- The trace and the messages --------------------------------------

  /** What a node leaves for its backward pass. */
  function EntryTold(w: World, ctx: Context, v: Visit): ExecutedNode {
    match Told(w, ctx, v)
    case None => ExecutedNode(v.node, "", "", false)
    case Some(a) => ExecutedNode(v.node, a.state, a.pluginContext, a.noRewrite)
  }

  /** The nodes of the whole run, those of a nested graph before the node that
      ran it. */
  function TraceTold(w: World, ctx: Context, visits: seq<Visit>): seq<ExecutedNode>
    decreases visits
  {
    if visits == [] then []
    else
      var init, v := visits[..|visits| - 1], visits[|visits| - 1];
      TraceTold(w, ctx, init) +
      (if v.step.nested.Some? then TraceTold(w, v.step.nested.value.ctx, v.step.nested.value.visits) else []) +
      [EntryTold(w, ctx, v)]
  }

  function RewriteTold(w: World, ctx: Context, v: Visit): seq<string> {
    match Told(w, ctx, v)
    case None => []
    case Some(a) =>
      if MessagesPort in a.outputs && a.outputs[MessagesPort].Text? && a.outputs[MessagesPort].s != ""
      then [a.outputs[MessagesPort].s] else []
  }

  /** The messages executors answered, nested runs included, in order. */
  function RewritesTold(w: World, ctx: Context, visits: seq<Visit>): seq<string>
    decreases visits
  {
    if visits == [] then []
    else
      var init, v := visits[..|visits| - 1], visits[|visits| - 1];
      RewritesTold(w, ctx, init) +
      (if v.step.nested.Some? then RewritesTold(w, v.step.nested.value.ctx, v.step.nested.value.visits)
       else RewriteTold(w, ctx, v))
  }

  // ---- The body of a nested run ----------------------------------------

  /** A nested run starts from the body fed to its node, or its parent's. */
  ghost predicate BodyEnters(ctx: Context, v: Visit, sub: Run) {
    sub.ctx.body == if RequestFed(v.inputs) != "" then RequestFed(v.inputs) else ctx.body
  }

  // ---- What every run hands over ---------------------------------------

  ghost predicate Delivered(w: World, ctx: Context, visits: seq<Visit>, exec: ForwardExecution) {
    && visits != []
    && var v := visits[|visits| - 1];
    && v.step.result.Ok? && v.step.result.value.client.Some?
    && var r := v.step.result.value.client.value;
    && Resolved(w, ctx, v, r)
    && Wraps(w, ctx, visits, exec.client, r.client) && exec.model == r.model && exec.modelId == r.modelId
    && exec.outcome == (if v.node.kind.ModelFallback? then Some(r.client) else None)
    && exec.tools == ToolsTold(w, ctx, visits)
    && exec.executed == TraceTold(w, ctx, visits)
    && exec.messages == LastOr(RewritesTold(w, ctx, visits), ctx.messages)
  }

  /** At every depth, what a run hands over is what its executors answered. */
  ghost predicate HandsOver(w: World, run: Run)
    decreases run
  {
    && (run.result.Ok? ==> Delivered(w, run.ctx, run.visits, run.result.value))
    && (forall v :: v in run.visits ==> AtItsWord(w, run.ctx, v))
    && (forall v :: v in run.visits && v.step.nested.Some? ==>
          BodyEnters(run.ctx, v, v.step.nested.value) && HandsOver(w, v.step.nested.value))
  }

  // ---- Proofs ----------------------------------------------------------

  /** A step that went well, as far as the answers of a run go. */
  ghost predicate StepTold(w: World, ctx: Context, v: Visit) {
    v.step.result.Ok? ==>
      var r := v.step.result.value;
      && r.decorator == DecoratorTold(w, ctx, v)
      && r.tools == (if Told(w, ctx, v).Some? then Told(w, ctx, v).value.tools else [])
      && ExecutedNode(v.node, r.state, r.pluginContext, r.noRewrite) == EntryTold(w, ctx, v)
      && (v.step.nested.None? ==>
            RewriteTold(w, ctx, v) ==
            if TextPort(r.outputs, MessagesPort) != "" then [TextPort(r.outputs, MessagesPort)] else [])
      && (r.client.Some? ==>
            && Resolved(w, ctx, v, r.client.value)
            && r.outcome == (if v.node.kind.ModelFallback? then Some(r.client.value.client) else None))
  }

  lemma CandidatesAre(node: Node, inputs: Ports)
    ensures Candidates(node, inputs) == CandidateNames(node, inputs)
  {
    var s := TextPort(inputs, ModelNamePort);
    NonEmptySplit([s], if node.data.FallbackConfig? then node.data.models else []);
  }

  /** NonEmpty keeps the names that are not empty, in order. */
  lemma {:induction false} NonEmptySplit(a: seq<string>, b: seq<string>)
    ensures NonEmpty(a + b) == NonEmpty(a) + NonEmpty(b)
    ensures forall x :: NonEmpty([x]) == if x == "" then [] else [x]
  {
    forall x ensures NonEmpty([x]) == if x == "" then [] else [x] {
      assert [x][..0] == [];
    }
    if b == [] {
      assert a + b == a;
    } else {
      var c := b[..|b| - 1];
      assert (a + b)[..|a + b| - 1] == a + c;
      NonEmptySplit(a, c);
    }
  }

  lemma FallbackTold(w: World, ctx: Context, v: Visit)
    requires v.node.kind.ModelFallback? && v.step.nested.None?
    requires v.step == FallbackForward(w, v.node, v.inputs, ctx.(messages := v.before))
    ensures StepTold(w, ctx, v)
  {
    CandidatesAre(v.node, v.inputs);
    var names, c := CandidateNames(v.node, v.inputs), ctx.(messages := v.before);
    if names != [] && ParseName(c, names[0]).Some? { ModelNames.OrgLevelText(ParseName(c, names[0]).value); }
  }

  lemma VisitTold(w: World, ctx: Context, v: Visit)
    requires ValidStep(w, v.node, v.inputs, ctx.(messages := v.before), v.step)
    ensures StepTold(w, ctx, v)
  {
    if v.step.nested.Some? {
      var sub := NestedRun(w, v.node, v.inputs, ctx.(messages := v.before), v.step);
      NestedTold(w, ctx, v, sub);
    } else if v.node.kind.ModelFallback? {
      FallbackTold(w, ctx, v);
    } else if IsLeaf(v.node.kind) {
      LeafTold(w, ctx, v);
    }
  }

  lemma NestedTold(w: World, ctx: Context, v: Visit, sub: Run)
    requires v.node.kind.Model? && v.step == Nested(sub)
    ensures StepTold(w, ctx, v)
  {
  }

  lemma LeafTold(w: World, ctx: Context, v: Visit)
    requires IsLeaf(v.node.kind) && v.step == LeafForward(w, v.node, v.inputs, ctx.(messages := v.before))
    ensures StepTold(w, ctx, v)
  {
  }

  lemma LastTold(w: World, g: Graph, ctx: Context, visits: seq<Visit>) returns (init: seq<Visit>, v: Visit)
    requires ValidVisits(w, g, ctx, visits) && visits != [] && visits[|visits| - 1].step.result.Ok?
    ensures init == visits[..|visits| - 1] && v == visits[|visits| - 1]
    ensures ValidVisits(w, g, ctx, init) && (init != [] ==> init[|init| - 1].step.result.Ok?)
    ensures StepTold(w, ctx, v) && ValidStep(w, v.node, v.inputs, ctx.(messages := v.before), v.step)
    ensures After(g, ctx, visits) == Advance(After(g, ctx, init), v, v.step.result.value)
  {
    init, v := LastVisit(w, g, ctx, visits);
    assert init != [] ==> init[|init| - 1] in init;
    VisitTold(w, ctx, v);
  }

  lemma {:induction false} ToolsAreTold(w: World, g: Graph, ctx: Context, visits: seq<Visit>)
    requires ValidVisits(w, g, ctx, visits) && (visits != [] ==> visits[|visits| - 1].step.result.Ok?)
    ensures After(g, ctx, visits).tools == ToolsTold(w, ctx, visits)
  {
    if visits != [] {
      var init, v := LastTold(w, g, ctx, visits);
      ToolsAreTold(w, g, ctx, init);
    }
  }

  lemma {:induction false} DecoratorsAreTold(w: World, g: Graph, ctx: Context, visits: seq<Visit>, inner: Client)
    requires ValidVisits(w, g, ctx, visits) && (visits != [] ==> visits[|visits| - 1].step.result.Ok?)
    ensures Wraps(w, ctx, visits, Decorate(inner, After(g, ctx, visits).decorators), inner)
  {
    if visits != [] {
      var init, v := LastTold(w, g, ctx, visits);
      DecoratorsAreTold(w, g, ctx, init, inner);
      OneDecoratorMore(After(g, ctx, init), v, inner);
    }
  }

  lemma OneDecoratorMore(p: Progress, v: Visit, inner: Client)
    requires v.step.result.Ok?
    ensures var r := v.step.result.value;
            Decorate(inner, Advance(p, v, r).decorators) ==
            if r.decorator.Some? then Decorated(Decorate(inner, p.decorators), r.decorator.value)
            else Decorate(inner, p.decorators)
  {
    var r := v.step.result.value;
    if r.decorator.Some? {
      var after := p.decorators + [r.decorator.value];
      assert after[..|after| - 1] == p.decorators;
    }
  }

  lemma {:induction false} TraceIsTold(w: World, g: Graph, ctx: Context, visits: seq<Visit>)
    requires ValidVisits(w, g, ctx, visits) && (visits != [] ==> visits[|visits| - 1].step.result.Ok?)
    ensures PostOrderOf(visits) == TraceTold(w, ctx, visits)
    ensures RewritesOf(visits) == RewritesTold(w, ctx, visits)
    decreases visits
  {
    if visits != [] {
      var init, v := LastTold(w, g, ctx, visits);
      TraceIsTold(w, g, ctx, init);
      if v.step.nested.Some? {
        var sub := NestedRun(w, v.node, v.inputs, ctx.(messages := v.before), v.step);
        FinishedOk(w, sub);
        TraceIsTold(w, sub.graph, sub.ctx, sub.visits);
      }
    }
  }

  lemma FinishedOk(w: World, run: Run)
    requires ValidRun(w, run) && run.result.Ok?
    ensures run.visits != [] && run.visits[|run.visits| - 1].step.result.Ok?
    ensures ValidVisits(w, run.graph, run.ctx, run.visits)
  {
  }

  lemma RunDelivers(w: World, run: Run)
    requires ValidRun(w, run) && run.result.Ok?
    ensures Delivered(w, run.ctx, run.visits, run.result.value)
  {
    FinishedOk(w, run);
    ToolsAreTold(w, run.graph, run.ctx, run.visits);
    TraceIsTold(w, run.graph, run.ctx, run.visits);
    RunTraced(w, run);
    LastDelivers(w, run);
  }

  /** The client handed over. */
  lemma LastDelivers(w: World, run: Run)
    requires ValidRun(w, run) && run.result.Ok? && run.visits != []
    ensures var v, exec := run.visits[|run.visits| - 1], run.result.value;
            && v.step.result.Ok? && v.step.result.value.client.Some?
            && var r := v.step.result.value.client.value;
            && Resolved(w, run.ctx, v, r) && Wraps(w, run.ctx, run.visits, exec.client, r.client)
            && exec.model == r.model && exec.modelId == r.modelId
            && exec.outcome == (if v.node.kind.ModelFallback? then Some(r.client) else None)
            && exec.tools == After(run.graph, run.ctx, run.visits).tools
  {
    FinishedOk(w, run);
    var init, v := LastTold(w, run.graph, run.ctx, run.visits);
    DecoratorsAreTold(w, run.graph, run.ctx, run.visits, v.step.result.value.client.value.client);
  }

  lemma {:induction false} RunHandsOver(w: World, run: Run)
    requires ValidRun(w, run)
    ensures HandsOver(w, run)
    decreases run
  {
    if run.result.Ok? { RunDelivers(w, run); }
    forall v | v in run.visits ensures AtItsWord(w, run.ctx, v) { WordOf(w, run, v); }
    forall v | v in run.visits && v.step.nested.Some?
      ensures BodyEnters(run.ctx, v, v.step.nested.value) && HandsOver(w, v.step.nested.value)
    {
      var sub := NestedOf(w, run, v);
      RunHandsOver(w, sub);
    }
  }

  lemma WordOf(w: World, run: Run, v: Visit)
    requires ValidRun(w, run) && v in run.visits
    ensures AtItsWord(w, run.ctx, v)
  {
    var k :| 0 <= k < |run.visits| && run.visits[k] == v;
    Policies.VisitAt(w, run.graph, run.ctx, run.visits, k);
    VisitAtItsWord(w, run.ctx, v);
  }

  lemma NestedOf(w: World, run: Run, v: Visit) returns (sub: Run)
    requires ValidRun(w, run) && v in run.visits && v.step.nested.Some?
    ensures v.step.nested == Some(sub) && ValidRun(w, sub) && BodyEnters(run.ctx, v, sub)
  {
    var k :| 0 <= k < |run.visits| && run.visits[k] == v;
    Policies.VisitAt(w, run.graph, run.ctx, run.visits, k);
    sub := NestedRun(w, v.node, v.inputs, run.ctx.(messages := v.before), v.step);
  }

  /** Whatever the graphs and the stores: at every depth, a run that succeeds
      hands over the client its last node resolved, wrapped in the decorators its
      nodes answered, the last one outermost; the tools they answered; the nodes
      of the whole run with what their executors kept; and the last messages any
      executor answered. A nested run works on the body fed to its node. */
  lemma ForwardHandsOver(w: World, g: Graph, ctx: Context)
    ensures HandsOver(w, RunForward(w, g, ctx, Root))
  {
    RunForwardValid(w, g, ctx, Root);
    RunHandsOver(w, RunForward(w, g, ctx, Root));
  }
}
