/** Nested runs: how many graphs they enter, what the flattened trace and the
    final messages are, and which middlewares wrap the request. */
module Nesting {
  import opened Prelude
  import opened Graphs
  import opened Engine
  import opened Runs

  // ---- Readings of the tree --------------------------------------------

  function GraphsEntered(run: Run): nat {
    1 + GraphsIn(run.visits)
  }

  function GraphsIn(visits: seq<Visit>): nat {
    if visits == [] then 0
    else
      var v := visits[|visits| - 1];
      GraphsIn(visits[..|visits| - 1]) + (if v.step.nested.Some? then GraphsEntered(v.step.nested.value) else 0)
  }

  /** Names of the middlewares entered, outermost first. */
  function MiddlewaresOf(run: Run): seq<string> {
    (if run.frame.OfMiddleware? then [run.frame.name] else []) + MiddlewaresIn(run.visits)
  }

  function MiddlewaresIn(visits: seq<Visit>): seq<string> {
    if visits == [] then []
    else
      var v := visits[|visits| - 1];
      MiddlewaresIn(visits[..|visits| - 1]) +
      (if v.step.nested.Some? then MiddlewaresOf(v.step.nested.value) else [])
  }

  /** Keys of the virtual models entered, outermost first. */
  function ModelsOf(run: Run): seq<Key> {
    (if run.frame.OfOrgModel? || run.frame.OfPersonalModel? then [run.frame.key] else []) + ModelsIn(run.visits)
  }

  function ModelsIn(visits: seq<Visit>): seq<Key> {
    if visits == [] then []
    else
      var v := visits[|visits| - 1];
      ModelsIn(visits[..|visits| - 1]) + (if v.step.nested.Some? then ModelsOf(v.step.nested.value) else [])
  }

  /** Executed nodes in post-order: a nested graph's before the node that ran
      it. */
  function PostOrder(run: Run): seq<ExecutedNode> {
    PostOrderOf(run.visits)
  }

  function PostOrderOf(visits: seq<Visit>): seq<ExecutedNode> {
    if visits == [] then []
    else
      var v := visits[|visits| - 1];
      PostOrderOf(visits[..|visits| - 1]) +
      (if v.step.nested.Some? then PostOrderOf(v.step.nested.value.visits) else []) +
      (if v.step.result.Ok? then
         var r := v.step.result.value;
         [ExecutedNode(v.node, r.state, r.pluginContext, r.noRewrite)]
       else [])
  }

  /** The message rewrites of the nodes themselves, in execution order. A node
      that ran a nested graph only repeats what that graph left. */
  function Rewrites(run: Run): seq<string> {
    RewritesOf(run.visits)
  }

  function RewritesOf(visits: seq<Visit>): seq<string> {
    if visits == [] then []
    else
      var v := visits[|visits| - 1];
      RewritesOf(visits[..|visits| - 1]) +
      (if v.step.nested.Some? then RewritesOf(v.step.nested.value.visits)
       else if v.step.result.Ok? && TextPort(v.step.result.value.outputs, MessagesPort) != ""
       then [TextPort(v.step.result.value.outputs, MessagesPort)]
       else [])
  }

  function LastOr(s: seq<string>, otherwise: string): string {
    if s == [] then otherwise else s[|s| - 1]
  }

  // ---- Bounds ----------------------------------------------------------

  function Names(pending: seq<Middleware>): seq<string> {
    seq(|pending|, i requires 0 <= i < |pending| => pending[i].name)
  }

  ghost predicate Flat(visits: seq<Visit>) {
    forall v :: v in visits ==> v.step.nested.None?
  }

  lemma {:induction false} FlatEntersNothing(visits: seq<Visit>)
    requires Flat(visits)
    ensures GraphsIn(visits) == 0 && MiddlewaresIn(visits) == [] && ModelsIn(visits) == []
  {
    if visits != [] { FlatEntersNothing(visits[..|visits| - 1]); }
  }

  /** What the visits of a run entered, against what its context allowed. */
  ghost predicate Bounded(w: World, ctx: Context, visits: seq<Visit>) {
    && GraphsIn(visits) <= Remaining(w, ctx)
    && MiddlewaresIn(visits) <= Names(ctx.pending)
    && Distinct(ModelsIn(visits))
    && (forall key :: key in ModelsIn(visits) ==> key !in ctx.visited)
  }

  lemma AppendVisit(visits: seq<Visit>, v: Visit)
    requires Flat(visits)
    ensures v.step.nested.None? ==> Flat(visits + [v])
    ensures v.step.nested.Some? ==>
              && GraphsIn(visits + [v]) == GraphsEntered(v.step.nested.value)
              && MiddlewaresIn(visits + [v]) == MiddlewaresOf(v.step.nested.value)
              && ModelsIn(visits + [v]) == ModelsOf(v.step.nested.value)
  {
    FlatEntersNothing(visits);
    assert (visits + [v])[..|visits|] == visits;
  }

  lemma DescentShrinks(w: World, parent: Context, frame: Frame, g: Graph, c: Context)
    requires Descent(w, parent, frame, g, c)
    ensures Remaining(w, c) < Remaining(w, parent)
  {
    if frame.OfOrgModel? || frame.OfPersonalModel? { VisitingShrinks(w, parent.visited, frame.key); }
  }

  lemma NestedMiddlewares(w: World, parent: Context, run: Run)
    requires Descent(w, parent, run.frame, run.graph, run.ctx) && MiddlewaresIn(run.visits) <= Names(run.ctx.pending)
    ensures MiddlewaresOf(run) <= Names(parent.pending)
  {
    if run.frame.OfMiddleware? {
      assert Names(parent.pending) == [run.frame.name] + Names(run.ctx.pending);
    }
  }

  lemma NestedModels(w: World, parent: Context, run: Run)
    requires Descent(w, parent, run.frame, run.graph, run.ctx) && Distinct(ModelsIn(run.visits))
    requires forall key :: key in ModelsIn(run.visits) ==> key !in run.ctx.visited
    ensures Distinct(ModelsOf(run))
    ensures forall key :: key in ModelsOf(run) ==> key !in parent.visited
  {
  }

  /** A visit the loop went past ran no graph: a nested run that succeeds
      resolves a client. */
  lemma {:induction false} PassedIsFlat(w: World, g: Graph, ctx: Context, visits: seq<Visit>)
    requires ValidVisits(w, g, ctx, visits) && AllPassed(visits)
    ensures Flat(visits)
  {
    if visits != [] {
      var init, v := visits[..|visits| - 1], visits[|visits| - 1];
      PassedIsFlat(w, g, ctx, init);
      assert v in visits;
      assert forall u :: u in visits ==> u in init || u == v;
    }
  }

  lemma {:induction false} RunBound(w: World, run: Run)
    requires ValidRun(w, run)
    ensures Bounded(w, run.ctx, run.visits)
    decreases run
  {
    if run.visits == [] {
      FlatEntersNothing(run.visits);
    } else {
      var init, v := LastVisit(w, run.graph, run.ctx, run.visits);
      PassedIsFlat(w, run.graph, run.ctx, init);
      AppendVisit(init, v);
      if v.step.nested.Some? {
        var parent := run.ctx.(messages := v.before);
        var sub := NestedRun(w, v.node, v.inputs, parent, v.step);
        RunBound(w, sub);
        DescentShrinks(w, parent, sub.frame, sub.graph, sub.ctx);
        NestedMiddlewares(w, parent, sub);
        NestedModels(w, parent, sub);
      } else {
        FlatEntersNothing(run.visits);
      }
    }
  }

  /** Any run terminates, mutual references included, after entering at most
      one graph per stored model and pending middleware, its own aside; no
      model is entered twice, and the middlewares entered are the first ones
      pending, in order. */
  lemma RunIsBounded(w: World, g: Graph, ctx: Context)
    ensures var run := RunForward(w, g, ctx, Root);
            && GraphsEntered(run) <= |w.orgModels| + |w.personalModels| + |ctx.pending| + 1
            && Distinct(ModelsOf(run)) && (forall key :: key in ModelsOf(run) ==> key !in ctx.visited)
            && MiddlewaresOf(run) <= Names(ctx.pending)
  {
    RunForwardValid(w, g, ctx, Root);
    RunBound(w, RunForward(w, g, ctx, Root));
    KeysBounded(w);
    SubsetCardinality(AllKeys(w) - ctx.visited, AllKeys(w));
  }

  lemma KeysBounded(w: World)
    ensures |AllKeys(w)| <= |w.orgModels| + |w.personalModels|
  {
    var f := name => if name in w.orgModels then OrgKey(w.orgModels[name].id) else OrgKey("");
    var h := name => if name in w.personalModels then PersonalKey(w.personalModels[name].id) else OrgKey("");
    ImageBounded(w.orgModels.Keys, f);
    ImageBounded(w.personalModels.Keys, h);
    assert OrgKeys(w) == set name | name in w.orgModels.Keys :: f(name);
    assert PersonalKeys(w) == set name | name in w.personalModels.Keys :: h(name);
    assert |AllKeys(w)| <= |OrgKeys(w)| + |PersonalKeys(w)|;
  }

  lemma {:induction false} ImageBounded(s: set<string>, f: string -> Key)
    ensures |set x | x in s :: f(x)| <= |s|
  {
    var image := set x | x in s :: f(x);
    if s != {} {
      var a :| a in s;
      var rest := s - {a};
      var smaller := set x | x in rest :: f(x);
      ImageBounded(rest, f);
      assert image == smaller + {f(a)};
    } else {
      assert image == {};
    }
  }

  // ---- The flattened trace ---------------------------------------------

  ghost predicate Traced(ctx: Context, p: Progress) {
    && p.executed == PostOrderOf(p.visits)
    && p.messages == LastOr(RewritesOf(p.visits), ctx.messages)
  }

  lemma {:induction false} RewritesNonEmpty(visits: seq<Visit>)
    ensures forall m :: m in RewritesOf(visits) ==> m != ""
  {
    if visits != [] {
      var v := visits[|visits| - 1];
      RewritesNonEmpty(visits[..|visits| - 1]);
      if v.step.nested.Some? { RewritesNonEmpty(v.step.nested.value.visits); }
    }
  }

  lemma TracedStep(ctx: Context, p: Progress, v: Visit)
    requires Traced(ctx, p) && v.step.result.Ok? && v.step.nested.None? && v.step.result.value.nested == []
    ensures Traced(ctx, Advance(p, v, v.step.result.value))
  {
    assert (p.visits + [v])[..|p.visits|] == p.visits;
  }

  lemma TracedNested(ctx: Context, p: Progress, v: Visit, sub: Run)
    requires Traced(ctx, p) && v.step == Nested(sub) && sub.result.Ok? && sub.ctx.messages == p.messages
    requires sub.result.value.executed == PostOrder(sub)
    requires sub.result.value.messages == LastOr(Rewrites(sub), sub.ctx.messages)
    ensures Traced(ctx, Advance(p, v, v.step.result.value))
  {
    assert (p.visits + [v])[..|p.visits|] == p.visits;
    assert RewritesOf(p.visits + [v]) == RewritesOf(p.visits) + Rewrites(sub);
    RewritesNonEmpty(sub.visits);
    assert Rewrites(sub) != [] ==> LastOr(Rewrites(sub), "") in Rewrites(sub);
    assert TextPort(v.step.result.value.outputs, MessagesPort) == sub.result.value.messages;
  }

  lemma {:induction false} VisitsTraced(w: World, g: Graph, ctx: Context, visits: seq<Visit>)
    requires ValidVisits(w, g, ctx, visits)
    requires visits != [] ==> visits[|visits| - 1].step.result.Ok?
    ensures Traced(ctx, After(g, ctx, visits))
    decreases visits
  {
    if visits != [] {
      var init, v := LastVisit(w, g, ctx, visits);
      assert init != [] ==> init[|init| - 1] in init;
      VisitsTraced(w, g, ctx, init);
      AfterKeepsVisits(w, g, ctx, init);
      if v.step.nested.Some? {
        var sub := NestedRun(w, v.node, v.inputs, ctx.(messages := v.before), v.step);
        RunTraced(w, sub);
        TracedNested(ctx, After(g, ctx, init), v, sub);
      } else {
        DirectStep(w, v.node, v.inputs, ctx.(messages := v.before), v.step);
        TracedStep(ctx, After(g, ctx, init), v);
      }
    }
  }

  lemma {:induction false} RunTraced(w: World, run: Run)
    requires ValidRun(w, run) && run.result.Ok?
    ensures run.result.value.executed == PostOrder(run)
    ensures run.result.value.messages == LastOr(Rewrites(run), run.ctx.messages)
    decreases run
  {
    VisitsTraced(w, run.graph, run.ctx, run.visits);
    AfterKeepsVisits(w, run.graph, run.ctx, run.visits);
  }

  /** The flat list a run leaves for the backward pass is the post-order trace
      of the whole nested run, and its messages are the last rewrite any node
      made at any depth, or those it started from. */
  lemma TraceIsPostOrder(w: World, g: Graph, ctx: Context)
    requires RunForward(w, g, ctx, Root).result.Ok?
    ensures var run := RunForward(w, g, ctx, Root);
            && run.result.value.executed == PostOrder(run)
            && run.result.value.messages == LastOr(Rewrites(run), ctx.messages)
  {
    RunForwardValid(w, g, ctx, Root);
    RunTraced(w, RunForward(w, g, ctx, Root));
  }

  /** The client that reports which model answered reaches the caller exactly
      when the graph itself ends on a fallback node: a nested run's is lost. */
  lemma OutcomeIsOwn(w: World, g: Graph, ctx: Context)
    requires RunForward(w, g, ctx, Root).result.Ok?
    ensures var run := RunForward(w, g, ctx, Root);
            && run.visits != []
            && (run.result.value.outcome.Some? <==> run.visits[|run.visits| - 1].node.kind.ModelFallback?)
  {
    RunForwardValid(w, g, ctx, Root);
    OutcomeOfRun(w, RunForward(w, g, ctx, Root));
  }

  lemma OutcomeOfRun(w: World, run: Run)
    requires ValidRun(w, run) && run.result.Ok?
    ensures run.visits != []
    ensures run.result.value.outcome.Some? <==> run.visits[|run.visits| - 1].node.kind.ModelFallback?
  {
    var init, v := LastVisit(w, run.graph, run.ctx, run.visits);
    OutcomeOfStep(w, v.node, v.inputs, run.ctx.(messages := v.before), v.step);
  }

  lemma OutcomeOfStep(w: World, node: Node, inputs: Ports, ctx: Context, s: Step)
    requires ValidStep(w, node, inputs, ctx, s) && s.result.Ok?
    ensures s.result.value.outcome.Some? <==> node.kind.ModelFallback?
  {
    if s.nested.Some? { var sub := NestedRun(w, node, inputs, ctx, s); }
  }
}
