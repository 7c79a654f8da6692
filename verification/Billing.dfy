/** Which model the backward pass is told of when a fallback node answered
    (internal/pipeline/model_executor.go:204-216, internal/pipeline/engine.go:207-219). */
module Billing {
  import opened Prelude
  import opened Graphs
  import opened Engine
  import opened Runs
  import opened Nesting
  import opened Passes
  import opened BackwardPass

  function LastOf(run: Run): Visit
    requires run.visits != []
  { run.visits[|run.visits| - 1] }

  /** The run that resolved the client of a run: itself, or the one its last node
      entered, and so on down. */
  function Innermost(run: Run): Run
    decreases run
  {
    if run.visits != [] && LastOf(run).step.nested.Some? then Innermost(LastOf(run).step.nested.value) else run
  }

  /** The client of a run is that of a fallback node, at whatever depth. */
  predicate EndsOnFallback(run: Run) {
    Innermost(run).visits != [] && LastOf(Innermost(run)).node.kind.ModelFallback?
  }

  /** The model of the first candidate of the fallback node a run ends on. */
  function PrimaryModel(w: World, run: Run): Option<string>
    requires EndsOnFallback(run)
  {
    var inner := Innermost(run);
    var v := LastOf(inner);
    var names := Candidates(v.node, v.inputs);
    if names == [] then None
    else
      match CheckedResolve(w, inner.ctx.(messages := v.before), names[0])
      case Ok(r) => Some(r.model)
      case Err(_) => None
  }

  /** The model of a run is the one its last node resolved. */
  lemma ModelOfLast(w: World, run: Run)
    requires ValidRun(w, run) && run.result.Ok?
    ensures run.visits != [] && LastOf(run).step.result.Ok? && LastOf(run).step.result.value.client.Some?
    ensures run.result.value.model == LastOf(run).step.result.value.client.value.model
  {
  }

  lemma PrimaryOfFallback(w: World, node: Node, inputs: Ports, ctx: Context, s: Step)
    requires node.kind.ModelFallback? && ValidStep(w, node, inputs, ctx, s) && s.result.Ok?
            && s.result.value.client.Some?
    ensures var names := Candidates(node, inputs);
            names != [] && CheckedResolve(w, ctx, names[0]).Ok?
            && CheckedResolve(w, ctx, names[0]).value.model == s.result.value.client.value.model
  {
  }

  lemma {:induction false} ModelIsPrimary(w: World, run: Run)
    requires ValidRun(w, run) && run.result.Ok? && EndsOnFallback(run)
    ensures PrimaryModel(w, run) == Some(run.result.value.model)
    decreases run
  {
    ModelOfLast(w, run);
    var init, v := LastVisit(w, run.graph, run.ctx, run.visits);
    if v.step.nested.Some? {
      var sub := NestedRun(w, v.node, v.inputs, run.ctx.(messages := v.before), v.step);
      assert Innermost(run) == Innermost(sub);
      ModelIsPrimary(w, sub);
    } else {
      PrimaryOfFallback(w, v.node, v.inputs, run.ctx.(messages := v.before), v.step);
    }
  }

  /** The model the backward pass is told of is the one that answered exactly
      when the fallback node is in the graph itself or its first candidate
      answered: of a nested node the pass is told of the first candidate. */
  lemma NestedFallbackBillsPrimary(w: World, g: Graph, ctx: Context, used: string)
    requires RunForward(w, g, ctx, Root).result.Ok? && EndsOnFallback(RunForward(w, g, ctx, Root)) && used != ""
    ensures var run := RunForward(w, g, ctx, Root);
            var exec := run.result.value;
            && run.visits != [] && PrimaryModel(w, run) == Some(exec.model)
            && (AnsweringModel(exec, Some(used)) == used <==>
                LastOf(run).step.nested.None? || PrimaryModel(w, run) == Some(used))
            && (LastOf(run).step.nested.Some? ==>
                  && exec.outcome.None?
                  && AnsweringModel(exec, Some(used)) == exec.model)
  {
    RunForwardValid(w, g, ctx, Root);
    var run := RunForward(w, g, ctx, Root);
    OutcomeOfRun(w, run);
    ModelIsPrimary(w, run);
    if LastOf(run).step.nested.Some? { NestedLosesOutcome(w, run); }
  }

  /** A nested run's report of who answered does not reach its parent. */
  lemma NestedLosesOutcome(w: World, run: Run)
    requires ValidRun(w, run) && run.result.Ok? && run.visits != [] && LastOf(run).step.nested.Some?
    ensures run.result.value.outcome.None?
  {
    OutcomeOfRun(w, run);
    var init, v := LastVisit(w, run.graph, run.ctx, run.visits);
    var sub := NestedRun(w, v.node, v.inputs, run.ctx.(messages := v.before), v.step);
  }

  // ---- A request that is billed to the wrong model ---------------------

  function FallbackLine(g: string, f: string, s: string, models: seq<string>): Graph {
    Line(g, Node(f, ModelFallback, FallbackConfig(models)), s)
  }

  function VirtualLine(g: string, m: string, s: string, name: string): Graph {
    Line(g, Node(m, Model, ModelConfig(name, false)), s)
  }

  /** The organization serves name as a virtual model with a fallback node, whose
      first candidate resolves. */
  ghost predicate ServesFallback(
    w: World, g: string, f: string, s: string, name: string, a: string, rest: seq<string>)
  {
    && LetsPass(w, Node(g, Generator, Absent)) && w.registered(Model) && w.registered(ModelFallback)
    && w.orgStore && name in w.orgModels && w.orgModels[name].graph == Some(FallbackLine(g, f, s, [a] + rest))
    && w.resolveReal(a).Ok?
  }

  lemma {:induction false} FirstCandidate(a: string, rest: seq<string>)
    requires a != ""
    ensures NonEmpty(["", a] + rest) != [] && NonEmpty(["", a] + rest)[0] == a
  {
    var names := ["", a] + rest;
    if rest == [] {
      assert names == ["", a] && names[..1] == [""] && [""][..0] == [];
      assert NonEmpty([""]) == [];
    } else {
      assert names[..|names| - 1] == ["", a] + rest[..|rest| - 1];
      FirstCandidate(a, rest[..|rest| - 1]);
    }
  }

  lemma FallbackAnswers(w: World, n: Node, inputs: Ports, ctx: Context, a: string, rest: seq<string>)
    requires n.kind.ModelFallback? && n.data == FallbackConfig([a] + rest) && ModelNamePort !in inputs
    requires a != "" && '/' !in a && w.resolveReal(a).Ok? && !ctx.checked
    ensures var s := NodeForward(w, n, inputs, ctx);
            && s.result.Ok? && s.result.value.rejected.None? && s.result.value.client.Some?
            && s.nested.None? && s.result.value.client.value.model == w.resolveReal(a).value.model
  {
    assert [TextPort(inputs, ModelNamePort)] + n.data.models == ["", a] + rest;
    FirstCandidate(a, rest);
    PlainNameParses(ctx, a);
  }

  lemma FallbackLinePasses(
    w: World, g: string, f: string, s: string, a: string, rest: seq<string>, ctx: Context, frame: Frame)
    requires g != f && g != s && f != s && a != "" && '/' !in a && w.resolveReal(a).Ok? && !ctx.checked
    requires LetsPass(w, Node(g, Generator, Absent)) && w.registered(ModelFallback)
    ensures var run := RunForward(w, FallbackLine(g, f, s, [a] + rest), ctx, frame);
            && run.result.Ok? && run.result.value.model == w.resolveReal(a).value.model
            && run.visits != [] && LastOf(run).node.kind.ModelFallback? && LastOf(run).step.nested.None?
  {
    var t := Node(f, ModelFallback, FallbackConfig([a] + rest));
    forall inputs, m | ModelNamePort !in inputs ensures AnswersOn(w, t, inputs, ctx, m) {
      FallbackAnswers(w, t, inputs, ctx.(messages := m), a, rest);
    }
    var p := LinePasses(w, g, t, s, ctx, frame);
    var v := VisitOf(w, Line(g, t, s), ctx, t, p);
    FallbackAnswers(w, t, v.inputs, ctx.(messages := p.messages), a, rest);
  }

  lemma VirtualAnswers(
    w: World, g: string, f: string, s: string, n: Node, inputs: Ports, ctx: Context, name: string, a: string,
    rest: seq<string>)
    requires n.kind.Model? && n.data == ModelConfig(name, false) && ModelNamePort !in inputs
    requires g != f && g != s && f != s && name != "" && '/' !in name && a != "" && '/' !in a
    requires ServesFallback(w, g, f, s, name, a, rest)
    requires !ctx.checked && !ctx.forcePassthrough && OrgKey(w.orgModels[name].id) !in ctx.visited
    ensures var st := NodeForward(w, n, inputs, ctx);
            && st.result.Ok? && st.result.value.rejected.None? && st.result.value.client.Some?
            && st.nested.Some? && st.nested.value.result.Ok?
                && st.nested.value.result.value.model == w.resolveReal(a).value.model
            && EndsOnFallback(st.nested.value)
            && st.result.value.client.value.model == w.resolveReal(a).value.model
  {
    var entering := NodeBody(w, ctx, inputs);
    var c := ctx.(body := entering.0, bodyMessages := entering.1);
    var vm := w.orgModels[name];
    PlainNameParses(c, name);
    var inner := OrgContext(c, vm, vm.graph.value);
    FallbackLinePasses(w, g, f, s, a, rest, inner, OfOrgModel(name, OrgKey(vm.id)));
    assert ModelNameOf(n, inputs) == name;
    assert NodeForward(w, n, inputs, ctx) == ModelForward(w, n, inputs, ctx) == ResolveByName(w, name, c);
    assert ResolveByName(w, name, c) == Nested(RunForward(w, vm.graph.value, inner, OfOrgModel(name, OrgKey(vm.id))));
  }

  /** In every world that serves such a virtual model, a request for it passes
      and whichever candidate answers, the backward pass is told of the first. */
  lemma FallbackIsMisbilled(
    w: World, g: string, m: string, f: string, s: string, name: string, a: string, rest: seq<string>, ctx: Context,
    used: string)
    requires g != m && m != s && g != f && g != s && f != s
    requires name != "" && '/' !in name && a != "" && '/' !in a && used != ""
    requires ServesFallback(w, g, f, s, name, a, rest)
    requires !ctx.checked && !ctx.forcePassthrough && OrgKey(w.orgModels[name].id) !in ctx.visited
    ensures var run := RunForward(w, VirtualLine(g, m, s, name), ctx, Root);
            && run.result.Ok? && EndsOnFallback(run)
            && AnsweringModel(run.result.value, Some(used)) == w.resolveReal(a).value.model
  {
    VirtualLinePasses(w, g, m, f, s, name, a, rest, ctx);
    NestedFallbackBillsPrimary(w, VirtualLine(g, m, s, name), ctx, used);
  }

  lemma VirtualLinePasses(
    w: World, g: string, m: string, f: string, s: string, name: string, a: string, rest: seq<string>, ctx: Context)
    requires g != m && m != s && g != f && g != s && f != s && name != "" && '/' !in name && a != "" && '/' !in a
    requires ServesFallback(w, g, f, s, name, a, rest)
    requires !ctx.checked && !ctx.forcePassthrough && OrgKey(w.orgModels[name].id) !in ctx.visited
    ensures var run := RunForward(w, VirtualLine(g, m, s, name), ctx, Root);
            && run.result.Ok? && run.visits != [] && LastOf(run).step.nested.Some? && EndsOnFallback(run)
            && run.result.value.model == w.resolveReal(a).value.model
  {
    var t := Node(m, Model, ModelConfig(name, false));
    forall inputs, text | ModelNamePort !in inputs ensures AnswersOn(w, t, inputs, ctx, text) {
      VirtualAnswers(w, g, f, s, t, inputs, ctx.(messages := text), name, a, rest);
    }
    var p := LinePasses(w, g, t, s, ctx, Root);
    var v := VisitOf(w, Line(g, t, s), ctx, t, p);
    VirtualAnswers(w, g, f, s, t, v.inputs, ctx.(messages := p.messages), name, a, rest);
    var run := RunForward(w, VirtualLine(g, m, s, name), ctx, Root);
    assert LastOf(run) == v;
    assert Innermost(run) == Innermost(v.step.nested.value);
  }

  /** There are such worlds: b answers, and the pass is told of a. */
  lemma SomeRequestIsMisbilled(
    g: string, m: string, f: string, s: string, name: string, a: string, b: string, ctx: Context)
    returns (w: World)
    requires g != m && m != s && g != f && g != s && f != s
    requires name != "" && '/' !in name && a != "" && '/' !in a && b != "" && a != b
    requires !ctx.checked && !ctx.forcePassthrough && OrgKey(name) !in ctx.visited
    ensures var run := RunForward(w, VirtualLine(g, m, s, name), ctx, Root);
            && run.result.Ok? && w.resolveReal(b).Ok? && w.resolveReal(b).value.model == b
            && AnsweringModel(run.result.value, Some(b)) == a
  {
    w := OpenWorld().(orgStore := true,
        orgModels := map[name := VirtualModel(name, "", Some(FallbackLine(g, f, s, [a] + [b])))]);
    OpenWorldLetsPass(Node(g, Generator, Absent));
    var n := Node(g, Generator, Absent);
    assert forall inputs, c :: w.leaf(n, inputs, c) == OpenWorld().leaf(n, inputs, c);
    assert LetsPass(w, Node(g, Generator, Absent));
    FallbackIsMisbilled(w, g, m, f, s, name, a, [b], ctx, b);
  }
}
