/** The backward pass over the flattened trace
    (internal/pipeline/engine.go:199-275) and what it undoes. */
module BackwardPass {
  import opened Prelude
  import opened Graphs
  import opened Engine
  import opened Runs
  import opened Nesting

  /** The response and its tool calls as the pass goes; rewritten is what it
      reports of the tool calls. */
  datatype Response = Response(content: string, toolCalls: string, rewritten: string)

  /** A node's backward: nothing for the nodes that resolve or block. */
  function BackwardOf(w: World, en: ExecutedNode, call: BackwardCall): Result<BackwardResult, string> {
    if en.node.kind.Model? || en.node.kind.ModelFallback? || en.node.kind.Block? then Ok(BackwardResult("", ""))
    else w.backward(en, call)
  }

  function BackStep(w: World, en: ExecutedNode, model: string, hadError: bool, b: Response): Response {
    if !w.registered(en.node.kind) then b
    else
      match BackwardOf(w, en, BackwardCall(model, b.content, b.toolCalls, hadError))
      case Err(_) => b
      case Ok(r) =>
        Response(if r.response != "" then r.response else b.content,
                 if r.toolCalls != "" then r.toolCalls else b.toolCalls,
                 if r.toolCalls != "" then r.toolCalls else b.rewritten)
  }

  /** The nodes in reverse; those before position cut are skipped, their time
      being up. */
  function BackFrom(
    w: World, nodes: seq<ExecutedNode>, cut: nat, model: string, hadError: bool, b: Response): Response
  {
    if |nodes| <= cut then b
    else BackFrom(w, nodes[..|nodes| - 1], cut, model, hadError,
                  BackStep(w, nodes[|nodes| - 1], model, hadError, b))
  }

  /** The model that answered, when a fallback client reports one. */
  function AnsweringModel(exec: ForwardExecution, used: Option<string>): string {
    if exec.outcome.Some? && used.Some? && used.value != "" then used.value else exec.model
  }

  function RunBackward(w: World, exec: ForwardExecution, used: Option<string>, content: string, toolCalls: string,
                       hadError: bool, cut: nat): Response
  {
    BackFrom(w, exec.executed, cut, AnsweringModel(exec, used), hadError, Response(content, toolCalls, ""))
  }

  /** The pass as it runs. late says at which positions the context is done;
      the nodes from the first such position down are skipped. */
  method Run(w: World, exec: ForwardExecution, used: Option<string>, content: string, toolCalls: string,
             hadError: bool, late: nat -> bool) returns (r: Response, skipped: nat)
    ensures skipped <= |exec.executed| && r == RunBackward(w, exec, used, content, toolCalls, hadError, skipped)
    ensures forall i :: skipped <= i < |exec.executed| ==> !late(i)
    ensures skipped > 0 ==> late(skipped - 1)
  {
    r := Response(content, toolCalls, "");
    var model := AnsweringModel(exec, used);
    skipped := |exec.executed|;
    assert exec.executed[..skipped] == exec.executed;
    while skipped > 0
      invariant 0 <= skipped <= |exec.executed|
      invariant forall j :: skipped <= j < |exec.executed| ==> !late(j)
      invariant forall c :: 0 <= c <= skipped ==>
                  BackFrom(w, exec.executed[..skipped], c, model, hadError, r)
                  == RunBackward(w, exec, used, content, toolCalls, hadError, c)
    {
      if late(skipped - 1) {
        break;
      }
      assert exec.executed[..skipped][..skipped - 1] == exec.executed[..skipped - 1];
      r := BackStep(w, exec.executed[skipped - 1], model, hadError, r);
      skipped := skipped - 1;
    }
  }

  // ---- The calls the pass makes ----------------------------------------

  /** One call of the pass, and what came back. */
  datatype Exchange = Exchange(node: ExecutedNode, call: BackwardCall, answer: Result<BackwardResult, string>)

  /** The last response answered that is not empty, or the one given. */
  function LastResponse(xs: seq<Exchange>, given: string): string {
    if xs == [] then given
    else
      var x := xs[|xs| - 1];
      if x.answer.Ok? && x.answer.value.response != "" then x.answer.value.response
      else LastResponse(xs[..|xs| - 1], given)
  }

  function LastToolCalls(xs: seq<Exchange>, given: string): string {
    if xs == [] then given
    else
      var x := xs[|xs| - 1];
      if x.answer.Ok? && x.answer.value.toolCalls != "" then x.answer.value.toolCalls
      else LastToolCalls(xs[..|xs| - 1], given)
  }

  /** The nodes called: those that have an executor, last one first. */
  function Called(w: World, nodes: seq<ExecutedNode>, cut: nat): seq<ExecutedNode> {
    if |nodes| <= cut then []
    else
      var last := nodes[|nodes| - 1];
      (if w.registered(last.node.kind) then [last] else []) + Called(w, nodes[..|nodes| - 1], cut)
  }

  function NodesOf(xs: seq<Exchange>): seq<ExecutedNode> {
    seq(|xs|, k requires 0 <= k < |xs| => xs[k].node)
  }

  /** The k-th call carries what was last answered before it; the engine's own
      executors answer nothing, the others what they answer. */
  ghost predicate Asks(
    w: World, xs: seq<Exchange>, k: nat, model: string, hadError: bool, content: string, toolCalls: string)
    requires k < |xs|
  {
    var x := xs[k];
    && x.call.model == model && x.call.hadError == hadError
    && x.call.response == LastResponse(xs[..k], content)
    && x.call.toolCalls == LastToolCalls(xs[..k], toolCalls)
    && x.answer == if IsLeaf(x.node.node.kind) then w.backward(x.node, x.call) else Ok(BackwardResult("", ""))
  }

  /** xs are the calls of a pass over nodes, in order. */
  ghost predicate Exchanges(w: World, xs: seq<Exchange>, nodes: seq<ExecutedNode>, cut: nat, model: string,
                            hadError: bool, content: string, toolCalls: string)
  {
    && NodesOf(xs) == Called(w, nodes, cut)
    && forall k :: 0 <= k < |xs| ==> Asks(w, xs, k, model, hadError, content, toolCalls)
  }

  /** What the pass has come to after some calls. */
  ghost predicate ComesTo(xs: seq<Exchange>, content: string, toolCalls: string, b: Response) {
    && b.content == LastResponse(xs, content)
    && b.toolCalls == LastToolCalls(xs, toolCalls)
    && b.rewritten == LastToolCalls(xs, "")
  }

  lemma OneCallMore(w: World, en: ExecutedNode, model: string, hadError: bool, b: Response, xs: seq<Exchange>,
                    content: string, toolCalls: string) returns (x: Exchange)
    requires w.registered(en.node.kind) && ComesTo(xs, content, toolCalls, b)
    requires forall k :: 0 <= k < |xs| ==> Asks(w, xs, k, model, hadError, content, toolCalls)
    ensures x.node == en && ComesTo(xs + [x], content, toolCalls, BackStep(w, en, model, hadError, b))
    ensures forall k :: 0 <= k < |xs + [x]| ==> Asks(w, xs + [x], k, model, hadError, content, toolCalls)
  {
    var call := BackwardCall(model, b.content, b.toolCalls, hadError);
    x := Exchange(en, call, BackwardOf(w, en, call));
    var ys := xs + [x];
    assert ys[..|xs|] == xs;
    forall k | 0 <= k < |ys| ensures Asks(w, ys, k, model, hadError, content, toolCalls) {
      assert ys[..k] == xs[..k];
      if k < |xs| { assert Asks(w, xs, k, model, hadError, content, toolCalls); }
    }
  }

  /** From calls made so far, the rest of the pass. */
  lemma {:induction false} RestOfCalls(
    w: World, nodes: seq<ExecutedNode>, cut: nat, model: string, hadError: bool, b: Response, xs: seq<Exchange>,
    content: string, toolCalls: string) returns (ys: seq<Exchange>)
    requires ComesTo(xs, content, toolCalls, b)
    requires forall k :: 0 <= k < |xs| ==> Asks(w, xs, k, model, hadError, content, toolCalls)
    ensures NodesOf(ys) == NodesOf(xs) + Called(w, nodes, cut)
    ensures forall k :: 0 <= k < |ys| ==> Asks(w, ys, k, model, hadError, content, toolCalls)
    ensures ComesTo(ys, content, toolCalls, BackFrom(w, nodes, cut, model, hadError, b))
    decreases |nodes|
  {
    ys := xs;
    if |nodes| > cut {
      var init, last := nodes[..|nodes| - 1], nodes[|nodes| - 1];
      if w.registered(last.node.kind) {
        var x := OneCallMore(w, last, model, hadError, b, xs, content, toolCalls);
        ys := RestOfCalls(w, init, cut, model, hadError, BackStep(w, last, model, hadError, b), xs + [x],
                          content, toolCalls);
        assert NodesOf(xs + [x]) == NodesOf(xs) + [last];
      } else {
        ys := RestOfCalls(w, init, cut, model, hadError, b, xs, content, toolCalls);
      }
    }
  }

  /** The pass calls the executors of the trace, last node first down to the cut.
      Each is given the last response and the last tool calls answered before it,
      or those of the model; and the pass returns the last response answered, and
      reports the last tool calls answered, or none. A node that fails, that
      answers nothing or that has no executor leaves both as they stand. */
  lemma PassIsExchanges(w: World, exec: ForwardExecution, used: Option<string>, content: string, toolCalls: string,
                        hadError: bool, cut: nat) returns (xs: seq<Exchange>)
    ensures Exchanges(w, xs, exec.executed, cut, AnsweringModel(exec, used), hadError, content, toolCalls)
    ensures var r := RunBackward(w, exec, used, content, toolCalls, hadError, cut);
            r.content == LastResponse(xs, content) && r.rewritten == LastToolCalls(xs, "")
  {
    xs := RestOfCalls(w, exec.executed, cut, AnsweringModel(exec, used), hadError, Response(content, toolCalls, ""), [],
                      content, toolCalls);
  }

  // ---- Undoing ---------------------------------------------------------

  lemma {:induction false} BackFromSplit(w: World, a: seq<ExecutedNode>, c: seq<ExecutedNode>, model: string,
                                         hadError: bool, b: Response)
    ensures BackFrom(w, a + c, 0, model, hadError, b) ==
            BackFrom(w, a, 0, model, hadError, BackFrom(w, c, 0, model, hadError, b))
    decreases |c|
  {
    if c == [] {
      assert a + c == a;
    } else {
      assert (a + c)[..|a + c| - 1] == a + c[..|c| - 1];
      BackFromSplit(w, a, c[..|c| - 1], model, hadError, BackStep(w, c[|c| - 1], model, hadError, b));
    }
  }

  /** Each node's backward undoes what its own forward did to the messages, and
      leaves them alone when it did nothing. A backward cannot answer that there
      were none, so that nodes owe this of empty messages only if empty is set. */
  ghost predicate UndoesForward(w: World, empty: bool) {
    forall n: Node, inputs: Ports, ctx: Context, model: string, hadError: bool, tc: string, rw: string
      {:trigger BackLeaf(w, n, inputs, ctx, model, hadError, tc, rw)} ::
      && w.registered(n.kind) && IsLeaf(n.kind)
      && LeafForward(w, n, inputs, ctx).result.Ok? && (empty || ctx.messages != "") ==>
        BackLeaf(w, n, inputs, ctx, model, hadError, tc, rw).content == ctx.messages
  }

  /** A leaf's backward on the messages its forward left. */
  function BackLeaf(
    w: World, n: Node, inputs: Ports, ctx: Context, model: string, hadError: bool, tc: string, rw: string): Response
  {
    BackStep(w, Entry(n, LeafForward(w, n, inputs, ctx)), model, hadError, Response(After1(w, n, inputs, ctx), tc, rw))
  }

  /** Messages are never rewritten to nothing. */
  lemma {:induction false} MessagesStay(g: Graph, ctx: Context, visits: seq<Visit>)
    ensures ctx.messages != "" ==> After(g, ctx, visits).messages != ""
  {
    if visits != [] { MessagesStay(g, ctx, visits[..|visits| - 1]); }
  }

  function Entry(n: Node, s: Step): ExecutedNode {
    if s.result.Ok? then ExecutedNode(n, s.result.value.state, s.result.value.pluginContext, s.result.value.noRewrite)
    else ExecutedNode(n, "", "", false)
  }

  /** The messages after a leaf ran. */
  function After1(w: World, n: Node, inputs: Ports, ctx: Context): string {
    var s := LeafForward(w, n, inputs, ctx);
    if s.result.Ok? then Rewritten(s.result.value, ctx.messages) else ctx.messages
  }

  lemma NoopStep(w: World, en: ExecutedNode, model: string, hadError: bool, b: Response)
    requires !IsLeaf(en.node.kind)
    ensures BackStep(w, en, model, hadError, b).content == b.content
  {
  }

  lemma LeafStepUndone(w: World, empty: bool, v: Visit, ctx: Context, model: string, hadError: bool, b: Response)
    requires UndoesForward(w, empty) && (empty || ctx.messages != "")
    requires w.registered(v.node.kind) && IsLeaf(v.node.kind) && v.step.nested.None?
    requires ValidStep(w, v.node, v.inputs, ctx, v.step) && v.step.result.Ok?
    requires b.content == Rewritten(v.step.result.value, ctx.messages)
    ensures BackStep(w, Entry(v.node, v.step), model, hadError, b).content == ctx.messages
  {
    assert v.step == LeafForward(w, v.node, v.inputs, ctx);
    assert b == Response(After1(w, v.node, v.inputs, ctx), b.toolCalls, b.rewritten);
    assert BackLeaf(w, v.node, v.inputs, ctx, model, hadError, b.toolCalls, b.rewritten).content == ctx.messages;
  }

  lemma DirectKeepsMessages(w: World, v: Visit, ctx: Context)
    requires !IsLeaf(v.node.kind) && v.step.nested.None?
    requires ValidStep(w, v.node, v.inputs, ctx, v.step) && v.step.result.Ok?
    ensures Rewritten(v.step.result.value, ctx.messages) == ctx.messages
  {
  }

  /** A nested run leaves the parent exactly its own final messages. */
  lemma NestedMessages(w: World, v: Visit, sub: Run, before: string)
    requires ValidRun(w, sub) && v.step == Nested(sub) && sub.result.Ok? && sub.ctx.messages == before
    ensures Rewritten(v.step.result.value, before) == sub.result.value.messages
  {
    RunTraced(w, sub);
    RewritesNonEmpty(sub.visits);
    assert Rewrites(sub) != [] ==> LastOr(Rewrites(sub), "") in Rewrites(sub);
  }

  /** What one visit adds to the trace: the graph it ran, then itself. */
  function TailOf(v: Visit): seq<ExecutedNode> {
    (if v.step.nested.Some? then PostOrderOf(v.step.nested.value.visits) else []) + [Entry(v.node, v.step)]
  }

  lemma PostOrderLast(visits: seq<Visit>, init: seq<Visit>, v: Visit)
    requires visits == init + [v] && v.step.result.Ok?
    ensures PostOrderOf(visits) == PostOrderOf(init) + TailOf(v)
  {
    assert visits[..|visits| - 1] == init;
  }

  lemma {:induction false} VisitsUndone(
    w: World, empty: bool, g: Graph, ctx: Context, visits: seq<Visit>, model: string, hadError: bool, b: Response)
    requires ValidVisits(w, g, ctx, visits) && UndoesForward(w, empty) && (empty || ctx.messages != "")
    requires visits != [] ==> visits[|visits| - 1].step.result.Ok?
    requires b.content == After(g, ctx, visits).messages
    ensures BackFrom(w, PostOrderOf(visits), 0, model, hadError, b).content == ctx.messages
    decreases visits, 0
  {
    if visits != [] {
      var init, v := LastVisit(w, g, ctx, visits);
      assert init != [] ==> init[|init| - 1] in init;
      MessagesStay(g, ctx, init);
      VisitUndone(w, empty, ctx.(messages := v.before), v, model, hadError, b);
      VisitsUndone(w, empty, g, ctx, init, model, hadError, BackFrom(w, TailOf(v), 0, model, hadError, b));
      PostOrderLast(visits, init, v);
      BackFromSplit(w, PostOrderOf(init), TailOf(v), model, hadError, b);
    }
  }

  /** One visit with the graph it ran: unwinding both gives back the messages
      that entered the node. */
  lemma {:induction false} VisitUndone(
    w: World, empty: bool, ctx: Context, v: Visit, model: string, hadError: bool, b: Response)
    requires UndoesForward(w, empty) && (empty || ctx.messages != "") && w.registered(v.node.kind)
    requires ValidStep(w, v.node, v.inputs, ctx, v.step) && v.step.result.Ok?
    requires b.content == Rewritten(v.step.result.value, ctx.messages)
    ensures BackFrom(w, TailOf(v), 0, model, hadError, b).content == ctx.messages
    decreases v, 1
  {
    var own := BackStep(w, Entry(v.node, v.step), model, hadError, b);
    assert BackFrom(w, [Entry(v.node, v.step)], 0, model, hadError, b) == own;
    if v.step.nested.Some? {
      var sub := NestedRun(w, v.node, v.inputs, ctx, v.step);
      NestedMessages(w, v, sub, ctx.messages);
      NoopStep(w, Entry(v.node, v.step), model, hadError, b);
      VisitsUndone(w, empty, sub.graph, sub.ctx, sub.visits, model, hadError, own);
      BackFromSplit(w, PostOrderOf(sub.visits), [Entry(v.node, v.step)], model, hadError, b);
    } else {
      assert TailOf(v) == [Entry(v.node, v.step)];
      if IsLeaf(v.node.kind) {
        LeafStepUndone(w, empty, v, ctx, model, hadError, b);
      } else {
        DirectKeepsMessages(w, v, ctx);
        NoopStep(w, Entry(v.node, v.step), model, hadError, b);
      }
    }
  }

  // ---- Undoing on tool calls -------------------------------------------

  /** enc is how a node's forward shows a text to the model: each node's backward
      turns tool calls it showed back into what they were. */
  ghost predicate UndoesCalls(w: World, enc: (ExecutedNode, string) -> string) {
    forall en: ExecutedNode, call: BackwardCall, t: string {:trigger RestoredBy(w, en, call, t), enc(en, t)} ::
      w.registered(en.node.kind) && IsLeaf(en.node.kind) && call.toolCalls == enc(en, t) && t != "" ==>
        RestoredBy(w, en, call, t)
  }

  /** After the node's backward the tool calls are t. */
  predicate RestoredBy(w: World, en: ExecutedNode, call: BackwardCall, t: string) {
    match w.backward(en, call)
    case Err(_) => call.toolCalls == t
    case Ok(r) => (if r.toolCalls != "" then r.toolCalls else call.toolCalls) == t
  }

  /** What tool calls look like once the nodes have shown them, first one first. */
  function Shown(w: World, enc: (ExecutedNode, string) -> string, nodes: seq<ExecutedNode>, t: string): string {
    if nodes == [] then t
    else
      var init, last := nodes[..|nodes| - 1], nodes[|nodes| - 1];
      var before := Shown(w, enc, init, t);
      if w.registered(last.node.kind) && IsLeaf(last.node.kind) then enc(last, before) else before
  }

  lemma {:induction false} CallsRestored(
    w: World, enc: (ExecutedNode, string) -> string, nodes: seq<ExecutedNode>, model: string, hadError: bool,
    b: Response, t: string)
    requires UndoesCalls(w, enc) && t != "" && (forall en, s :: s != "" ==> enc(en, s) != "")
    requires b.toolCalls == Shown(w, enc, nodes, t) && (b.rewritten == "" || b.rewritten == b.toolCalls)
    ensures var r := BackFrom(w, nodes, 0, model, hadError, b);
            r.toolCalls == t && (r.rewritten == t || (r.rewritten == b.rewritten == "" && b.toolCalls == t))
    decreases |nodes|
  {
    if nodes != [] {
      var init, last := nodes[..|nodes| - 1], nodes[|nodes| - 1];
      var before := Shown(w, enc, init, t);
      ShownNonEmpty(w, enc, init, t);
      if w.registered(last.node.kind) && IsLeaf(last.node.kind) {
        assert RestoredBy(w, last, BackwardCall(model, b.content, b.toolCalls, hadError), before);
      }
      CallsRestored(w, enc, init, model, hadError, BackStep(w, last, model, hadError, b), t);
    }
  }

  lemma {:induction false} ShownNonEmpty(
    w: World, enc: (ExecutedNode, string) -> string, nodes: seq<ExecutedNode>, t: string)
    requires t != "" && forall en, s :: s != "" ==> enc(en, s) != ""
    ensures Shown(w, enc, nodes, t) != ""
  {
    if nodes != [] { ShownNonEmpty(w, enc, nodes[..|nodes| - 1], t); }
  }

  /** If every node's backward turns back the tool calls its forward showed, the
      pass turns back those the whole nested run showed, in post-order: what it
      reports, or the model's own when it reports none, are the original ones. */
  lemma BackwardRestoresCalls(
    w: World, enc: (ExecutedNode, string) -> string, g: Graph, ctx: Context, used: Option<string>, content: string,
    t: string, hadError: bool)
    requires RunForward(w, g, ctx, Root).result.Ok? && UndoesCalls(w, enc)
    requires t != "" && forall en, s :: s != "" ==> enc(en, s) != ""
    ensures var run := RunForward(w, g, ctx, Root);
            var shown := Shown(w, enc, PostOrder(run), t);
            var r := RunBackward(w, run.result.value, used, content, shown, hadError, 0);
            r.rewritten == t || (r.rewritten == "" && shown == t)
  {
    TraceIsPostOrder(w, g, ctx);
    var exec := RunForward(w, g, ctx, Root).result.value;
    var shown := Shown(w, enc, exec.executed, t);
    CallsRestored(w, enc, exec.executed, AnsweringModel(exec, used), hadError, Response(content, shown, ""), t);
  }

  // ---- Undoing on messages ---------------------------------------------

  /** If every node's backward undoes its own forward, the backward pass undoes
      the forward pass at any nesting depth: given the final messages as the
      response, it returns the messages the request came with. */
  lemma BackwardUndoesForward(w: World, g: Graph, ctx: Context, used: Option<string>, toolCalls: string, hadError: bool)
    requires UndoesForward(w, ctx.messages == "") && RunForward(w, g, ctx, Root).result.Ok?
    ensures var exec := RunForward(w, g, ctx, Root).result.value;
            RunBackward(w, exec, used, exec.messages, toolCalls, hadError, 0).content == ctx.messages
  {
    RunForwardValid(w, g, ctx, Root);
    var run := RunForward(w, g, ctx, Root);
    RunTraced(w, run);
    var exec := run.result.value;
    VisitsUndone(w, ctx.messages == "", g, ctx, run.visits, AnsweringModel(exec, used), hadError,
                 Response(exec.messages, toolCalls, ""));
  }
}
