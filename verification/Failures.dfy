/** How a run fails (internal/pipeline/engine.go:60-168). A nested run is a run
    too, so this says it at every depth. */
module Failures {
  import opened Prelude
  import opened Graphs
  import opened Engine
  import opened Runs
  import TopoSort

  /** A generator, a sink, and something into every sink. */
  ghost predicate Startable(g: Graph) {
    && (exists i :: 0 <= i < |g.nodes| && g.nodes[i].kind == Generator)
    && (exists i :: 0 <= i < |g.nodes| && g.nodes[i].kind == Sink)
    && (forall i :: 0 <= i < |g.nodes| && g.nodes[i].kind == Sink ==>
          exists j :: 0 <= j < |g.edges| && g.edges[j].target == g.nodes[i].id)
  }

  lemma ValidIsStartable(g: Graph)
    ensures ValidGraph(g) <==> Startable(g)
  {
    forall n | n in g.nodes ensures exists i :: 0 <= i < |g.nodes| && g.nodes[i] == n {
    }
    forall e | e in g.edges ensures exists j :: 0 <= j < |g.edges| && g.edges[j] == e {
    }
  }

  /** A run fails by its last visit; or else for want of a graph to run, of an
      executor for the next node, or of a node that resolves a client. */
  ghost predicate Failed(w: World, g: Graph, visits: seq<Visit>, f: Fault) {
    if visits == [] || Passed(visits[|visits| - 1]) then NotEnded(w, g, visits, f)
    else EndedBy(g, visits, f)
  }

  /** The executor failed, as did the graph it ran, if it ran one; or rejected the
      request; or resolved a client while a block node is left. */
  ghost predicate EndedBy(g: Graph, visits: seq<Visit>, f: Fault)
    requires visits != []
  {
    match visits[|visits| - 1].step.result
    case Err(e) => f == e
    case Ok(r) =>
      match r.rejected
      case Some(reason) => f == Rejected(reason)
      case None => f.PendingBlock? && BlockIn(g, f.id)
  }

  ghost predicate BlockIn(g: Graph, id: string) {
    exists n :: n in g.nodes && n.id == id && n.kind == Block
  }

  ghost predicate NotEnded(w: World, g: Graph, visits: seq<Visit>, f: Fault) {
    if !Startable(g) then visits == [] && f == InvalidGraph
    else
      match TopoSort.TopoOrder(g)
      case Err(_) => visits == [] && f == UnsortedGraph
      case Ok(order) =>
        match f
        case NoTerminal => VisitIds(visits) == KnownIds(g.nodes, order)
        case NoExecutor(id) => VisitIds(visits) + [id] <= KnownIds(g.nodes, order) && LacksExecutor(w, g, id)
        case _ => false
  }

  ghost predicate LacksExecutor(w: World, g: Graph, id: string) {
    exists n :: n in g.nodes && n.id == id && !w.registered(n.kind)
  }

  lemma {:induction false} BlockLeft(nodes: seq<Node>, left: seq<string>)
    requires FirstBlock(nodes, left).Some?
    ensures var id := FirstBlock(nodes, left).value; exists n :: n in nodes && n.id == id && n.kind == Block
  {
    NodeByIdSome(nodes, left[0]);
    var n := NodeById(nodes, left[0]);
    if !(n.Some? && n.value.kind.Block?) { BlockLeft(nodes, left[1..]); }
  }

  /** The loop at position i, having gone past every node so far. */
  ghost predicate Going(g: Graph, order: seq<string>, i: nat, p: Progress) {
    && i <= |order| && Startable(g) && TopoSort.TopoOrder(g) == Ok(order)
    && AllPassed(p.visits) && VisitIds(p.visits) == KnownIds(g.nodes, order[..i])
  }

  /** The run fails as it should, or succeeds on a graph it could start. */
  ghost predicate Ends(w: World, g: Graph, run: Run) {
    match run.result
    case Err(f) => Failed(w, g, run.visits, f)
    case Ok(_) => Startable(g) && TopoSort.TopoOrder(g).Ok? && run.visits != []
  }

  lemma {:induction false} NodesEnd(
    w: World, g: Graph, ctx: Context, frame: Frame, order: seq<string>, i: nat, p: Progress)
    requires Going(g, order, i, p)
    ensures Ends(w, g, RunNodes(w, g, ctx, frame, order, i, p))
    decreases |order| - i, 1
  {
    assert p.visits != [] ==> p.visits[|p.visits| - 1] in p.visits;
    if i == |order| {
      assert order[..i] == order;
    } else {
      KnownIdsStep(g.nodes, order, i);
      NodeByIdSome(g.nodes, order[i]);
      var found := NodeById(g.nodes, order[i]);
      if found.None? {
        NodesEnd(w, g, ctx, frame, order, i + 1, p);
      } else if !w.registered(found.value.kind) {
        KnownIdsPrefix(g.nodes, order, i + 1);
      } else {
        var inputs := ResolveInputs(p.values, g.edges, found.value.id);
        var step := NodeForward(w, found.value, inputs, ctx.(messages := p.messages));
        VisitEnds(w, g, ctx, frame, order, i, p, Visit(found.value, inputs, p.messages, step));
      }
    }
  }

  lemma GoesOn(g: Graph, order: seq<string>, i: nat, p: Progress, v: Visit)
    requires i < |order| && Going(g, order, i, p) && Passed(v)
    requires KnownIds(g.nodes, order[..i + 1]) == KnownIds(g.nodes, order[..i]) + [v.node.id]
    ensures Going(g, order, i + 1, Advance(p, v, v.step.result.value))
  {
    assert (p.visits + [v])[..|p.visits|] == p.visits;
  }

  lemma {:induction false} VisitEnds(
    w: World, g: Graph, ctx: Context, frame: Frame, order: seq<string>, i: nat, p: Progress, v: Visit)
    requires i < |order| && Going(g, order, i, p)
    requires KnownIds(g.nodes, order[..i + 1]) == KnownIds(g.nodes, order[..i]) + [v.node.id]
    ensures Ends(w, g, AfterVisit(w, g, ctx, frame, order, i, p, v))
    decreases |order| - i, 0
  {
    if Passed(v) {
      GoesOn(g, order, i, p, v);
      NodesEnd(w, g, ctx, frame, order, i + 1, Advance(p, v, v.step.result.value));
    } else if v.step.result.Err? {
      Stops(w, g, p.visits, v, v.step.result.error);
    } else if v.step.result.value.rejected.Some? {
      Stops(w, g, p.visits, v, Rejected(v.step.result.value.rejected.value));
    } else if FirstBlock(g.nodes, order[i + 1..]).Some? {
      BlockLeft(g.nodes, order[i + 1..]);
      Stops(w, g, p.visits, v, PendingBlock(FirstBlock(g.nodes, order[i + 1..]).value));
    }
  }

  lemma Stops(w: World, g: Graph, visits: seq<Visit>, v: Visit, f: Fault)
    requires !Passed(v) && EndedBy(g, [v], f)
    ensures Failed(w, g, visits + [v], f)
  {
    assert (visits + [v])[|visits + [v]| - 1] == v;
  }

  /** A run fails exactly as its last visit or its graph says: without a generator,
      a sink, or something into each sink; without a schedule; on a node without
      an executor; on a node that fails or rejects; on a client resolved before a
      block node; and when no node resolves a client. */
  lemma FailureIsTold(w: World, g: Graph, ctx: Context, frame: Frame)
    ensures Ends(w, g, RunForward(w, g, ctx, frame))
  {
    ValidIsStartable(g);
    if ValidGraph(g) && TopoSort.TopoOrder(g).Ok? {
      var order := TopoSort.TopoOrder(g).value;
      assert KnownIds(g.nodes, order[..0]) == [];
      NodesEnd(w, g, ctx, frame, order, 0, Start(g, ctx));
    }
  }
}
