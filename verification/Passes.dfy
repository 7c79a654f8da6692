/** Passes that end on the first terminal node after the generator
    (internal/pipeline/engine.go:83-157): enough of the forward pass to follow
    one request through a given graph. */
module Passes {
  import opened Prelude
  import opened Graphs
  import opened Engine
  import opened ModelNames
  import TopoSort

  /** The node lets every request pass without resolving a client. */
  ghost predicate LetsPass(w: World, n: Node) {
    && w.registered(n.kind)
    && forall inputs, ctx :: Passing(w.leaf(n, inputs, ctx))
  }

  predicate Passing(r: Result<LeafResult, Fault>) {
    r.Ok? && r.value.rejected.None? && r.value.client.None?
  }

  /** IDs of the order that no node carries are stepped over. */
  lemma {:induction false} SkipUnknown(
    w: World, h: Graph, ctx: Context, frame: Frame, order: seq<string>, i: nat, k: nat, p: Progress)
    requires i <= k < |order| && forall j :: i <= j < k ==> NodeById(h.nodes, order[j]).None?
    ensures RunNodes(w, h, ctx, frame, order, i, p) == RunNodes(w, h, ctx, frame, order, k, p)
    decreases k - i
  {
    if i < k { SkipUnknown(w, h, ctx, frame, order, i + 1, k, p); }
  }

  function VisitOf(w: World, h: Graph, ctx: Context, n: Node, p: Progress): Visit {
    var inputs := ResolveInputs(p.values, h.edges, n.id);
    Visit(n, inputs, p.messages, NodeForward(w, n, inputs, ctx.(messages := p.messages)))
  }

  /** After a generator that lets pass, the pass comes to the first node of the
      order that exists. */
  lemma ComesTo(
    w: World, h: Graph, ctx: Context, frame: Frame, order: seq<string>, k: nat, gen: Node, t: Node)
    returns (p: Progress)
    requires ValidGraph(h) && TopoSort.TopoOrder(h) == Ok(order) && 0 < k < |order|
    requires NodeById(h.nodes, order[0]) == Some(gen) && gen.kind.Generator? && LetsPass(w, gen)
    requires forall j :: 0 < j < k ==> NodeById(h.nodes, order[j]).None?
    requires NodeById(h.nodes, order[k]) == Some(t) && w.registered(t.kind) && t.id == order[k]
    ensures RunForward(w, h, ctx, frame) == AfterVisit(w, h, ctx, frame, order, k, p, VisitOf(w, h, ctx, t, p))
  {
    var p0 := Start(h, ctx);
    var v := VisitOf(w, h, ctx, gen, p0);
    NodeByIdSome(h.nodes, order[0]);
    assert Passing(w.leaf(gen, v.inputs, ctx.(messages := p0.messages)));
    p := Advance(p0, v, v.step.result.value);
    assert RunForward(w, h, ctx, frame) == RunNodes(w, h, ctx, frame, order, 0, p0);
    assert RunNodes(w, h, ctx, frame, order, 0, p0) == AfterVisit(w, h, ctx, frame, order, 0, p0, v);
    SkipUnknown(w, h, ctx, frame, order, 1, k, p);
  }

  predicate Answers(v: Visit) {
    v.step.result.Ok? && v.step.result.value.rejected.None? && v.step.result.value.client.Some?
  }

  /** A node that answers with a client ends the pass, no block node being left. */
  lemma EndsThere(w: World, h: Graph, ctx: Context, frame: Frame, order: seq<string>, k: nat, p: Progress, v: Visit)
    requires k < |order| && Answers(v) && FirstBlock(h.nodes, order[k + 1..]).None?
    ensures var p' := Advance(p, v, v.step.result.value);
            AfterVisit(w, h, ctx, frame, order, k, p, v)
            == Run(frame, h, ctx, p.visits + [v], Ok(Finish(p', v.step.result.value)))
  {
  }

  /** A node only receives values on ports some edge leads to. */
  lemma {:induction false} InputsComeFromEdges(values: Store, edges: seq<Edge>, id: string, port: Port)
    requires forall e :: e in edges && e.target == id ==> e.targetPort != port
    ensures port !in ResolveInputs(values, edges, id)
  {
    if edges != [] {
      assert edges[|edges| - 1] in edges;
      InputsComeFromEdges(values, edges[..|edges| - 1], id, port);
    }
  }

  lemma {:induction false} NoBlockAmong(nodes: seq<Node>, left: seq<string>)
    requires forall id :: id in left && NodeById(nodes, id).Some? ==> !NodeById(nodes, id).value.kind.Block?
    ensures FirstBlock(nodes, left).None?
  {
    if left != [] {
      assert left[0] in left;
      NoBlockAmong(nodes, left[1..]);
    }
  }

  /** A name without a slash is read as it stands, in any organization. */
  lemma PlainNameParses(ctx: Context, name: string)
    requires name != "" && '/' !in name
    ensures ParseName(ctx, name) == Some(ModelName("", "", name))
    ensures ModelName("", "", name).OrgLevel().Text() == name
  {
    IndexOfSpec(name, '/');
    assert ModelName("", "", name).Text() == "" + "" + name;
  }

  // ---- Orders that start with the generator ----------------------------

  /** In an order where the generator feeds everything but the sink, which the
      terminal feeds, the generator is first and only strangers come between it
      and the terminal. */
  lemma GeneratorFirst(h: Graph, order: seq<string>, g: string, t: string, s: string) returns (k: nat)
    requires TopoSort.Drained(h, order) && t in order && HasEdge(h, g, t) && HasEdge(h, t, s)
    requires forall v :: v in order ==> v == g || v == s || HasEdge(h, g, v)
    requires g != t && s != t
    ensures 0 < k < |order| && order[0] == g && order[k] == t
    ensures forall j :: 0 < j < k ==> order[j] != g && order[j] != t && order[j] != s
  {
    k :| 0 <= k < |order| && order[k] == t;
    forall j | 0 <= j < |order| && order[j] != g ensures j > 0 {
      assert order[j] in order;
      if order[j] == s { SourceBefore(h, order, t, s, j); } else { SourceBefore(h, order, g, order[j], j); }
    }
    forall j | 0 <= j < |order| && order[j] == s ensures k < j {
      SourceBefore(h, order, t, s, j);
      var i :| 0 <= i < j && order[i] == t;
      assert i == k;
    }
  }

  lemma SourceBefore(h: Graph, order: seq<string>, a: string, b: string, k: nat)
    requires TopoSort.RespectsEdges(h, order) && HasEdge(h, a, b) && k < |order| && order[k] == b
    ensures a in order[..k]
  {
  }

  lemma FedIsScheduled(g: Graph, order: seq<string>, v: string)
    requires TopoSort.Drained(g, order) && v in TopoSort.Vertices(g)
    requires forall e :: e in g.edges && e.target == v ==> e.source in order
    ensures v in order
  {
    TopoSort.PendingZero(g.edges, order, v);
    assert TopoSort.Ready(g, order, v);
  }

  // ---- A generator, a terminal node and a sink -------------------------

  function Line(g: string, t: Node, s: string): Graph {
    Graph([Node(g, Generator, Absent), t, Node(s, Sink, Absent)],
          [Edge("e1", g, RequestPort, t.id, RequestPort), Edge("e2", t.id, ResponsePort, s, ResponsePort)])
  }

  lemma LineShape(g: string, t: Node, s: string)
    requires g != t.id && g != s && t.id != s && !t.kind.Sink?
    ensures var h := Line(g, t, s);
            && UniqueIds(h) && ValidGraph(h) && TopoSort.Vertices(h) == {g, t.id, s}
            && NodeById(h.nodes, g) == Some(h.nodes[0]) && NodeById(h.nodes, t.id) == Some(t)
                && NodeById(h.nodes, s) == Some(h.nodes[2])
            && HasEdge(h, g, t.id) && HasEdge(h, t.id, s)
  {
    var h := Line(g, t, s);
    assert h.nodes[0] in h.nodes && h.nodes[1] in h.nodes && h.nodes[2] in h.nodes;
    assert h.edges[0] in h.edges && h.edges[1] in h.edges;
    assert Ids(h) == {g, t.id, s};
    NodeByIdFinds(h.nodes, 0);
    NodeByIdFinds(h.nodes, 1);
    NodeByIdFinds(h.nodes, 2);
  }

  lemma LineFeeds(g: string, t: Node, s: string, e: Edge)
    requires g != t.id && g != s && t.id != s && e in Line(g, t, s).edges
    ensures e.target != g && (e.target == t.id ==> e.source == g && e.targetPort != ModelNamePort)
            && (e.target == s ==> e.source == t.id)
  {
    var edges := Line(g, t, s).edges;
    var i :| 0 <= i < 2 && edges[i] == e;
  }

  lemma LineOrder(g: string, t: Node, s: string)
    requires g != t.id && g != s && t.id != s && !t.kind.Sink?
    ensures var h := Line(g, t, s);
            && TopoSort.TopoOrder(h).Ok? && TopoSort.Drained(h, TopoSort.TopoOrder(h).value)
            && Elements(TopoSort.TopoOrder(h).value) == {g, t.id, s}
  {
    var h := Line(g, t, s);
    LineShape(g, t, s);
    forall e | e in h.edges
      ensures e.target != g && (e.target == t.id ==> e.source == g) && (e.target == s ==> e.source == t.id)
    {
      LineFeeds(g, t, s, e);
    }
    ThreeInLine(h, g, t.id, s);
  }

  lemma ThreeInLine(h: Graph, g: string, t: string, s: string)
    requires UniqueIds(h) && |h.nodes| == 3 && TopoSort.Vertices(h) == {g, t, s} && g != t && g != s && t != s
    requires forall e :: e in h.edges ==>
            e.target != g && (e.target == t ==> e.source == g) && (e.target == s ==> e.source == t)
    ensures TopoSort.TopoOrder(h).Ok? && TopoSort.Drained(h, TopoSort.TopoOrder(h).value)
    ensures Elements(TopoSort.TopoOrder(h).value) == {g, t, s}
  {
    TopoSort.ScheduledIsDrained(h);
    var order := TopoSort.Scheduled(h);
    FedIsScheduled(h, order, g);
    FedIsScheduled(h, order, t);
    FedIsScheduled(h, order, s);
    assert forall id :: id in order ==> TopoSort.Ready(h, order, id);
    assert Elements(order) == {g, t, s};
    DistinctCardinality(order);
    assert |{g, t, s}| == 3;
  }

  /** In an order of a generator, a terminal, a sink and strangers the generator
      feeds, the terminal is the first node after the generator, and nothing after
      it is a block node. */
  lemma FirstAfterGenerator(h: Graph, order: seq<string>, g: string, t: string, s: string) returns (k: nat)
    requires TopoSort.Drained(h, order) && t in order && HasEdge(h, g, t) && HasEdge(h, t, s) && g != t && s != t
    requires forall v :: v in order && v != g && v != t && v != s ==> NodeById(h.nodes, v).None? && HasEdge(h, g, v)
    requires forall v :: v in {g, t, s} ==> NodeById(h.nodes, v).Some? && !NodeById(h.nodes, v).value.kind.Block?
    ensures 0 < k < |order| && order[0] == g && order[k] == t
    ensures forall j :: 0 < j < k ==> NodeById(h.nodes, order[j]).None?
    ensures FirstBlock(h.nodes, order[k + 1..]).None?
  {
    k := GeneratorFirst(h, order, g, t, s);
    assert forall j :: 0 <= j < |order| ==> order[j] in order;
    forall id | id in order[k + 1..] && NodeById(h.nodes, id).Some? ensures !NodeById(h.nodes, id).value.kind.Block? {
      assert id in order;
    }
    NoBlockAmong(h.nodes, order[k + 1..]);
  }

  lemma LineSchedule(g: string, t: Node, s: string) returns (k: nat)
    requires g != t.id && g != s && t.id != s && !t.kind.Sink? && !t.kind.Block?
    ensures var h := Line(g, t, s);
            && TopoSort.TopoOrder(h).Ok?
            && var order := TopoSort.TopoOrder(h).value;
               && 0 < k < |order| && order[0] == g && order[k] == t.id
               && (forall j :: 0 < j < k ==> NodeById(h.nodes, order[j]).None?)
               && FirstBlock(h.nodes, order[k + 1..]).None?
  {
    LineShape(g, t, s);
    LineOrder(g, t, s);
    var order := TopoSort.TopoOrder(Line(g, t, s)).value;
    assert t.id in Elements(order);
    assert forall v :: v in order ==> v in Elements(order);
    k := FirstAfterGenerator(Line(g, t, s), order, g, t.id, s);
  }

  /** A pass that comes to a node which answers whatever comes down to it ends
      there; the execution is what that node resolved. */
  lemma PassesOn(
    w: World, h: Graph, ctx: Context, frame: Frame, order: seq<string>, k: nat, gen: Node, t: Node)
    returns (p: Progress)
    requires ValidGraph(h) && TopoSort.TopoOrder(h) == Ok(order) && 0 < k < |order|
    requires NodeById(h.nodes, order[0]) == Some(gen) && gen.kind.Generator? && LetsPass(w, gen)
    requires forall j :: 0 < j < k ==> NodeById(h.nodes, order[j]).None?
    requires NodeById(h.nodes, order[k]) == Some(t) && w.registered(t.kind) && t.id == order[k]
    requires FirstBlock(h.nodes, order[k + 1..]).None?
    requires forall e :: e in h.edges && e.target == t.id ==> e.targetPort != ModelNamePort
    requires forall inputs, m :: ModelNamePort !in inputs ==> AnswersOn(w, t, inputs, ctx, m)
    ensures var v := VisitOf(w, h, ctx, t, p);
            && ModelNamePort !in v.inputs && Answers(v)
            && RunForward(w, h, ctx, frame) ==
                Run(frame, h, ctx, p.visits + [v], Ok(Finish(Advance(p, v, v.step.result.value), v.step.result.value)))
  {
    p := ComesTo(w, h, ctx, frame, order, k, gen, t);
    InputsComeFromEdges(p.values, h.edges, t.id, ModelNamePort);
    assert AnswersOn(w, t, ResolveInputs(p.values, h.edges, t.id), ctx, p.messages);
    EndsThere(w, h, ctx, frame, order, k, p, VisitOf(w, h, ctx, t, p));
  }

  lemma LinePasses(w: World, g: string, t: Node, s: string, ctx: Context, frame: Frame) returns (p: Progress)
    requires g != t.id && g != s && t.id != s && !t.kind.Sink? && !t.kind.Block?
    requires LetsPass(w, Node(g, Generator, Absent)) && w.registered(t.kind)
    requires forall inputs, m :: ModelNamePort !in inputs ==> AnswersOn(w, t, inputs, ctx, m)
    ensures var h := Line(g, t, s);
            var v := VisitOf(w, h, ctx, t, p);
            && ModelNamePort !in v.inputs && Answers(v)
            && RunForward(w, h, ctx, frame) ==
                Run(frame, h, ctx, p.visits + [v], Ok(Finish(Advance(p, v, v.step.result.value), v.step.result.value)))
  {
    LineShape(g, t, s);
    var k := LineSchedule(g, t, s);
    forall e | e in Line(g, t, s).edges && e.target == t.id ensures e.targetPort != ModelNamePort {
      LineFeeds(g, t, s, e);
    }
    p := PassesOn(w, Line(g, t, s), ctx, frame, TopoSort.TopoOrder(Line(g, t, s)).value, k,
        Node(g, Generator, Absent), t);
  }

  ghost predicate AnswersOn(w: World, t: Node, inputs: Ports, ctx: Context, m: string) {
    Answers(Visit(t, inputs, m, NodeForward(w, t, inputs, ctx.(messages := m))))
  }

  /** The world that registers every node, lets every leaf pass and serves every
      model under its own name. */
  function OpenWorld(): World {
    World(kind => true,
          (n, inputs, ctx) => Ok(LeafResult(map[], "", "", false, None, None, [], None)),
          (n, call) => Ok(BackwardResult("", "")),
          false, map[], map[],
          name => Ok(Resolution(RealClient(name), name, name)),
          name => Ok(true),
          body => body)
  }

  lemma OpenWorldLetsPass(n: Node)
    ensures LetsPass(OpenWorld(), n)
  {
  }
}
