/** The dataflow graph a virtual model, a personal model or a middleware holds
    (internal/core/model/pipeline_graph.go), with its paths and cycles. */
module Graphs {
  import opened Prelude

  datatype NodeKind =
    | Generator | Sink | Model | ModelFallback | Block | Plugin
    | Value | ModelRef | Compare | Select | Math | Sample | RequestContext | Trace | Note
    | Unknown(name: string)

  /** The JSON payload of a node, decoded for its kind. */
  datatype NodeData =
    | Absent
    | Malformed
    | BlockConfig(message: string)
    | ModelConfig(proxyName: string, passthrough: bool)
    | FallbackConfig(models: seq<string>)
    | Opaque(raw: string)

  datatype Node = Node(id: string, kind: NodeKind, data: NodeData)

  /** A port name; those the engine itself reads have a constructor. */
  datatype Port = RequestPort | ResponsePort | MessagesPort | ModelNamePort | ConditionPort | NamedPort(name: string)

  datatype Edge = Edge(id: string, source: string, sourcePort: Port, target: string, targetPort: Port)

  datatype Graph = Graph(nodes: seq<Node>, edges: seq<Edge>)

  /** The first node carrying an ID. */
  function NodeById(nodes: seq<Node>, id: string): Option<Node> {
    if nodes == [] then None
    else if nodes[0].id == id then Some(nodes[0])
    else NodeById(nodes[1..], id)
  }

  predicate IsTerminalKind(k: NodeKind) {
    k.Model? || k.ModelFallback?
  }

  function Ids(g: Graph): set<string> {
    set n | n in g.nodes :: n.id
  }

  ghost predicate UniqueIds(g: Graph) {
    forall i, j :: 0 <= i < j < |g.nodes| ==> g.nodes[i].id != g.nodes[j].id
  }

  ghost predicate KnownSources(g: Graph) {
    forall e :: e in g.edges ==> e.source in Ids(g)
  }

  ghost predicate KnownTargets(g: Graph) {
    forall e :: e in g.edges ==> e.target in Ids(g)
  }

  ghost predicate WellFormed(g: Graph) {
    UniqueIds(g) && KnownSources(g) && KnownTargets(g)
  }

  ghost predicate HasEdge(g: Graph, a: string, b: string) {
    exists e :: e in g.edges && e.source == a && e.target == b
  }

  ghost predicate IsPath(g: Graph, p: seq<string>) {
    |p| >= 1 && forall i :: 0 <= i < |p| - 1 ==> HasEdge(g, p[i], p[i + 1])
  }

  ghost predicate IsCycle(g: Graph, p: seq<string>) {
    |p| >= 2 && IsPath(g, p) && p[0] == p[|p| - 1]
  }

  ghost predicate Cyclic(g: Graph) {
    exists p :: IsCycle(g, p)
  }

  ghost predicate PathBetween(g: Graph, p: seq<string>, a: string, b: string) {
    |p| >= 2 && IsPath(g, p) && p[0] == a && p[|p| - 1] == b
  }

  /** a feeds b, directly or through other nodes. */
  ghost predicate IsAncestor(g: Graph, a: string, b: string) {
    exists p :: PathBetween(g, p, a, b)
  }

  lemma EdgeIsAncestor(g: Graph, a: string, b: string)
    requires HasEdge(g, a, b)
    ensures IsAncestor(g, a, b)
  {
    assert PathBetween(g, [a, b], a, b);
  }

  lemma AncestorTransitive(g: Graph, a: string, b: string, c: string)
    requires IsAncestor(g, a, b) && HasEdge(g, b, c)
    ensures IsAncestor(g, a, c)
  {
    var p :| PathBetween(g, p, a, b);
    var q := p + [c];
    forall i | 0 <= i < |q| - 1 ensures HasEdge(g, q[i], q[i + 1]) {
      if i < |p| - 1 { assert HasEdge(g, p[i], p[i + 1]); }
    }
    assert PathBetween(g, q, a, c);
  }

  lemma AncestorPrepend(g: Graph, a: string, b: string, c: string)
    requires HasEdge(g, a, b) && (b == c || IsAncestor(g, b, c))
    ensures IsAncestor(g, a, c)
  {
    if b == c {
      EdgeIsAncestor(g, a, b);
    } else {
      var p :| PathBetween(g, p, b, c);
      var q := [a] + p;
      forall i | 0 <= i < |q| - 1 ensures HasEdge(g, q[i], q[i + 1]) {
        if i > 0 { assert HasEdge(g, p[i - 1], p[i]); }
      }
      assert PathBetween(g, q, a, c);
    }
  }

  /** With unique IDs, looking an ID up finds the node that carries it. */
  lemma {:induction false} NodeByIdFinds(nodes: seq<Node>, i: nat)
    requires i < |nodes|
    requires forall a, b :: 0 <= a < b < |nodes| ==> nodes[a].id != nodes[b].id
    ensures NodeById(nodes, nodes[i].id) == Some(nodes[i])
  {
    if i > 0 { NodeByIdFinds(nodes[1..], i - 1); }
  }

  lemma {:induction false} NodeByIdSome(nodes: seq<Node>, id: string)
    ensures NodeById(nodes, id).Some? ==>
              NodeById(nodes, id).value in nodes && NodeById(nodes, id).value.id == id
    ensures NodeById(nodes, id).None? ==> forall n :: n in nodes ==> n.id != id
  {
    if nodes != [] && nodes[0].id != id {
      NodeByIdSome(nodes[1..], id);
      assert forall n :: n in nodes ==> n == nodes[0] || n in nodes[1..];
    }
  }

  ghost predicate FedFrom(g: Graph, from: set<string>, v: string) {
    exists u :: u in from && HasEdge(g, u, v)
  }

  /** Where every vertex of a non-empty finite set has a predecessor in the
      set, walking backwards long enough closes a cycle. */
  lemma StuckMeansCycle(g: Graph, stuck: set<string>)
    requires stuck != {}
    requires forall v {:trigger FedFrom(g, stuck, v)} :: v in stuck ==> FedFrom(g, stuck, v)
    ensures Cyclic(g)
  {
    var v := StuckFeedsItself(g, stuck);
    var p :| PathBetween(g, p, v, v);
    assert IsCycle(g, p);
  }

  lemma StuckFeedsItself(g: Graph, stuck: set<string>) returns (u: string)
    requires stuck != {}
    requires forall v {:trigger FedFrom(g, stuck, v)} :: v in stuck ==> FedFrom(g, stuck, v)
    ensures u in stuck && IsAncestor(g, u, u)
  {
    var v :| v in stuck;
    var p := WalkBack(g, stuck, v, |stuck|);
    var i, j := Pigeonhole(p, stuck);
    var c := p[i..j + 1];
    forall k | 0 <= k < |c| - 1 ensures HasEdge(g, c[k], c[k + 1]) {
      assert HasEdge(g, p[i + k], p[i + k + 1]);
    }
    u := p[i];
    assert PathBetween(g, c, u, u);
  }

  lemma {:induction false} WalkBack(g: Graph, stuck: set<string>, v: string, n: nat) returns (p: seq<string>)
    requires v in stuck
    requires forall v {:trigger FedFrom(g, stuck, v)} :: v in stuck ==> FedFrom(g, stuck, v)
    ensures |p| == n + 1 && IsPath(g, p) && forall x :: x in p ==> x in stuck
    ensures p[|p| - 1] == v
    decreases n
  {
    if n == 0 {
      p := [v];
    } else {
      assert FedFrom(g, stuck, v);
      var u :| u in stuck && HasEdge(g, u, v);
      var q := WalkBack(g, stuck, u, n - 1);
      p := q + [v];
      forall i | 0 <= i < |p| - 1 ensures HasEdge(g, p[i], p[i + 1]) {
        if i < |q| - 1 { assert HasEdge(g, q[i], q[i + 1]); }
      }
    }
  }
}
