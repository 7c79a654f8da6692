/** The scheduler of the forward pass: Kahn's algorithm taking the ready
    non-terminal nodes first (internal/pipeline/engine.go:359-414). */
module TopoSort {
  import opened Prelude
  import opened Graphs

  datatype SortError = CycleDetected

  // ---- The algorithm as a function -------------------------------------

  /** Vertices the algorithm can queue: the nodes and the edge targets. */
  function Vertices(g: Graph): set<string> {
    Ids(g) + Targets(g.edges)
  }

  function Targets(edges: seq<Edge>): set<string> {
    set e | e in edges :: e.target
  }

  function Deg(deg: map<string, int>, v: string): int {
    if v in deg then deg[v] else 0
  }

  /** Edges into v. */
  function InEdges(edges: seq<Edge>, v: string): nat {
    if edges == [] then 0
    else InEdges(edges[..|edges| - 1], v) + (if edges[|edges| - 1].target == v then 1 else 0)
  }

  /** Targets of the edges leaving v, in edge order. */
  function Successors(edges: seq<Edge>, v: string): seq<string> {
    if edges == [] then []
    else
      var e := edges[|edges| - 1];
      Successors(edges[..|edges| - 1], v) + (if e.source == v then [e.target] else [])
  }

  /** The terminal flag of an ID, which the last node carrying it sets. */
  predicate Terminal(nodes: seq<Node>, id: string) {
    nodes != [] &&
    var n := nodes[|nodes| - 1];
    if n.id == id then IsTerminalKind(n.kind) else Terminal(nodes[..|nodes| - 1], id)
  }

  /** Index of the first non-terminal entry of the queue, 0 when there is none. */
  function Pick(nodes: seq<Node>, queue: seq<string>): (k: nat)
    requires queue != []
    ensures k < |queue|
  {
    PickFrom(nodes, queue, 0)
  }

  function PickFrom(nodes: seq<Node>, queue: seq<string>, i: nat): (k: nat)
    requires queue != [] && i <= |queue|
    ensures k < |queue|
    decreases |queue| - i
  {
    if i == |queue| then 0
    else if !Terminal(nodes, queue[i]) then i
    else PickFrom(nodes, queue, i + 1)
  }

  ghost function Positive(deg: map<string, int>): set<string> {
    set v | v in deg && deg[v] > 0
  }

  /** Take the edges to succ away: a vertex whose last one goes is queued. */
  function Relax(deg: map<string, int>, queue: seq<string>, succ: seq<string>): (r: (map<string, int>, seq<string>))
    ensures |r.1| + |Positive(r.0)| <= |queue| + |Positive(deg)|
    decreases succ
  {
    if succ == [] then (deg, queue)
    else
      var v := succ[0];
      var d := Deg(deg, v) - 1;
      var deg' := deg[v := d];
      assert d > 0 ==> Positive(deg') == Positive(deg);
      assert d == 0 ==> Positive(deg') == Positive(deg) - {v} && v in Positive(deg);
      assert d < 0 ==> Positive(deg') == Positive(deg);
      Relax(deg', if d == 0 then queue + [v] else queue, succ[1..])
  }

  /** The scheduling loop, from the state it is in to the final order. */
  function Drain(g: Graph, deg: map<string, int>, queue: seq<string>, order: seq<string>): seq<string>
    decreases |queue| + |Positive(deg)|
  {
    if queue == [] then order
    else
      var k := Pick(g.nodes, queue);
      var next := Relax(deg, queue[..k] + queue[k + 1..], Successors(g.edges, queue[k]));
      Drain(g, next.0, next.1, order + [queue[k]])
  }

  function InitialDegrees(g: Graph): map<string, int> {
    map v | v in Vertices(g) :: InEdges(g.edges, v)
  }

  function InitialQueue(nodes: seq<Node>, deg: map<string, int>): seq<string> {
    if nodes == [] then []
    else
      var n := nodes[|nodes| - 1];
      InitialQueue(nodes[..|nodes| - 1], deg) + (if Deg(deg, n.id) == 0 then [n.id] else [])
  }

  function Scheduled(g: Graph): seq<string> {
    Drain(g, InitialDegrees(g), InitialQueue(g.nodes, InitialDegrees(g)), [])
  }

  function TopoOrder(g: Graph): Result<seq<string>, SortError> {
    var order := Scheduled(g);
    if |order| != |g.nodes| then Err(CycleDetected) else Ok(order)
  }

  // ---- What a schedule is ----------------------------------------------

  /** Edges into v whose source is still to run. */
  function Pending(edges: seq<Edge>, done: seq<string>, v: string): nat {
    if edges == [] then 0
    else
      var e := edges[|edges| - 1];
      Pending(edges[..|edges| - 1], done, v) + (if e.target == v && e.source !in done then 1 else 0)
  }

  ghost predicate IsPermutation(g: Graph, order: seq<string>) {
    Distinct(order) && Elements(order) == Ids(g)
  }

  /** Every edge goes forward. */
  ghost predicate RespectsEdges(g: Graph, order: seq<string>) {
    forall e, k :: e in g.edges && 0 <= k < |order| && order[k] == e.target ==> e.source in order[..k]
  }

  ghost predicate Guard(g: Graph, v: string) {
    v in Ids(g) && !Terminal(g.nodes, v) &&
    forall u :: u in Ids(g) && IsAncestor(g, u, v) ==> !Terminal(g.nodes, u)
  }

  /** A non-terminal node that waits on no terminal node runs before every
      terminal node. */
  ghost predicate GuardsFirst(g: Graph, order: seq<string>) {
    forall i, j :: 0 <= i < |order| && 0 <= j < |order| && Terminal(g.nodes, order[i]) && Guard(g, order[j])
                   ==> j < i
  }

  ghost predicate IsSchedule(g: Graph, order: seq<string>) {
    IsPermutation(g, order) && RespectsEdges(g, order) && GuardsFirst(g, order)
  }

  // ---- Counting lemmas -------------------------------------------------

  function Count(s: seq<string>, v: string): nat {
    if s == [] then 0 else (if s[0] == v then 1 else 0) + Count(s[1..], v)
  }

  lemma {:induction false} CountAppend(s: seq<string>, x: string, v: string)
    ensures Count(s + [x], v) == Count(s, v) + (if x == v then 1 else 0)
  {
    if s == [] {
      assert s + [x] == [x];
    } else {
      assert (s + [x])[1..] == s[1..] + [x];
      CountAppend(s[1..], x, v);
    }
  }

  lemma {:induction false} PendingAfter(edges: seq<Edge>, done: seq<string>, cur: string, v: string)
    requires cur !in done
    ensures Pending(edges, done + [cur], v) == Pending(edges, done, v) - Count(Successors(edges, cur), v)
  {
    if edges != [] {
      var init, e := edges[..|edges| - 1], edges[|edges| - 1];
      PendingAfter(init, done, cur, v);
      if e.source == cur {
        CountAppend(Successors(init, cur), e.target, v);
      } else {
        assert Successors(edges, cur) == Successors(init, cur);
      }
    }
  }

  lemma {:induction false} PendingNothingDone(edges: seq<Edge>, v: string)
    ensures Pending(edges, [], v) == InEdges(edges, v)
  {
    if edges != [] { PendingNothingDone(edges[..|edges| - 1], v); }
  }

  lemma {:induction false} PendingZero(edges: seq<Edge>, done: seq<string>, v: string)
    ensures Pending(edges, done, v) == 0 <==> forall e :: e in edges && e.target == v ==> e.source in done
  {
    if edges != [] {
      var init, e := edges[..|edges| - 1], edges[|edges| - 1];
      PendingZero(init, done, v);
      assert forall f :: f in edges <==> f in init || f == e;
    }
  }

  lemma {:induction false} SuccessorsAreTargets(g: Graph, edges: seq<Edge>, cur: string)
    requires forall e :: e in edges ==> e in g.edges
    ensures forall v :: v in Successors(edges, cur) ==> v in Vertices(g)
  {
    if edges != [] {
      assert edges[|edges| - 1] in edges;
      SuccessorsAreTargets(g, edges[..|edges| - 1], cur);
    }
  }

  /** What one relaxation does: degrees drop by the number of edges taken away,
      and the vertices reaching zero are queued once. */
  lemma {:induction false} RelaxSpec(deg: map<string, int>, queue: seq<string>, succ: seq<string>)
    returns (added: seq<string>)
    requires forall v :: v in succ ==> v in deg
    ensures var r := Relax(deg, queue, succ);
            && r.0.Keys == deg.Keys
            && (forall v :: v in deg ==> r.0[v] == deg[v] - Count(succ, v))
            && r.1 == queue + added
            && Distinct(added)
            && (forall v :: v in added <==> v in deg && 0 < deg[v] <= Count(succ, v))
    decreases succ
  {
    if succ == [] {
      added := [];
    } else {
      var v := succ[0];
      var d := Deg(deg, v) - 1;
      var rest := RelaxSpec(deg[v := d], if d == 0 then queue + [v] else queue, succ[1..]);
      added := if d == 0 then [v] + rest else rest;
      assert d == 0 ==> queue + added == queue + [v] + rest;
    }
  }

  lemma {:induction false} PickSpec(nodes: seq<Node>, queue: seq<string>, i: nat)
    requires queue != [] && i <= |queue|
    requires forall j :: 0 <= j < i ==> Terminal(nodes, queue[j])
    ensures Terminal(nodes, queue[PickFrom(nodes, queue, i)]) ==>
              forall v :: v in queue ==> Terminal(nodes, v)
    decreases |queue| - i
  {
    if i < |queue| && Terminal(nodes, queue[i]) { PickSpec(nodes, queue, i + 1); }
  }

  // ---- The loop invariant ----------------------------------------------

  ghost predicate Ready(g: Graph, done: seq<string>, v: string) {
    v in Vertices(g) && Pending(g.edges, done, v) == 0
  }

  /** When order[k] was picked although terminal, no non-terminal vertex was
      ready. */
  ghost predicate Greedy(g: Graph, order: seq<string>) {
    forall k, v | 0 <= k < |order| && Terminal(g.nodes, order[k]) && !Terminal(g.nodes, v) && v !in order[..k]
      :: !Ready(g, order[..k], v)
  }

  ghost predicate Invariant(g: Graph, deg: map<string, int>, queue: seq<string>, order: seq<string>) {
    && deg.Keys == Vertices(g)
    && (forall v :: v in deg ==> deg[v] == Pending(g.edges, order, v))
    && Distinct(order + queue)
    && (forall v :: v in order + queue <==> Ready(g, order, v))
    && RespectsEdges(g, order)
    && Greedy(g, order)
  }

  lemma RespectsEdgesStep(g: Graph, order: seq<string>, cur: string)
    requires RespectsEdges(g, order) && Pending(g.edges, order, cur) == 0
    ensures RespectsEdges(g, order + [cur])
  {
    PendingZero(g.edges, order, cur);
    var next := order + [cur];
    forall e, k | e in g.edges && 0 <= k < |next| && next[k] == e.target ensures e.source in next[..k] {
      if k < |order| {
        assert next[..k] == order[..k] && order[k] == e.target;
      } else {
        assert next[..k] == order;
      }
    }
  }

  lemma GreedyStep(g: Graph, order: seq<string>, cur: string)
    requires Greedy(g, order)
    requires Terminal(g.nodes, cur) ==>
               forall v :: !Terminal(g.nodes, v) && v !in order ==> !Ready(g, order, v)
    ensures Greedy(g, order + [cur])
  {
    var next := order + [cur];
    forall k, v | 0 <= k < |next| && Terminal(g.nodes, next[k]) && !Terminal(g.nodes, v) && v !in next[..k]
      ensures !Ready(g, next[..k], v)
    {
      if k < |order| {
        assert next[..k] == order[..k] && next[k] == order[k];
      } else {
        assert next[..k] == order;
      }
    }
  }

  lemma DistinctStep(order: seq<string>, queue: seq<string>, k: nat, added: seq<string>)
    requires k < |queue| && Distinct(order + queue) && Distinct(added)
    requires forall v :: v in added ==> v !in order + queue
    ensures Distinct(order + [queue[k]] + (queue[..k] + queue[k + 1..] + added))
    ensures queue[k] !in order
  {
    var all := order + queue;
    var n, m := |order|, |all|;
    assert all[n + k] == queue[k];
    var next := order + [queue[k]] + (queue[..k] + queue[k + 1..] + added);
    // next permutes all, then lists added
    var at := (i: int) => if i == n then n + k else if n < i <= n + k then i - 1 else i;
    assert forall i :: 0 <= i < m ==> 0 <= at(i) < m && next[i] == all[at(i)];
    assert forall i :: m <= i < |next| ==> next[i] == added[i - m];
    forall i, j | 0 <= i < j < |next| ensures next[i] != next[j] {
      if j < m {
        assert at(i) != at(j);
      } else if i < m {
        assert next[i] == all[at(i)] && next[j] == added[j - m];
        assert all[at(i)] in all && added[j - m] in added;
      }
    }
    forall i | 0 <= i < n ensures order[i] != queue[k] {
      assert all[i] == order[i] && all[i] != all[n + k];
    }
  }

  lemma MembersStep(order: seq<string>, queue: seq<string>, k: nat, added: seq<string>, v: string)
    requires k < |queue|
    ensures v in order + [queue[k]] + (queue[..k] + queue[k + 1..] + added) <==> v in order + queue || v in added
  {
    assert queue == queue[..k] + [queue[k]] + queue[k + 1..];
  }

  /** After one turn, what is scheduled or queued is again what is ready. */
  lemma ReadyStep(g: Graph, order: seq<string>, queue: seq<string>, k: nat, added: seq<string>)
    requires k < |queue| && queue[k] !in order
    requires forall v :: v in order + queue <==> Ready(g, order, v)
    requires forall v :: v in added <==>
                           v in Vertices(g) && 0 < Pending(g.edges, order, v) <= Count(Successors(g.edges, queue[k]), v)
    ensures forall v :: v in order + [queue[k]] + (queue[..k] + queue[k + 1..] + added)
                        <==> Ready(g, order + [queue[k]], v)
  {
    forall v ensures v in order + [queue[k]] + (queue[..k] + queue[k + 1..] + added)
                     <==> Ready(g, order + [queue[k]], v)
    {
      PendingAfter(g.edges, order, queue[k], v);
      MembersStep(order, queue, k, added, v);
    }
  }

  /** One turn of the loop keeps the invariant. */
  lemma InvariantStep(g: Graph, deg: map<string, int>, queue: seq<string>, order: seq<string>)
    requires Invariant(g, deg, queue, order) && queue != []
    ensures var k := Pick(g.nodes, queue);
            var next := Relax(deg, queue[..k] + queue[k + 1..], Successors(g.edges, queue[k]));
            Invariant(g, next.0, next.1, order + [queue[k]])
  {
    var k := Pick(g.nodes, queue);
    var cur := queue[k];
    var rest := queue[..k] + queue[k + 1..];
    var succ := Successors(g.edges, cur);
    SuccessorsAreTargets(g, g.edges, cur);
    var added := RelaxSpec(deg, rest, succ);
    var next := Relax(deg, rest, succ);
    assert (order + queue)[|order| + k] == cur;
    assert Ready(g, order, cur);
    forall v | v in added ensures v !in order + queue {
      assert !Ready(g, order, v);
    }
    DistinctStep(order, queue, k, added);
    ReadyStep(g, order, queue, k, added);
    assert order + [cur] + next.1 == order + [cur] + (queue[..k] + queue[k + 1..] + added);
    forall v | v in next.0 ensures next.0[v] == Pending(g.edges, order + [cur], v) {
      PendingAfter(g.edges, order, cur, v);
    }
    RespectsEdgesStep(g, order, cur);
    assert Greedy(g, order + [cur]) by {
      PickSpec(g.nodes, queue, 0);
      assert forall v :: v in order + queue <==> v in order || v in queue;
      GreedyStep(g, order, cur);
    }
  }

  lemma {:induction false} InitialQueueSpec(nodes: seq<Node>, deg: map<string, int>)
    requires forall i, j :: 0 <= i < j < |nodes| ==> nodes[i].id != nodes[j].id
    ensures Distinct(InitialQueue(nodes, deg))
    ensures forall v :: v in InitialQueue(nodes, deg) <==>
                          (exists i :: 0 <= i < |nodes| && nodes[i].id == v) && Deg(deg, v) == 0
  {
    if nodes != [] {
      var init, n := nodes[..|nodes| - 1], nodes[|nodes| - 1];
      InitialQueueSpec(init, deg);
      var q := InitialQueue(init, deg);
      assert forall i :: 0 <= i < |init| ==> init[i] == nodes[i];
      forall v ensures v in InitialQueue(nodes, deg) <==>
                       (exists i :: 0 <= i < |nodes| && nodes[i].id == v) && Deg(deg, v) == 0
      {
        assert v in InitialQueue(nodes, deg) <==> v in q || (v == n.id && Deg(deg, v) == 0);
        if exists i :: 0 <= i < |nodes| && nodes[i].id == v {
          var i :| 0 <= i < |nodes| && nodes[i].id == v;
          assert i < |init| ==> init[i].id == v;
        }
      }
    }
  }

  lemma {:induction false} TargetsHaveInEdges(edges: seq<Edge>, e: Edge)
    requires e in edges
    ensures InEdges(edges, e.target) > 0
  {
    if edges[|edges| - 1] != e { TargetsHaveInEdges(edges[..|edges| - 1], e); }
  }

  lemma InvariantInitially(g: Graph)
    requires UniqueIds(g)
    ensures Invariant(g, InitialDegrees(g), InitialQueue(g.nodes, InitialDegrees(g)), [])
  {
    var deg := InitialDegrees(g);
    var q := InitialQueue(g.nodes, deg);
    forall v ensures Pending(g.edges, [], v) == InEdges(g.edges, v) { PendingNothingDone(g.edges, v); }
    InitialQueueSpec(g.nodes, deg);
    assert [] + q == q;
    forall v ensures v in q <==> Ready(g, [], v) {
      if v in Vertices(g) && v !in Ids(g) {
        var e :| e in g.edges && e.target == v;
        TargetsHaveInEdges(g.edges, e);
      }
      if v in Ids(g) {
        var n :| n in g.nodes && n.id == v;
        var i :| 0 <= i < |g.nodes| && g.nodes[i] == n;
        assert g.nodes[i].id == v;
      }
    }
  }

  /** The final order: what was scheduled is exactly what can be. */
  ghost predicate Drained(g: Graph, order: seq<string>) {
    && Distinct(order)
    && (forall v :: v in order <==> Ready(g, order, v))
    && RespectsEdges(g, order)
    && Greedy(g, order)
  }

  lemma {:induction false} DrainKeeps(g: Graph, deg: map<string, int>, queue: seq<string>, order: seq<string>)
    requires Invariant(g, deg, queue, order)
    ensures Drained(g, Drain(g, deg, queue, order))
    decreases |queue| + |Positive(deg)|
  {
    if queue == [] {
      assert order + queue == order;
    } else {
      var k := Pick(g.nodes, queue);
      var next := Relax(deg, queue[..k] + queue[k + 1..], Successors(g.edges, queue[k]));
      InvariantStep(g, deg, queue, order);
      DrainKeeps(g, next.0, next.1, order + [queue[k]]);
    }
  }

  lemma ScheduledIsDrained(g: Graph)
    requires UniqueIds(g)
    ensures Drained(g, Scheduled(g))
  {
    InvariantInitially(g);
    DrainKeeps(g, InitialDegrees(g), InitialQueue(g.nodes, InitialDegrees(g)), []);
  }

  // ---- Main results ----------------------------------------------------

  lemma IdsCardinality(g: Graph)
    requires UniqueIds(g)
    ensures |Ids(g)| == |g.nodes|
  {
    var ids := seq(|g.nodes|, i requires 0 <= i < |g.nodes| => g.nodes[i].id);
    DistinctCardinality(ids);
    assert Elements(ids) == Ids(g) by {
      forall v | v in Ids(g) ensures v in ids {
        var i :| 0 <= i < |g.nodes| && g.nodes[i].id == v;
        assert ids[i] == v;
      }
    }
  }

  /** Along a path the position in the order only grows. */
  lemma {:induction false} PathAdvances(g: Graph, order: seq<string>, p: seq<string>) returns (i: nat, j: nat)
    requires Distinct(order) && RespectsEdges(g, order) && IsPath(g, p)
    requires forall v :: v in p ==> v in order
    ensures i <= j < |order| && order[i] == p[0] && order[j] == p[|p| - 1]
    ensures |p| >= 2 ==> i < j
  {
    if |p| == 1 {
      assert p[0] in p;
      i :| 0 <= i < |order| && order[i] == p[0];
      j := i;
    } else {
      var q := p[..|p| - 1];
      forall k | 0 <= k < |q| - 1 ensures HasEdge(g, q[k], q[k + 1]) { assert HasEdge(g, p[k], p[k + 1]); }
      var m;
      i, m := PathAdvances(g, order, q);
      assert HasEdge(g, p[|p| - 2], p[|p| - 1]);
      assert p[|p| - 1] in p;
      j :| 0 <= j < |order| && order[j] == p[|p| - 1];
      assert order[m] in order[..j];
    }
  }

  /** Neither v nor anything that feeds it is unknown to the sort or feeds itself. */
  ghost predicate Schedulable(g: Graph, v: string) {
    forall u :: u == v || IsAncestor(g, u, v) ==> u in Vertices(g) && !IsAncestor(g, u, u)
  }

  /** What feeds a scheduled vertex is scheduled. */
  lemma {:induction false} PathScheduled(g: Graph, order: seq<string>, p: seq<string>)
    requires RespectsEdges(g, order) && IsPath(g, p) && p[|p| - 1] in order
    ensures forall v :: v in p ==> v in order
  {
    if |p| > 1 {
      var q := p[..|p| - 1];
      assert HasEdge(g, p[|p| - 2], p[|p| - 1]);
      var k :| 0 <= k < |order| && order[k] == p[|p| - 1];
      assert p[|p| - 2] in order[..k];
      forall i | 0 <= i < |q| - 1 ensures HasEdge(g, q[i], q[i + 1]) { assert HasEdge(g, p[i], p[i + 1]); }
      PathScheduled(g, order, q);
      assert forall v :: v in p ==> v in q || v == p[|p| - 1];
    }
  }

  lemma ScheduledFeedsNotItself(g: Graph, order: seq<string>, u: string)
    requires Drained(g, order) && u in order
    ensures u in Vertices(g) && !IsAncestor(g, u, u)
  {
    assert Ready(g, order, u);
    if IsAncestor(g, u, u) {
      var p :| PathBetween(g, p, u, u);
      PathScheduled(g, order, p);
      var i, j := PathAdvances(g, order, p);
      assert false;
    }
  }

  /** The vertices that hold v back: v and what feeds it, unscheduled. */
  ghost function HeldBack(g: Graph, order: seq<string>, v: string): set<string> {
    set u | u in Vertices(g) && u !in order && (u == v || IsAncestor(g, u, v))
  }

  lemma HeldBackIsFed(g: Graph, order: seq<string>, v: string, u: string)
    requires Drained(g, order) && Schedulable(g, v) && u in HeldBack(g, order, v)
    ensures FedFrom(g, HeldBack(g, order, v), u)
  {
    assert !Ready(g, order, u);
    PendingZero(g.edges, order, u);
    var e :| e in g.edges && e.target == u && e.source !in order;
    assert HasEdge(g, e.source, u);
    AncestorPrepend(g, e.source, u, v);
  }

  /** Which vertices are scheduled, read off the graph. */
  lemma ScheduledIff(g: Graph, v: string)
    requires UniqueIds(g)
    ensures v in Scheduled(g) <==> Schedulable(g, v)
  {
    ScheduledIsDrained(g);
    var order := Scheduled(g);
    if v in order {
      forall u | u == v || IsAncestor(g, u, v) ensures u in Vertices(g) && !IsAncestor(g, u, u) {
        if u != v {
          var p :| PathBetween(g, p, u, v);
          PathScheduled(g, order, p);
          assert p[0] in p;
        }
        ScheduledFeedsNotItself(g, order, u);
      }
    } else if Schedulable(g, v) {
      var stuck := HeldBack(g, order, v);
      assert v in stuck;
      forall u | u in stuck ensures FedFrom(g, stuck, u) { HeldBackIsFed(g, order, v, u); }
      var u := StuckFeedsItself(g, stuck);
    }
  }

  /** The sort succeeds exactly when as many vertices can be scheduled as there
      are nodes, whichever they are. */
  lemma SortSucceedsIff(g: Graph)
    requires UniqueIds(g)
    ensures TopoOrder(g).Ok? <==> |set v | v in Vertices(g) && Schedulable(g, v)| == |g.nodes|
    ensures TopoOrder(g).Ok? ==> forall v :: v in TopoOrder(g).value <==> Schedulable(g, v)
  {
    var order := Scheduled(g);
    forall v ensures v in order <==> Schedulable(g, v) { ScheduledIff(g, v); }
    ScheduledIsDrained(g);
    DistinctCardinality(order);
    assert Elements(order) == set v | v in Vertices(g) && Schedulable(g, v);
  }

  lemma FullOrderMeansAcyclic(g: Graph, order: seq<string>)
    requires WellFormed(g) && IsPermutation(g, order) && RespectsEdges(g, order)
    ensures !Cyclic(g)
  {
    if Cyclic(g) {
      var p :| IsCycle(g, p);
      forall v | v in p ensures v in order {
        var k :| 0 <= k < |p| && p[k] == v;
        var l := if k < |p| - 1 then k else 0;
        assert HasEdge(g, p[l], p[l + 1]);
        assert v in Elements(order);
      }
      var i, j := PathAdvances(g, order, p);
      assert false;
    }
  }

  lemma StuckVertexIsFed(g: Graph, order: seq<string>, v: string)
    requires WellFormed(g) && Drained(g, order) && v in Ids(g) && v !in order
    ensures FedFrom(g, Ids(g) - Elements(order), v)
  {
    assert !Ready(g, order, v);
    PendingZero(g.edges, order, v);
    var e :| e in g.edges && e.target == v && e.source !in order;
    assert HasEdge(g, e.source, v);
  }

  /** Sorting fails exactly on the graphs that hold a cycle. */
  lemma SortFailsIffCyclic(g: Graph)
    requires WellFormed(g)
    ensures TopoOrder(g).Err? <==> Cyclic(g)
  {
    ScheduledIsDrained(g);
    var order := Scheduled(g);
    IdsCardinality(g);
    DistinctCardinality(order);
    assert Elements(order) <= Ids(g);
    SubsetCardinality(Elements(order), Ids(g));
    if Elements(order) == Ids(g) {
      FullOrderMeansAcyclic(g, order);
    } else {
      var stuck := Ids(g) - Elements(order);
      forall v | v in stuck ensures FedFrom(g, stuck, v) { StuckVertexIsFed(g, order, v); }
      assert stuck != {} by {
        forall v | v in Ids(g) && stuck == {} ensures v in Elements(order) { assert v !in stuck; }
      }
      StuckMeansCycle(g, stuck);
    }
  }

  lemma GuardSource(g: Graph, e: Edge, v: string)
    requires WellFormed(g) && e in g.edges && e.target == v && Guard(g, v)
    ensures Guard(g, e.source)
  {
    assert HasEdge(g, e.source, v);
    EdgeIsAncestor(g, e.source, v);
    forall u | u in Ids(g) && IsAncestor(g, u, e.source) ensures !Terminal(g.nodes, u) {
      AncestorTransitive(g, u, e.source, v);
    }
  }

  lemma {:induction false} GuardBefore(g: Graph, order: seq<string>, i: nat, j: nat)
    requires WellFormed(g) && Drained(g, order)
    requires i < |order| && j < |order| && Terminal(g.nodes, order[i]) && Guard(g, order[j])
    ensures j < i
    decreases j
  {
    if i <= j {
      var v := order[j];
      forall e | e in g.edges && e.target == v ensures e.source in order[..i] {
        assert e.source in order[..j];
        var k :| 0 <= k < j && order[k] == e.source;
        GuardSource(g, e, v);
        GuardBefore(g, order, i, k);
      }
      PendingZero(g.edges, order[..i], v);
      assert v !in order[..i];
      assert Ready(g, order[..i], v);
      assert false;
    }
  }

  /** A sorted graph is a permutation of its nodes that respects every edge
      and runs the guards before the terminal nodes. */
  lemma SortedGraphIsScheduled(g: Graph)
    requires WellFormed(g) && TopoOrder(g).Ok?
    ensures IsSchedule(g, TopoOrder(g).value)
  {
    ScheduledIsDrained(g);
    var order := Scheduled(g);
    IdsCardinality(g);
    DistinctCardinality(order);
    SubsetCardinality(Elements(order), Ids(g));
    forall i, j | 0 <= i < |order| && 0 <= j < |order| && Terminal(g.nodes, order[i]) && Guard(g, order[j])
      ensures j < i
    {
      GuardBefore(g, order, i, j);
    }
  }

  /** On a graph whose edges leave known nodes, a successful sort covers the
      nodes exactly when no edge dangles: an unknown target takes the place of
      a node in the count the cycle test relies on. */
  lemma SortCoversIffNoDanglingEdge(g: Graph)
    requires UniqueIds(g) && KnownSources(g) && TopoOrder(g).Ok?
    ensures IsPermutation(g, TopoOrder(g).value) <==> KnownTargets(g)
  {
    ScheduledIsDrained(g);
    var order := Scheduled(g);
    IdsCardinality(g);
    DistinctCardinality(order);
    if KnownTargets(g) {
      SubsetCardinality(Elements(order), Ids(g));
    } else if Elements(order) == Ids(g) {
      var e :| e in g.edges && e.target !in Ids(g);
      forall f | f in g.edges && f.target == e.target ensures f.source in order {
        assert f.source in Elements(order);
      }
      PendingZero(g.edges, order, e.target);
      assert Ready(g, order, e.target);
      assert false;
    }
  }

  // ---- The algorithm as it runs ----------------------------------------

  /** Sorts with in-degree, adjacency and queue updated in place; what is
      proved of the result is proved of TopoOrder. */
  method Sort(g: Graph) returns (result: Result<seq<string>, SortError>)
    ensures result == TopoOrder(g)
    ensures WellFormed(g) ==> (result.Err? <==> Cyclic(g))
    ensures WellFormed(g) && result.Ok? ==> IsSchedule(g, result.value)
  {
    var inDegree := InDegrees(g);
    var adj := Adjacency(g);
    var queue := StartQueue(g, inDegree);
    var order: seq<string> := [];
    while queue != []
      invariant Drain(g, inDegree, queue, order) == Scheduled(g)
      decreases |queue| + |Positive(inDegree)|
    {
      var pick := PickNext(g, queue);
      var cur := queue[pick];
      var next := if cur in adj then adj[cur] else [];
      inDegree, queue := RelaxAll(inDegree, queue[..pick] + queue[pick + 1..], next);
      order := order + [cur];
    }
    if WellFormed(g) {
      SortFailsIffCyclic(g);
      if |order| == |g.nodes| { SortedGraphIsScheduled(g); }
    }
    if |order| != |g.nodes| { return Err(CycleDetected); }
    return Ok(order);
  }

  method InDegrees(g: Graph) returns (inDegree: map<string, int>)
    ensures inDegree == InitialDegrees(g)
  {
    inDegree := ZeroDegrees(g.nodes);
    for i := 0 to |g.edges|
      invariant inDegree.Keys == Ids(g) + Targets(g.edges[..i])
      invariant forall v :: v in inDegree ==> inDegree[v] == InEdges(g.edges[..i], v)
      invariant forall v :: v !in inDegree ==> InEdges(g.edges[..i], v) == 0
    {
      var e := g.edges[i];
      TargetsGrow(g.edges, i);
      assert g.edges[..i + 1][..i] == g.edges[..i];
      inDegree := inDegree[e.target := Deg(inDegree, e.target) + 1];
    }
    assert g.edges[..|g.edges|] == g.edges;
  }

  method ZeroDegrees(nodes: seq<Node>) returns (inDegree: map<string, int>)
    ensures inDegree.Keys == set n | n in nodes :: n.id
    ensures forall v :: v in inDegree ==> inDegree[v] == 0
  {
    inDegree := map[];
    for i := 0 to |nodes|
      invariant forall v :: v in inDegree ==> inDegree[v] == 0 && exists n :: n in nodes && n.id == v
      invariant forall j :: 0 <= j < i ==> nodes[j].id in inDegree
    {
      inDegree := inDegree[nodes[i].id := 0];
    }
  }

  lemma TargetsGrow(edges: seq<Edge>, i: nat)
    requires i < |edges|
    ensures Targets(edges[..i + 1]) == Targets(edges[..i]) + {edges[i].target}
  {
    assert edges[..i + 1] == edges[..i] + [edges[i]];
  }

  method Adjacency(g: Graph) returns (adj: map<string, seq<string>>)
    ensures forall v :: (if v in adj then adj[v] else []) == Successors(g.edges, v)
  {
    adj := map[];
    for i := 0 to |g.nodes|
      invariant forall v :: v in adj ==> adj[v] == []
    {
      adj := adj[g.nodes[i].id := []];
    }
    for i := 0 to |g.edges|
      invariant forall v :: v in adj ==> adj[v] == Successors(g.edges[..i], v)
      invariant forall v :: v !in adj ==> Successors(g.edges[..i], v) == []
    {
      var e := g.edges[i];
      assert g.edges[..i + 1][..i] == g.edges[..i];
      adj := adj[e.source := (if e.source in adj then adj[e.source] else []) + [e.target]];
    }
    assert g.edges[..|g.edges|] == g.edges;
  }

  method StartQueue(g: Graph, inDegree: map<string, int>) returns (queue: seq<string>)
    ensures queue == InitialQueue(g.nodes, inDegree)
  {
    queue := [];
    for i := 0 to |g.nodes|
      invariant queue == InitialQueue(g.nodes[..i], inDegree)
    {
      assert g.nodes[..i + 1][..i] == g.nodes[..i];
      if Deg(inDegree, g.nodes[i].id) == 0 { queue := queue + [g.nodes[i].id]; }
    }
    assert g.nodes[..|g.nodes|] == g.nodes;
  }

  method PickNext(g: Graph, queue: seq<string>) returns (pick: nat)
    requires queue != []
    ensures pick == Pick(g.nodes, queue)
  {
    pick := 0;
    var i := 0;
    while i < |queue|
      invariant 0 <= i <= |queue| && pick == 0
      invariant Pick(g.nodes, queue) == PickFrom(g.nodes, queue, i)
    {
      if !Terminal(g.nodes, queue[i]) {
        pick := i;
        break;
      }
      i := i + 1;
    }
  }

  method RelaxAll(deg: map<string, int>, ready: seq<string>, next: seq<string>)
    returns (inDegree: map<string, int>, queue: seq<string>)
    ensures (inDegree, queue) == Relax(deg, ready, next)
  {
    inDegree, queue := deg, ready;
    for j := 0 to |next|
      invariant Relax(inDegree, queue, next[j..]) == Relax(deg, ready, next)
    {
      inDegree := inDegree[next[j] := Deg(inDegree, next[j]) - 1];
      if inDegree[next[j]] == 0 { queue := queue + [next[j]]; }
    }
  }
}
