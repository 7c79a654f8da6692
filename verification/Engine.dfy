/** The forward pass over nested pipelines: the graph interpreter of
    internal/pipeline/engine.go with the model, model_fallback and block nodes
    it recurses through (model_executor.go, model_fallback_executor.go,
    block_executor.go, access.go, value_context.go, executor.go).

    Besides its result, a run returns the tree of the calls it made; what is
    proved of whole nested runs is stated on that tree. */
module Engine {
  import opened Prelude
  import opened Graphs
  import opened ModelNames
  import TopoSort

  // ---- Data ------------------------------------------------------------

  /** A value on a port. A number computed out of range is not finite. */
  datatype Value = Text(s: string) | Number(n: real) | NotFinite | Flag(b: bool) | Json(raw: string)

  type Ports = map<Port, Value>

  datatype VirtualModel = VirtualModel(id: string, owner: string, graph: Option<Graph>)

  datatype Middleware = Middleware(name: string, org: string, graph: Option<Graph>)

  /** Key of a virtual model in the visited set, and owner of secrets: the
      personal ones carry a "~:" prefix in the source. */
  datatype Key = OrgKey(id: string) | PersonalKey(id: string)

  /** Per-request state handed down by value through nested runs. */
  datatype Context = Context(
    secretScope: Key,
    orgSlug: string,
    teamSlug: string,
    userId: string,
    checked: bool,              // an access checker is installed
    delegated: set<string>,     // reference keys the running graph delegates
    body: string,
    messages: string,
    bodyMessages: string,
    visited: set<Key>,       // keys of the virtual models entered
    personalStore: bool,        // a personal model store is installed
    target: string,
    forcePassthrough: bool,
    pending: seq<Middleware>)

  datatype Fault =
    | InvalidGraph | UnsortedGraph | NoExecutor(id: string) | NoTerminal | PendingBlock(id: string)
    | Rejected(reason: string) | NodeFailed(reason: string) | BadNodeData(id: string) | BadCondition(id: string)
    | NoTarget | NoModelName | NoCandidate(id: string) | BadModelName(name: string)
    | AccessDenied(name: string) | AccessFailed(reason: string)
    | ModelCycle(name: string) | NoPipeline(name: string) | Unresolved(reason: string)

  datatype Client =
    | RealClient(name: string)
    | FallbackClient(candidates: seq<string>, ctx: Context)
    | PluginClient(id: string)
    | Decorated(inner: Client, wrapper: string)

  datatype Resolution = Resolution(client: Client, model: string, modelId: string)

  /** What an executor other than model, model_fallback and block answers. */
  datatype LeafResult = LeafResult(
    outputs: Ports,
    state: string,
    pluginContext: string,
    noRewrite: bool,
    rejected: Option<string>,
    client: Option<Resolution>,
    tools: seq<string>,
    decorator: Option<string>)

  datatype ExecutedNode = ExecutedNode(node: Node, state: string, pluginContext: string, noRewrite: bool)

  datatype ForwardResult = ForwardResult(
    outputs: Ports,
    state: string,
    pluginContext: string,
    noRewrite: bool,
    rejected: Option<string>,
    client: Option<Resolution>,
    outcome: Option<Client>,    // reports the model that answered
    tools: seq<string>,
    decorator: Option<string>,
    nested: seq<ExecutedNode>)

  datatype ForwardExecution = ForwardExecution(
    client: Client,
    model: string,
    modelId: string,
    executed: seq<ExecutedNode>,
    messages: string,
    tools: seq<string>,
    outcome: Option<Client>)

  /** Everything the engine does not define: the other executors, the stores,
      the access checker and the model router, over one snapshot. */
  datatype World = World(
    registered: NodeKind -> bool,
    leaf: (Node, Ports, Context) -> Result<LeafResult, Fault>,
    backward: (ExecutedNode, BackwardCall) -> Result<BackwardResult, string>,
    orgStore: bool,
    orgModels: map<string, VirtualModel>,
    personalModels: map<string, VirtualModel>,
    resolveReal: string -> Result<Resolution, Fault>,
    canUse: string -> Result<bool, Fault>,
    bodyMessagesOf: string -> string)

  datatype BackwardCall = BackwardCall(model: string, response: string, toolCalls: string, hadError: bool)

  datatype BackwardResult = BackwardResult(response: string, toolCalls: string)

  // ---- The tree of calls -----------------------------------------------

  /** How a graph came to run. */
  datatype Frame =
    | Root
    | OfMiddleware(name: string)
    | OfOrgModel(name: string, key: Key)
    | OfPersonalModel(name: string, key: Key)

  /** One forward pass over a graph: how it was entered, the calls it made and
      what it returned. */
  datatype Run = Run(frame: Frame, graph: Graph, ctx: Context, visits: seq<Visit>,
                     result: Result<ForwardExecution, Fault>)

  /** One call of a node executor: what entered it, what it answered, the real
      models it resolved and the graph it ran. */
  datatype Visit = Visit(node: Node, inputs: Ports, before: string, step: Step)

  datatype Step = Step(result: Result<ForwardResult, Fault>, resolved: seq<string>, nested: Option<Run>)

  // ---- The value store (value_context.go) ------------------------------

  type Store = map<string, Ports>

  function SetPort(values: Store, id: string, port: Port, v: Value): Store {
    values[id := (if id in values then values[id] else map[])[port := v]]
  }

  function SetPorts(values: Store, id: string, outputs: Ports): Store {
    if outputs == map[] then values
    else values[id := (if id in values then values[id] else map[]) + outputs]
  }

  function GetPort(values: Store, id: string, port: Port): Option<Value> {
    if id in values && port in values[id] then Some(values[id][port]) else None
  }

  function ResolveInputs(values: Store, edges: seq<Edge>, id: string): Ports {
    if edges == [] then map[]
    else
      var e := edges[|edges| - 1];
      var inputs := ResolveInputs(values, edges[..|edges| - 1], id);
      var v := GetPort(values, e.source, e.sourcePort);
      if e.target == id && v.Some? then inputs[e.targetPort := v.value] else inputs
  }

  function Seed(nodes: seq<Node>, body: string): Store {
    if nodes == [] then map[]
    else
      var n := nodes[|nodes| - 1];
      var values := Seed(nodes[..|nodes| - 1], body);
      if n.kind.Generator? then SetPort(values, n.id, RequestPort, Text(body)) else values
  }

  function TextPort(ports: Ports, port: Port): string {
    if port in ports && ports[port].Text? then ports[port].s else ""
  }

  // ---- Access (access.go) ----------------------------------------------

  function ParseName(ctx: Context, name: string): Option<ModelName> {
    Parse(name, (org, segment) => org == ctx.orgSlug && ctx.teamSlug != "" && segment == ctx.teamSlug)
  }

  function RefKey(ctx: Context, name: string): string {
    match ParseName(ctx, name)
    case None => name
    case Some(n) => if n.org == "" || n.org == ctx.orgSlug then n.local else n.OrgLevel().Text()
  }

  function CheckAccess(w: World, ctx: Context, name: string): Option<Fault> {
    if !ctx.checked || RefKey(ctx, name) in ctx.delegated then None
    else
      match w.canUse(name)
      case Err(f) => Some(f)
      case Ok(allowed) => if allowed then None else Some(AccessDenied(name))
  }

  /** The model names a graph's configuration references. */
  function StaticRefs(nodes: seq<Node>): seq<string> {
    if nodes == [] then []
    else
      var n := nodes[|nodes| - 1];
      StaticRefs(nodes[..|nodes| - 1]) +
      (if (n.kind.Model? || n.kind.ModelRef?) && n.data.ModelConfig? && n.data.proxyName != "" && !n.data.passthrough
       then [n.data.proxyName]
       else if n.kind.ModelFallback? && n.data.FallbackConfig? then NonEmpty(n.data.models)
       else [])
  }

  function NonEmpty(names: seq<string>): seq<string> {
    if names == [] then []
    else NonEmpty(names[..|names| - 1]) + (if names[|names| - 1] != "" then [names[|names| - 1]] else [])
  }

  function StaticKeys(ctx: Context, g: Graph): set<string> {
    set name | name in StaticRefs(g.nodes) :: RefKey(ctx, name)
  }

  function Delegating(ctx: Context, g: Graph): Context {
    ctx.(delegated := StaticKeys(ctx, g))
  }

  function Checking(ctx: Context): Context {
    ctx.(delegated := {})
  }

  // ---- Small executors -------------------------------------------------

  /** The body entering a node and the messages it holds (executor.go). */
  function NodeBody(w: World, ctx: Context, inputs: Ports): (string, string) {
    var b := TextPort(inputs, RequestPort);
    if b != "" && b != ctx.body then (b, w.bodyMessagesOf(b)) else (ctx.body, ctx.bodyMessages)
  }

  function Condition(inputs: Ports): Option<bool> {
    if ConditionPort !in inputs then None
    else
      match inputs[ConditionPort]
      case Flag(b) => Some(b)
      case Number(n) => Some(n != 0.0)
      case NotFinite => Some(true)
      case _ => None
  }

  const BLOCK_MESSAGE := "Requête refusée par la politique du pipeline."

  function Plain(outputs: Ports): ForwardResult {
    ForwardResult(outputs, "", "", false, None, None, None, [], None, [])
  }

  function BlockMessage(data: NodeData): string {
    if data.BlockConfig? && data.message != "" then data.message else BLOCK_MESSAGE
  }

  function BlockForward(node: Node, inputs: Ports): Step {
    if node.data.Malformed? then Step(Err(BadNodeData(node.id)), [], None)
    else match Condition(inputs)
    case None => Step(Err(BadCondition(node.id)), [], None)
    case Some(false) => Step(Ok(Plain(map[])), [], None)
    case Some(true) => Step(Ok(Plain(map[]).(rejected := Some(BlockMessage(node.data)))), [], None)
  }

  function LeafForward(w: World, node: Node, inputs: Ports, ctx: Context): Step {
    match w.leaf(node, inputs, ctx)
    case Err(f) => Step(Err(f), [], None)
    case Ok(r) =>
      Step(Ok(ForwardResult(r.outputs, r.state, r.pluginContext, r.noRewrite, r.rejected, r.client, None,
                            r.tools, r.decorator, [])), [], None)
  }

  function Candidates(node: Node, inputs: Ports): seq<string> {
    NonEmpty([TextPort(inputs, ModelNamePort)] + (if node.data.FallbackConfig? then node.data.models else []))
  }

  /** The access-checked resolution a fallback node hands to its client. */
  function CheckedResolve(w: World, ctx: Context, name: string): Result<Resolution, Fault> {
    match CheckAccess(w, ctx, name)
    case Some(f) => Err(f)
    case None =>
      match ParseName(ctx, name)
      case None => w.resolveReal(name)
      case Some(n) => w.resolveReal(n.OrgLevel().Text())
  }

  function FallbackForward(w: World, node: Node, inputs: Ports, ctx: Context): Step {
    var candidates := Candidates(node, inputs);
    if node.data.Malformed? then Step(Err(BadNodeData(node.id)), [], None)
    else if candidates == [] then Step(Err(NoCandidate(node.id)), [], None)
    else
      match CheckedResolve(w, ctx, candidates[0])
      case Err(f) => Step(Err(f), [], None)
      case Ok(r) =>
        var client := FallbackClient(candidates, ctx);
        Step(Ok(Plain(map[ResponsePort := Text("")])
                .(client := Some(Resolution(client, r.model, r.modelId)), outcome := Some(client))),
             [candidates[0]], None)
  }

  predicate IsPassthrough(node: Node) {
    node.data.ModelConfig? && node.data.passthrough
  }

  function ModelNameOf(node: Node, inputs: Ports): string {
    var s := TextPort(inputs, ModelNamePort);
    if s != "" then s else if node.data.ModelConfig? then node.data.proxyName else ""
  }

  // ---- The recursion ---------------------------------------------------

  function OrgKeys(w: World): set<Key> {
    set name | name in w.orgModels :: OrgKey(w.orgModels[name].id)
  }

  function PersonalKeys(w: World): set<Key> {
    set name | name in w.personalModels :: PersonalKey(w.personalModels[name].id)
  }

  function AllKeys(w: World): set<Key> {
    OrgKeys(w) + PersonalKeys(w)
  }

  /** Graphs a run may still enter: unvisited models and pending middlewares. */
  function Remaining(w: World, ctx: Context): nat {
    |AllKeys(w) - ctx.visited| + |ctx.pending|
  }

  lemma VisitingShrinks(w: World, visited: set<Key>, key: Key)
    requires key in AllKeys(w) && key !in visited
    ensures |AllKeys(w) - (visited + {key})| < |AllKeys(w) - visited|
  {
    var a, b := AllKeys(w) - (visited + {key}), AllKeys(w) - visited;
    assert b == a + {key};
  }

  predicate ValidGraph(g: Graph) {
    && (exists n :: n in g.nodes && n.kind.Generator?)
    && (exists n :: n in g.nodes && n.kind.Sink?)
    && (forall n :: n in g.nodes && n.kind.Sink? ==> exists e :: e in g.edges && e.target == n.id)
  }

  datatype Progress = Progress(
    values: Store,
    executed: seq<ExecutedNode>,
    messages: string,
    tools: seq<string>,
    decorators: seq<string>,
    visits: seq<Visit>)

  function Start(g: Graph, ctx: Context): Progress {
    Progress(Seed(g.nodes, ctx.body), [], ctx.messages, [], [], [])
  }

  /** Messages after a node answered. */
  function Rewritten(r: ForwardResult, messages: string): string {
    var m := TextPort(r.outputs, MessagesPort);
    if m != "" then m else messages
  }

  function Advance(p: Progress, v: Visit, r: ForwardResult): Progress {
    Progress(
      SetPorts(p.values, v.node.id, r.outputs),
      p.executed + r.nested + [ExecutedNode(v.node, r.state, r.pluginContext, r.noRewrite)],
      Rewritten(r, p.messages),
      p.tools + r.tools,
      if r.decorator.Some? then p.decorators + [r.decorator.value] else p.decorators,
      p.visits + [v])
  }

  function Decorate(client: Client, decorators: seq<string>): Client {
    if decorators == [] then client
    else Decorated(Decorate(client, decorators[..|decorators| - 1]), decorators[|decorators| - 1])
  }

  /** The first block node among the nodes left. */
  function FirstBlock(nodes: seq<Node>, left: seq<string>): Option<string> {
    if left == [] then None
    else
      var n := NodeById(nodes, left[0]);
      if n.Some? && n.value.kind.Block? then Some(left[0]) else FirstBlock(nodes, left[1..])
  }

  function Finish(p: Progress, r: ForwardResult): ForwardExecution
    requires r.client.Some?
  {
    ForwardExecution(Decorate(r.client.value.client, p.decorators), r.client.value.model, r.client.value.modelId,
                     p.executed, p.messages, p.tools, r.outcome)
  }

  function RunForward(w: World, g: Graph, ctx: Context, frame: Frame): Run
    decreases Remaining(w, ctx), 4, 0
  {
    if !ValidGraph(g) then Run(frame, g, ctx, [], Err(InvalidGraph))
    else
      match TopoSort.TopoOrder(g)
      case Err(_) => Run(frame, g, ctx, [], Err(UnsortedGraph))
      case Ok(order) => RunNodes(w, g, ctx, frame, order, 0, Start(g, ctx))
  }

  /** The forward loop, from position i of the order. */
  function RunNodes(w: World, g: Graph, ctx: Context, frame: Frame, order: seq<string>, i: nat, p: Progress): Run
    requires i <= |order|
    decreases Remaining(w, ctx), 3, |order| - i, 1
  {
    if i == |order| then Run(frame, g, ctx, p.visits, Err(NoTerminal))
    else
      match NodeById(g.nodes, order[i])
      case None => RunNodes(w, g, ctx, frame, order, i + 1, p)
      case Some(node) =>
        if !w.registered(node.kind) then Run(frame, g, ctx, p.visits, Err(NoExecutor(node.id)))
        else
          var inputs := ResolveInputs(p.values, g.edges, node.id);
          var v := Visit(node, inputs, p.messages, NodeForward(w, node, inputs, ctx.(messages := p.messages)));
          AfterVisit(w, g, ctx, frame, order, i, p, v)
  }

  /** What the loop does once the node at position i has answered. */
  function AfterVisit(
    w: World, g: Graph, ctx: Context, frame: Frame, order: seq<string>, i: nat, p: Progress, v: Visit): Run
    requires i < |order|
    decreases Remaining(w, ctx), 3, |order| - i, 0
  {
    match v.step.result
    case Err(f) => Run(frame, g, ctx, p.visits + [v], Err(f))
    case Ok(r) =>
      if r.rejected.Some? then Run(frame, g, ctx, p.visits + [v], Err(Rejected(r.rejected.value)))
      else
        var p' := Advance(p, v, r);
        if r.client.None? then RunNodes(w, g, ctx, frame, order, i + 1, p')
        else
          match FirstBlock(g.nodes, order[i + 1..])
          case Some(id) => Run(frame, g, ctx, p'.visits, Err(PendingBlock(id)))
          case None => Run(frame, g, ctx, p'.visits, Ok(Finish(p', r)))
  }

  function NodeForward(w: World, node: Node, inputs: Ports, ctx: Context): Step
    decreases Remaining(w, ctx), 2, 0
  {
    match node.kind
    case Model => ModelForward(w, node, inputs, ctx)
    case ModelFallback => FallbackForward(w, node, inputs, ctx)
    case Block => BlockForward(node, inputs)
    case _ => LeafForward(w, node, inputs, ctx)
  }

  function ModelForward(w: World, node: Node, inputs: Ports, ctx0: Context): Step
    decreases Remaining(w, ctx0), 1, 0
  {
    var entering := NodeBody(w, ctx0, inputs);
    var ctx := ctx0.(body := entering.0, bodyMessages := entering.1);
    if IsPassthrough(node) || ctx.forcePassthrough then
      if ctx.pending != [] then
        var next := ctx.pending[0];
        if next.graph.None? then Step(Err(NoPipeline(next.name)), [], None)
        else
          Nested(RunForward(w, next.graph.value, MiddlewareContext(ctx, next.graph.value), OfMiddleware(next.name)))
      else if ctx.target == "" then Step(Err(NoTarget), [], None)
      else ResolveByName(w, ctx.target, ctx)
    else if ModelNameOf(node, inputs) == "" then Step(Err(NoModelName), [], None)
    else ResolveByName(w, ModelNameOf(node, inputs), ctx)
  }

  function MiddlewareContext(ctx: Context, g: Graph): Context
    requires ctx.pending != []
  {
    Delegating(ctx, g).(secretScope := OrgKey(ctx.pending[0].org), pending := ctx.pending[1..])
  }

  function PersonalContext(ctx: Context, vm: VirtualModel): Context {
    Checking(ctx).(visited := ctx.visited + {PersonalKey(vm.id)}, secretScope := PersonalKey(vm.owner),
                   forcePassthrough := false)
  }

  function OrgContext(ctx: Context, vm: VirtualModel, g: Graph): Context {
    Delegating(ctx, g).(visited := ctx.visited + {OrgKey(vm.id)}, secretScope := OrgKey(vm.owner),
        forcePassthrough := false)
  }

  function ResolveByName(w: World, name: string, ctx: Context): Step
    decreases Remaining(w, ctx), 0, 0
  {
    match CheckAccess(w, ctx, name)
    case Some(f) => Step(Err(f), [], None)
    case None =>
      match ParseName(ctx, name)
      case None => Step(Err(BadModelName(name)), [], None)
      case Some(n) =>
        if n.Personal() && ctx.personalStore && ctx.userId != "" && n.local in w.personalModels then
          var vm := w.personalModels[n.local];
          var key := PersonalKey(vm.id);
          if key in ctx.visited then Step(Err(ModelCycle(name)), [], None)
          else if vm.graph.None? then Step(Err(NoPipeline(name)), [], None)
          else
            VisitingShrinks(w, ctx.visited, key);
            Nested(RunForward(w, vm.graph.value, PersonalContext(ctx, vm), OfPersonalModel(name, key)))
        else if w.orgStore && !n.Personal() && (n.org == "" || n.org == ctx.orgSlug || ctx.orgSlug == "")
                && n.local in w.orgModels then
          var vm := w.orgModels[n.local];
          if OrgKey(vm.id) in ctx.visited then Step(Err(ModelCycle(name)), [], None)
          else if vm.graph.None? then Step(Err(NoPipeline(name)), [], None)
          else
            VisitingShrinks(w, ctx.visited, OrgKey(vm.id));
            Nested(RunForward(w, vm.graph.value, OrgContext(ctx, vm, vm.graph.value), OfOrgModel(name, OrgKey(vm.id))))
        else
          match w.resolveReal(n.OrgLevel().Text())
          case Err(f) => Step(Err(f), [], None)
          case Ok(r) => Step(Ok(Plain(map[ResponsePort := Text("")]).(client := Some(r))), [name], None)
  }

  /** A model node's answer from the run of a nested graph. */
  function Nested(sub: Run): Step {
    match sub.result
    case Err(f) => Step(Err(f), [], Some(sub))
    case Ok(exec) =>
      var outputs: Ports := map[ResponsePort := Text("")];
      Step(Ok(Plain(if exec.messages == "" then outputs else outputs[MessagesPort := Text(exec.messages)])
              .(client := Some(Resolution(exec.client, exec.model, exec.modelId)), nested := exec.executed)),
           [], Some(sub))
  }
}
