/** The host/plugin wire form: the host leaves out the inputs and messages a
    plugin can rebuild from the body it is sent, and the SDK puts them back
    (internal/pipeline/plugin_executor.go:211-231, value_context.go:55-87,
    executor.go:235-256, pkg/pluginsdk/request.go). */
module WireForm {
  import opened Prelude
  import opened Graphs
  import opened Engine
  import opened Runs
  import opened Policies

  /** JSON, as far as inputs are concerned. */
  datatype Codec = Codec(marshal: Ports -> Option<string>, unmarshal: string -> Option<Ports>)

  ghost predicate Lawful(c: Codec) {
    && c.unmarshal("{}") == Some(map[])
    && forall m :: c.marshal(m).Some? ==> c.marshal(m).value != "" && c.unmarshal(c.marshal(m).value) == Some(m)
  }

  /** What a PreRequest call carries of the node's inputs. */
  datatype Call = Call(
    body: string, messages: string, inputs: string, requestPorts: seq<Port>, messagesPorts: seq<Port>)

  // ---- Host side -------------------------------------------------------

  function InputsJson(c: Codec, inputs: Ports): string {
    if inputs == map[] then "{}"
    else
      match c.marshal(inputs)
      case None => "{}"
      case Some(s) => s
  }

  /** The messages entering a plugin node. */
  function EnteringMessages(ctx: Context, inputs: Ports): string {
    var m := TextPort(inputs, MessagesPort);
    if m == "" then ctx.messages else m
  }

  function SentMessages(messages: string, bodyMessages: string): string {
    if bodyMessages != "" && messages == bodyMessages then "" else messages
  }

  predicate RepeatsBody(v: Value, body: string) {
    v.Text? && v.s != "" && v.s == body
  }

  predicate RepeatsMessages(v: Value, body: string, messages: string) {
    v.Text? && v.s != "" && v.s != body && v.s == messages
  }

  /** The inputs that travel, the others being rebuilt by the plugin. */
  function Travelling(inputs: Ports, body: string, messages: string): Ports {
    map p | p in inputs && !RepeatsBody(inputs[p], body) && !RepeatsMessages(inputs[p], body, messages) :: inputs[p]
  }

  ghost predicate IsSplit(inputs: Ports, body: string, messages: string, request: seq<Port>, ofMessages: seq<Port>) {
    && (forall p :: p in request <==> p in inputs && RepeatsBody(inputs[p], body))
    && (forall p :: p in ofMessages <==> p in inputs && RepeatsMessages(inputs[p], body, messages))
  }

  /** Sorts the inputs out, in whatever order the map gives them. */
  method Split(inputs: Ports, body: string, messages: string)
    returns (rest: Ports, request: seq<Port>, ofMessages: seq<Port>)
    ensures rest == Travelling(inputs, body, messages) && IsSplit(inputs, body, messages, request, ofMessages)
  {
    rest, request, ofMessages := map[], [], [];
    var left := inputs.Keys;
    while left != {}
      invariant left <= inputs.Keys
      invariant rest == map p | p in Travelling(inputs, body, messages) && p !in left :: inputs[p]
      invariant forall p :: p in request <==> p in inputs && p !in left && RepeatsBody(inputs[p], body)
      invariant forall p :: p in ofMessages <==> p in inputs && p !in left && RepeatsMessages(inputs[p], body, messages)
      decreases |left|
    {
      var p :| p in left;
      left := left - {p};
      if RepeatsBody(inputs[p], body) {
        request := request + [p];
      } else if RepeatsMessages(inputs[p], body, messages) {
        ofMessages := ofMessages + [p];
      } else {
        rest := rest[p := inputs[p]];
      }
    }
  }

  /** The call the host builds for a node. */
  ghost predicate IsCallFor(c: Codec, w: World, ctx: Context, inputs: Ports, call: Call) {
    var body := NodeBody(w, ctx, inputs);
    var messages := EnteringMessages(ctx, inputs);
    && call.body == body.0
    && call.messages == SentMessages(messages, body.1)
    && call.inputs == InputsJson(c, Travelling(inputs, body.0, messages))
    && IsSplit(inputs, body.0, messages, call.requestPorts, call.messagesPorts)
  }

  method BuildCall(c: Codec, w: World, ctx: Context, inputs: Ports) returns (call: Call)
    ensures IsCallFor(c, w, ctx, inputs, call)
    ensures call.body == BodyEntering(ctx, inputs)
  {
    var messages := EnteringMessages(ctx, inputs);
    var body := NodeBody(w, ctx, inputs);
    var rest, request, ofMessages := Split(inputs, body.0, messages);
    call := Call(body.0, SentMessages(messages, body.1), InputsJson(c, rest), request, ofMessages);
  }

  // ---- Plugin side -----------------------------------------------------

  function CallMessages(w: World, call: Call): string {
    if call.messages != "" then call.messages else w.bodyMessagesOf(call.body)
  }

  /** The inputs as the plugin rebuilds them. */
  function CallInputs(c: Codec, w: World, call: Call): Option<Ports> {
    var base := if call.inputs == "" then Some(map[]) else c.unmarshal(call.inputs);
    if base.None? then None
    else Some(Filled(Filled(base.value, call.requestPorts, Text(call.body)),
                     call.messagesPorts, Text(CallMessages(w, call))))
  }

  /** The map with one value on all the given ports. */
  function Filled(base: Ports, ports: seq<Port>, v: Value): Ports {
    base + map p | p in ports :: v
  }

  method Fill(base: Ports, ports: seq<Port>, v: Value) returns (inputs: Ports)
    ensures inputs == Filled(base, ports, v)
  {
    inputs := base;
    for i := 0 to |ports|
      invariant inputs == Filled(base, ports[..i], v)
    {
      assert ports[..i + 1] == ports[..i] + [ports[i]];
      FilledStep(base, ports[..i], ports[i], v);
      inputs := inputs[ports[i] := v];
    }
    assert ports[..|ports|] == ports;
  }

  lemma FilledStep(base: Ports, ports: seq<Port>, p: Port, v: Value)
    ensures Filled(base, ports + [p], v) == Filled(base, ports, v)[p := v]
  {
  }

  method ReadCall(c: Codec, w: World, call: Call) returns (r: Option<Ports>)
    ensures r == CallInputs(c, w, call)
  {
    var inputs: Ports := map[];
    if call.inputs != "" {
      var decoded := c.unmarshal(call.inputs);
      if decoded.None? { return None; }
      inputs := decoded.value;
    }
    inputs := Fill(inputs, call.requestPorts, Text(call.body));
    inputs := Fill(inputs, call.messagesPorts, Text(CallMessages(w, call)));
    return Some(inputs);
  }

  // ---- Round trip ------------------------------------------------------

  /** The messages a context remembers of its body are unknown or right. */
  ghost predicate BodyKnown(w: World, ctx: Context) {
    ctx.bodyMessages == "" || ctx.bodyMessages == w.bodyMessagesOf(ctx.body)
  }

  /** The messages entering a node come back, whenever there are any. */
  lemma MessagesRoundTrip(c: Codec, w: World, ctx: Context, inputs: Ports, call: Call)
    requires BodyKnown(w, ctx) && IsCallFor(c, w, ctx, inputs, call) && EnteringMessages(ctx, inputs) != ""
    ensures CallMessages(w, call) == EnteringMessages(ctx, inputs)
  {
  }

  /** Filling the ports that were left out gives back what they held. */
  lemma FillRestores(base: Ports, inputs: Ports, body: string, messages: string, request: seq<Port>,
                     ofMessages: seq<Port>, read: string)
    requires IsSplit(inputs, body, messages, request, ofMessages)
    requires messages != "" ==> read == messages
    ensures Filled(Filled(base, request, Text(body)), ofMessages, Text(read)) ==
            base + map p | p in inputs && p !in Travelling(inputs, body, messages) :: inputs[p]
  {
    var l := Filled(Filled(base, request, Text(body)), ofMessages, Text(read));
    var r := base + map p | p in inputs && p !in Travelling(inputs, body, messages) :: inputs[p];
    forall p ensures p in l <==> p in r
      ensures p in l ==> l[p] == r[p]
    {
    }
  }

  /** The plugin reads exactly the inputs that entered the node if and only if
      those that have to travel can be marshalled. */
  lemma InputsRoundTrip(c: Codec, w: World, ctx: Context, inputs: Ports, call: Call)
    requires Lawful(c) && BodyKnown(w, ctx) && IsCallFor(c, w, ctx, inputs, call)
    ensures CallInputs(c, w, call) == Some(inputs) <==>
            var rest := Travelling(inputs, call.body, EnteringMessages(ctx, inputs));
            rest == map[] || c.marshal(rest).Some?
  {
    var messages := EnteringMessages(ctx, inputs);
    var rest := Travelling(inputs, call.body, messages);
    var back := map p | p in inputs && p !in rest :: inputs[p];
    var base := if rest == map[] || c.marshal(rest).Some? then rest else map[];
    assert rest + back == inputs;
    assert call.inputs != "" && c.unmarshal(call.inputs) == Some(base);
    if messages != "" { MessagesRoundTrip(c, w, ctx, inputs, call); }
    FillRestores(base, inputs, call.body, messages, call.requestPorts, call.messagesPorts, CallMessages(w, call));
    if base != rest {
      var p :| p in rest;
      assert p !in base + back && p in inputs;
    }
  }

  /** JSON has no numbers that are not finite. */
  ghost predicate RefusesNotFinite(c: Codec) {
    forall m: Ports, p: Port :: p in m && m[p] == NotFinite ==> c.marshal(m).None?
  }

  /** Such a number on one port, a product out of range for one
      (internal/pipeline/logic_executors.go:228-232), loses every input that
      travels: the plugin reads other inputs than those that entered its node. */
  lemma NotFiniteLosesInputs(c: Codec, w: World, ctx: Context, inputs: Ports, call: Call, p: Port)
    requires Lawful(c) && RefusesNotFinite(c) && BodyKnown(w, ctx) && IsCallFor(c, w, ctx, inputs, call)
    requires p in inputs && inputs[p] == NotFinite
    ensures CallInputs(c, w, call) != Some(inputs)
  {
    InputsRoundTrip(c, w, ctx, inputs, call);
    assert p in Travelling(inputs, call.body, EnteringMessages(ctx, inputs));
  }

  /** Every call for these inputs gives them back. */
  ghost predicate Arrives(c: Codec, w: World, ctx: Context, inputs: Ports) {
    forall call :: IsCallFor(c, w, ctx, inputs, call) ==> CallInputs(c, w, call) == Some(inputs)
  }

  lemma FlagArrives(c: Codec, w: World, ctx: Context, p: Port)
    requires Lawful(c) && BodyKnown(w, ctx) && c.marshal(map[p := Flag(true)]).Some?
    ensures Arrives(c, w, ctx, map[p := Flag(true)])
  {
    var flag: Ports := map[p := Flag(true)];
    forall call | IsCallFor(c, w, ctx, flag, call) ensures CallInputs(c, w, call) == Some(flag) {
      InputsRoundTrip(c, w, ctx, flag, call);
      assert Travelling(flag, call.body, EnteringMessages(ctx, flag)) == flag;
    }
  }

  /** There are such codecs: here one under which a port's flag arrives, and the
      same port's number that is not finite does not. */
  lemma SomeCodecLosesInputs(w: World, ctx: Context, p: Port) returns (c: Codec, call: Call)
    requires BodyKnown(w, ctx)
    ensures Lawful(c) && RefusesNotFinite(c) && Arrives(c, w, ctx, map[p := Flag(true)])
    ensures IsCallFor(c, w, ctx, map[p := NotFinite], call)
    ensures CallInputs(c, w, call) != Some(map[p := NotFinite])
  {
    var inputs, flag: Ports := map[p := NotFinite], map[p := Flag(true)];
    c := Codec(m => if m == map[] then Some("{}") else if m == flag then Some("{f}") else None,
               s => if s == "{}" then Some(map[]) else if s == "{f}" then Some(flag) else None);
    FlagArrives(c, w, ctx, p);
    var body, messages := NodeBody(w, ctx, inputs), EnteringMessages(ctx, inputs);
    call := Call(body.0, SentMessages(messages, body.1), InputsJson(c, Travelling(inputs, body.0, messages)), [], []);
    NotFiniteLosesInputs(c, w, ctx, inputs, call, p);
  }

  // ---- The invariant through nested runs -------------------------------

  /** At every node of a nested run, whatever call the host builds, the plugin
      reads back what entered the node. */
  ghost predicate WireFaithful(c: Codec, w: World, run: Run)
    decreases run
  {
    && (forall v :: v in run.visits ==> NodeFaithful(c, w, run.ctx.(messages := v.before), v.inputs))
    && (forall v :: v in run.visits && v.step.nested.Some? ==> WireFaithful(c, w, v.step.nested.value))
  }

  ghost predicate NodeFaithful(c: Codec, w: World, ctx: Context, inputs: Ports) {
    forall call :: IsCallFor(c, w, ctx, inputs, call) ==>
      && call.body == BodyEntering(ctx, inputs)
      && (MessagesEntering(ctx, inputs) != "" ==> CallMessages(w, call) == MessagesEntering(ctx, inputs))
      && (CallInputs(c, w, call) == Some(inputs) <==>
          Marshals(c, Travelling(inputs, call.body, MessagesEntering(ctx, inputs))))
      && CarriesOnce(w, ctx, inputs, call)
  }

  predicate Marshals(c: Codec, rest: Ports) {
    rest == map[] || c.marshal(rest).Some?
  }

  /** The body fed to the node, or that of the context. */
  function BodyEntering(ctx: Context, inputs: Ports): string {
    if RequestFed(inputs) != "" then RequestFed(inputs) else ctx.body
  }

  /** The messages fed to the node, or those of the context. */
  function MessagesEntering(ctx: Context, inputs: Ports): string {
    if MessagesPort in inputs && inputs[MessagesPort].Text? && inputs[MessagesPort].s != ""
    then inputs[MessagesPort].s else ctx.messages
  }

  /** Inputs that repeat the body or the messages do not travel, and neither do
      messages the body is known to hold. */
  ghost predicate CarriesOnce(w: World, ctx: Context, inputs: Ports, call: Call) {
    var m := MessagesEntering(ctx, inputs);
    && (forall p :: p in Travelling(inputs, call.body, m) ==>
          inputs[p].Text? ==> inputs[p].s == "" || inputs[p].s !in {call.body, m})
    && (call.messages != "" && call.body != ctx.body ==> call.messages != w.bodyMessagesOf(call.body))
    && (call.messages != "" && call.body == ctx.body ==> call.messages != ctx.bodyMessages)
  }

  lemma CallCarriesOnce(c: Codec, w: World, ctx: Context, inputs: Ports, call: Call)
    requires IsCallFor(c, w, ctx, inputs, call)
    ensures call.body == BodyEntering(ctx, inputs) && CarriesOnce(w, ctx, inputs, call)
  {
  }

  lemma BodyKnownIsFaithful(c: Codec, w: World, ctx: Context, inputs: Ports)
    requires Lawful(c) && BodyKnown(w, ctx)
    ensures NodeFaithful(c, w, ctx, inputs)
  {
    assert MessagesEntering(ctx, inputs) == EnteringMessages(ctx, inputs);
    forall call | IsCallFor(c, w, ctx, inputs, call)
      ensures MessagesEntering(ctx, inputs) != "" ==> CallMessages(w, call) == MessagesEntering(ctx, inputs)
      ensures CallInputs(c, w, call) == Some(inputs) <==>
              Marshals(c, Travelling(inputs, call.body, MessagesEntering(ctx, inputs)))
      ensures call.body == BodyEntering(ctx, inputs) && CarriesOnce(w, ctx, inputs, call)
    {
      CallCarriesOnce(c, w, ctx, inputs, call);
      if MessagesEntering(ctx, inputs) != "" { MessagesRoundTrip(c, w, ctx, inputs, call); }
      InputsRoundTrip(c, w, ctx, inputs, call);
    }
  }

  /** A body fed to a node hides that of the context: whatever the latter, the
      plugin reads the same body, the same messages and the same inputs. */
  lemma FedBodyHidesContext(c: Codec, w: World, a: Context, b: Context, inputs: Ports, call: Call, other: Call)
    requires RequestFed(inputs) != "" && b == a.(body := b.body, bodyMessages := b.bodyMessages)
    requires BodyKnown(w, a) && BodyKnown(w, b)
    requires IsCallFor(c, w, a, inputs, call) && IsCallFor(c, w, b, inputs, other)
    ensures call.body == other.body == RequestFed(inputs)
    ensures CallMessages(w, call) == CallMessages(w, other)
    ensures CallInputs(c, w, call) == CallInputs(c, w, other)
  {
    var m := EnteringMessages(a, inputs);
    if m != "" {
      MessagesRoundTrip(c, w, a, inputs, call);
      MessagesRoundTrip(c, w, b, inputs, other);
    }
    var base := if call.inputs == "" then Some(map[]) else c.unmarshal(call.inputs);
    if base.Some? {
      FillRestores(base.value, inputs, call.body, m, call.requestPorts, call.messagesPorts, CallMessages(w, call));
      FillRestores(base.value, inputs, call.body, m, other.requestPorts, other.messagesPorts, CallMessages(w, other));
    }
  }

  lemma {:induction false} RunFaithful(c: Codec, w: World, run: Run)
    requires Lawful(c) && ValidRun(w, run) && BodyKnown(w, run.ctx)
    ensures WireFaithful(c, w, run)
    decreases run
  {
    forall v | v in run.visits ensures NodeFaithful(c, w, run.ctx.(messages := v.before), v.inputs) {
      BodyKnownIsFaithful(c, w, run.ctx.(messages := v.before), v.inputs);
    }
    forall v | v in run.visits && v.step.nested.Some? ensures WireFaithful(c, w, v.step.nested.value) {
      var k :| 0 <= k < |run.visits| && run.visits[k] == v;
      VisitAt(w, run.graph, run.ctx, run.visits, k);
      var sub := NestedRun(w, v.node, v.inputs, run.ctx.(messages := v.before), v.step);
      RunFaithful(c, w, sub);
    }
  }

  /** A run started with the messages of its body right or unknown keeps them so
      at every depth: a plugin reads the body and the messages that entered its
      node, and its inputs exactly when those that travel can be marshalled; what
      travels repeats neither. */
  lemma ForwardIsWireFaithful(c: Codec, w: World, g: Graph, ctx: Context)
    requires Lawful(c) && BodyKnown(w, ctx)
    ensures WireFaithful(c, w, RunForward(w, g, ctx, Root))
  {
    RunForwardValid(w, g, ctx, Root);
    RunFaithful(c, w, RunForward(w, g, ctx, Root));
  }
}
