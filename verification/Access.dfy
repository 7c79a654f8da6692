/** Access over a whole nested run: every model it reaches by name is one the
    request may use, or a static reference of the innermost delegating graph. */
module Access {
  import opened Prelude
  import opened Graphs
  import opened Engine
  import opened Runs
  import opened ModelNames

  // ---- Names of the same model -----------------------------------------

  /** The organization of a name, that of the request when it has none. */
  function OrgOf(ctx: Context, n: ModelName): string {
    if n.org == "" then ctx.orgSlug else n.org
  }

  /** Two names of one model: same organization and same local name, whatever
      the team. A name that cannot be read stands for itself. */
  predicate SameModel(ctx: Context, a: string, b: string) {
    match (ParseName(ctx, a), ParseName(ctx, b))
    case (Some(m), Some(n)) => OrgOf(ctx, m) == OrgOf(ctx, n) && m.local == n.local
    case _ => a == b
  }

  predicate AtHome(ctx: Context, name: string) {
    ParseName(ctx, name).Some? && OrgOf(ctx, ParseName(ctx, name).value) == ctx.orgSlug
  }

  /** The local name of a, a model of the request's organization, is spelled like
      b, which is a model of another one or of none. */
  predicate Shadows(ctx: Context, a: string, b: string) {
    AtHome(ctx, a) && ParseName(ctx, a).value.local == b && !AtHome(ctx, b)
  }

  /** A reference stands for a name. */
  predicate Covers(ctx: Context, ref: string, name: string) {
    SameModel(ctx, ref, name) || Shadows(ctx, ref, name) || Shadows(ctx, name, ref)
  }

  /** What a node's name reads as, the request's team being the only one. */
  lemma NameReads(ctx: Context, name: string, n: ModelName)
    ensures var isTeam := (org, segment) => org == ctx.orgSlug && ctx.teamSlug != "" && segment == ctx.teamSlug;
            ParseName(ctx, name) == Some(n) <==> Reads(name, isTeam, n)
  {
    var isTeam := (org, segment) => org == ctx.orgSlug && ctx.teamSlug != "" && segment == ctx.teamSlug;
    ParseIff(name, isTeam, n);
  }

  /** The only team a node's name carries is the request's, in its organization. */
  lemma TeamIsOwn(ctx: Context, name: string)
    requires ParseName(ctx, name).Some?
    ensures var n := ParseName(ctx, name).value;
            n.Text() == name && (n.team != "" ==> n.team == ctx.teamSlug && n.org == ctx.orgSlug)
  {
    NameReads(ctx, name, ParseName(ctx, name).value);
  }

  /** A bare name, the name qualified by the organization, and the name qualified
      by the request's team too, are one model's. */
  lemma TeamIsDropped(ctx: Context, local: string)
    requires ctx.orgSlug !in {"", "~"} && '/' !in ctx.orgSlug
    requires ctx.teamSlug != "" && '/' !in ctx.teamSlug && local != "" && '/' !in local
    ensures SameModel(ctx, local, ctx.orgSlug + "/" + local)
    ensures SameModel(ctx, local, ctx.orgSlug + "/" + ctx.teamSlug + "/" + local)
  {
    var bare, qualified := ModelName("", "", local), ModelName(ctx.orgSlug, "", local);
    var full := ModelName(ctx.orgSlug, ctx.teamSlug, local);
    OrgLevelText(qualified);
    assert bare.Text() == local && full.Text() == ctx.orgSlug + "/" + ctx.teamSlug + "/" + local;
    NameReads(ctx, local, bare);
    NameReads(ctx, ctx.orgSlug + "/" + local, qualified);
    NameReads(ctx, ctx.orgSlug + "/" + ctx.teamSlug + "/" + local, full);
  }

  /** The key of a name that is not of the request's organization is the name. */
  lemma ForeignKey(ctx: Context, name: string)
    requires !AtHome(ctx, name)
    ensures RefKey(ctx, name) == name
  {
    if ParseName(ctx, name).Some? { TeamIsOwn(ctx, name); }
  }

  /** Two names share a key exactly when they name one model, or when the local
      name of one, being of the request's organization, spells the other, which
      is not. */
  lemma KeysShareIff(ctx: Context, a: string, b: string)
    ensures RefKey(ctx, a) == RefKey(ctx, b) <==> Covers(ctx, a, b)
  {
    if !AtHome(ctx, a) { ForeignKey(ctx, a); }
    if !AtHome(ctx, b) { ForeignKey(ctx, b); }
    if !AtHome(ctx, a) && !AtHome(ctx, b) { SameForeign(ctx, a, b); }
  }

  lemma SameForeign(ctx: Context, a: string, b: string)
    requires !AtHome(ctx, a) && !AtHome(ctx, b)
    ensures SameModel(ctx, a, b) <==> a == b
  {
    if ParseName(ctx, a).Some? { TeamIsOwn(ctx, a); }
    if ParseName(ctx, b).Some? { TeamIsOwn(ctx, b); }
  }

  /** A local name with a slash can spell a model of another organization, which
      a reference to it then delegates: the reference acme/other/mistral covers
      other/mistral. */
  lemma SlashCoversForeign(ctx: Context, other: string, local: string)
    requires ctx.orgSlug !in {"", "~"} && '/' !in ctx.orgSlug
    requires other !in {"", ctx.orgSlug, ctx.teamSlug} && '/' !in other && local != ""
    ensures var ref, name := ctx.orgSlug + "/" + other + "/" + local, other + "/" + local;
            !SameModel(ctx, ref, name) && RefKey(ctx, ref) == RefKey(ctx, name)
  {
    var ref, name := ctx.orgSlug + "/" + other + "/" + local, other + "/" + local;
    assert ref == ctx.orgSlug + "/" + name;
    OrgLevelText(ModelName(other, "", local));
    NameReads(ctx, name, ModelName(other, "", local));
    LocalReads(ctx, other, name, ref);
    KeysShareIff(ctx, ref, name);
  }

  lemma LocalReads(ctx: Context, segment: string, local: string, name: string)
    requires ctx.orgSlug !in {"", "~"} && '/' !in ctx.orgSlug && segment !in {"", ctx.teamSlug}
    requires segment + "/" <= local && '/' !in segment && name == ctx.orgSlug + "/" + local
    ensures ParseName(ctx, name) == Some(ModelName(ctx.orgSlug, "", local))
  {
    var isTeam := (org, s) => org == ctx.orgSlug && ctx.teamSlug != "" && s == ctx.teamSlug;
    FirstSlash(local, |segment|);
    assert local[..|segment|] == segment;
    if StartsWithTeam(ctx.orgSlug, local, isTeam) {
      var k :| 0 < k < |local| - 1 && local[k] == '/' && '/' !in local[..k] && isTeam(ctx.orgSlug, local[..k]);
      FirstSlash(local, k);
    }
    OrgLevelText(ModelName(ctx.orgSlug, "", local));
    ReadsParse(name, isTeam, ModelName(ctx.orgSlug, "", local));
    NameReads(ctx, name, ModelName(ctx.orgSlug, "", local));
  }

  // ---- References ------------------------------------------------------

  /** The configuration of the node names the model. */
  predicate Refers(n: Node, name: string) {
    && name != ""
    && match n.data
       case ModelConfig(proxyName, passthrough) =>
         (n.kind.Model? || n.kind.ModelRef?) && proxyName == name && !passthrough
       case FallbackConfig(models) => n.kind.ModelFallback? && name in models
       case _ => false
  }

  lemma {:induction false} NonEmptyIff(names: seq<string>, name: string)
    ensures name in NonEmpty(names) <==> name in names && name != ""
  {
    if names != [] { NonEmptyIff(names[..|names| - 1], name); }
  }

  /** The references of a graph are the models its nodes are configured with. */
  lemma {:induction false} StaticRefsIff(nodes: seq<Node>, name: string)
    ensures name in StaticRefs(nodes) <==> exists n :: n in nodes && Refers(n, name)
  {
    if nodes != [] {
      var init, last := nodes[..|nodes| - 1], nodes[|nodes| - 1];
      StaticRefsIff(init, name);
      if last.data.FallbackConfig? { NonEmptyIff(last.data.models, name); }
      assert name in StaticRefs(nodes) <==> name in StaticRefs(init) || Refers(last, name);
      assert forall n :: n in nodes <==> n in init || n == last;
    }
  }

  /** Whatever the request may use, a graph that references acme/other/mistral is
      let through to other/mistral. */
  lemma SlashDelegatesForeign(w: World, ctx: Context, g: Graph, n: Node, other: string, local: string)
    requires ctx.orgSlug !in {"", "~"} && '/' !in ctx.orgSlug
    requires other !in {"", ctx.orgSlug, ctx.teamSlug} && '/' !in other && local != ""
    requires n in g.nodes && Refers(n, ctx.orgSlug + "/" + other + "/" + local)
    ensures CheckAccess(w, Delegating(ctx, g), other + "/" + local).None?
  {
    var ref, name := ctx.orgSlug + "/" + other + "/" + local, other + "/" + local;
    SlashCoversForeign(ctx, other, local);
    StaticRefsIff(g.nodes, ref);
    RefKeyDependsOn(ctx, Delegating(ctx, g), name);
  }

  // ---- Authorized runs -------------------------------------------------

  /** name is usable by the request itself, or covered by a reference. */
  ghost predicate MayReach(w: World, request: Context, refs: seq<string>, name: string) {
    w.canUse(name) == Ok(true) || exists ref :: ref in refs && Covers(request, ref, name)
  }

  /** The context delegates the references, and nothing else. */
  ghost predicate Grants(request: Context, ctx: Context, refs: seq<string>) {
    ctx.delegated == set ref | ref in refs :: RefKey(request, ref)
  }

  ghost predicate SameRequest(a: Context, b: Context) {
    a.orgSlug == b.orgSlug && a.teamSlug == b.teamSlug && a.checked && b.checked
  }

  /** The references the graph of a nested run delegates: its own static ones
      for an organization model or a middleware, none for a personal model.
      What its parents delegate plays no part. */
  ghost function DelegatedBy(sub: Run): seq<string> {
    if sub.frame.OfPersonalModel? then [] else StaticRefs(sub.graph.nodes)
  }

  /** Every model a run reaches, nested runs included, is authorized. */
  ghost predicate Authorized(w: World, request: Context, run: Run, refs: seq<string>)
    decreases run
  {
    forall v :: v in run.visits ==> AuthorizedStep(w, request, v.step, refs)
  }

  ghost predicate AuthorizedStep(w: World, request: Context, s: Step, refs: seq<string>)
    decreases s
  {
    && (forall name :: name in s.resolved ==> MayReach(w, request, refs, name))
    && (s.nested.Some? ==>
          var sub := s.nested.value;
          && !sub.frame.Root?
          && (!sub.frame.OfMiddleware? ==> MayReach(w, request, refs, sub.frame.name))
          && Authorized(w, request, sub, DelegatedBy(sub)))
    && (s.nested.None? && s.result.Ok? && s.result.value.outcome.Some? ==>
          CarriesAccess(request, s.result.value.outcome.value, refs))
  }

  /** A fallback client keeps the access it was built under. */
  ghost predicate CarriesAccess(request: Context, client: Client, refs: seq<string>) {
    client.FallbackClient? && SameRequest(request, client.ctx) && Grants(request, client.ctx, refs)
  }

  lemma CheckedMayReach(w: World, request: Context, ctx: Context, refs: seq<string>, name: string)
    requires SameRequest(request, ctx) && Grants(request, ctx, refs) && CheckAccess(w, ctx, name).None?
    ensures MayReach(w, request, refs, name)
  {
    RefKeyDependsOn(request, ctx, name);
    if RefKey(request, name) in ctx.delegated {
      var ref :| ref in refs && RefKey(request, ref) == RefKey(request, name);
      KeysShareIff(request, ref, name);
    }
  }

  /** The check lets through exactly the names that are usable or covered. */
  lemma CheckedIffMayReach(w: World, request: Context, ctx: Context, refs: seq<string>, name: string)
    requires SameRequest(request, ctx) && Grants(request, ctx, refs)
    ensures CheckAccess(w, ctx, name).None? <==> MayReach(w, request, refs, name)
  {
    if CheckAccess(w, ctx, name).None? { CheckedMayReach(w, request, ctx, refs, name); }
    if ref :| ref in refs && Covers(request, ref, name) {
      RefKeyDependsOn(request, ctx, name);
      KeysShareIff(request, ref, name);
    }
  }

  lemma {:induction false} StepAuthorized(
    w: World, request: Context, node: Node, inputs: Ports, ctx: Context, refs: seq<string>, s: Step)
    requires ValidStep(w, node, inputs, ctx, s) && SameRequest(request, ctx) && Grants(request, ctx, refs)
    ensures AuthorizedStep(w, request, s, refs)
    decreases s
  {
    if s.nested.Some? {
      var sub := NestedRun(w, node, inputs, ctx, s);
      StaticKeysDependOn(request, ctx, sub.graph);
      if !sub.frame.OfMiddleware? { CheckedMayReach(w, request, ctx, refs, sub.frame.name); }
      RunAuthorized(w, request, sub, DelegatedBy(sub));
    } else {
      DirectStep(w, node, inputs, ctx, s);
      forall name | name in s.resolved ensures MayReach(w, request, refs, name) {
        CheckedMayReach(w, request, ctx, refs, name);
      }
    }
  }

  lemma {:induction false} VisitsAuthorized(
    w: World, request: Context, g: Graph, ctx: Context, refs: seq<string>, visits: seq<Visit>)
    requires ValidVisits(w, g, ctx, visits) && SameRequest(request, ctx) && Grants(request, ctx, refs)
    ensures forall v :: v in visits ==> AuthorizedStep(w, request, v.step, refs)
    decreases visits
  {
    if visits != [] {
      var init, last := LastVisit(w, g, ctx, visits);
      VisitsAuthorized(w, request, g, ctx, refs, init);
      StepAuthorized(w, request, last.node, last.inputs, ctx.(messages := last.before), refs, last.step);
      assert forall v :: v in visits ==> v in init || v == last;
    }
  }

  lemma {:induction false} RunAuthorized(w: World, request: Context, run: Run, refs: seq<string>)
    requires ValidRun(w, run) && SameRequest(request, run.ctx) && Grants(request, run.ctx, refs)
    ensures Authorized(w, request, run, refs)
    decreases run
  {
    VisitsAuthorized(w, request, run.graph, run.ctx, refs, run.visits);
  }

  /** With a checker installed, whatever a request makes the engine run, every
      virtual model entered and every real model resolved is authorized, on the
      successful and the failing runs alike. A context delegates the references
      of a graph, or none. */
  lemma RunIsAuthorized(w: World, g: Graph, ctx: Context, refs: seq<string>)
    requires ctx.checked && Grants(ctx, ctx, refs)
    ensures Authorized(w, ctx, RunForward(w, g, ctx, Root), refs)
  {
    RunForwardValid(w, g, ctx, Root);
    RunAuthorized(w, ctx, RunForward(w, g, ctx, Root), refs);
  }
}
