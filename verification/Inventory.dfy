/** The records of an adoption export and the streaming check of their order,
    keys and parents (internal/adoption/verify.go:141-308). */
module Inventory {
  import opened Prelude

  /** In export order, the seven common families first. */
  datatype Family =
    | Tenant | TenantDomain | Organization | Member | OrganizationMembership | Team | TeamMembership
    | Provider | LLMModel | CustomRole | VirtualModel | Middleware | PersonalVirtualModel | TeamSettings
    | Application | Quota | Alert
    | OtherFamily(name: string)

  const CommonFamilies := [Tenant, TenantDomain, Organization, Member, OrganizationMembership, Team, TeamMembership]
  const BusinessFamilies := [Provider, LLMModel, CustomRole, VirtualModel, Middleware, PersonalVirtualModel,
      TeamSettings, Application, Quota, Alert]
  const Families := CommonFamilies + BusinessFamilies

  function Index(f: Family): int {
    match f
    case Tenant => 0 case TenantDomain => 1 case Organization => 2 case Member => 3
    case OrganizationMembership => 4 case Team => 5 case TeamMembership => 6
    case Provider => 7 case LLMModel => 8 case CustomRole => 9 case VirtualModel => 10
    case Middleware => 11 case PersonalVirtualModel => 12 case TeamSettings => 13
    case Application => 14 case Quota => 15 case Alert => 16
    case OtherFamily(_) => -1
  }

  predicate Business(f: Family) { Index(f) >= 7 }

  datatype Key = Key(
    tenant: string, organization: string, team: string, member: string, hostname: string, resource: string)

  datatype Record = Record(family: Family, key: Key, representation: string, etag: string)

  /** Identifier syntax, JSON checks and encodings. */
  datatype Rules = Rules(
    isUuid: string -> bool,
    isBusinessKey: string -> bool,
    isHostname: string -> bool,
    isObject: string -> bool,
    hasStatus: string -> bool,
    familyName: Family -> string,
    keyJson: Key -> string)

  /** Facts of those functions: canonical UUIDs are not empty and hold no colon,
      names and keys are encoded without loss, and a key's encoding opens on a
      brace that no family name holds. */
  ghost predicate Lawful(c: Rules) {
    && (forall s :: c.isUuid(s) ==> s != "" && ':' !in s)
    && (forall f, g :: Index(f) >= 0 && Index(g) >= 0 && c.familyName(f) == c.familyName(g) ==> f == g)
    && (forall f :: Index(f) >= 0 ==> '{' !in c.familyName(f))
    && (forall k, l :: c.keyJson(k) == c.keyJson(l) ==> k == l)
    && (forall k :: c.keyJson(k) != "" && c.keyJson(k)[0] == '{')
  }

  datatype State = State(
    families: set<Family>,
    family: int,
    seen: set<string>,
    tenants: set<string>,
    organizations: map<string, string>,
    members: map<string, string>,
    memberships: set<string>,
    teams: map<string, string>)

  function InitialState(families: set<Family>): State {
    State(families, 0, {}, {}, map[], map[], {}, map[])
  }

  function Id(c: Rules, r: Record): string {
    c.familyName(r.family) + c.keyJson(r.key)
  }

  function Membership(organization: string, member: string): string {
    organization + ":" + member
  }

  /** A map read the way the source reads it: absent is empty. */
  function Lookup(m: map<string, string>, k: string): string {
    if k in m then m[k] else ""
  }

  predicate Admissible(c: Rules, s: State, r: Record) {
    && r.family in s.families
    && Index(r.family) >= 0
    && Index(r.family) >= s.family
    && r.etag != ""
    && c.isObject(r.representation)
    && (Business(r.family) || c.hasStatus(r.representation))
    && Id(c, r) !in s.seen
  }

  /** The shape of a key, by family. */
  predicate Keyed(c: Rules, f: Family, k: Key) {
    && c.isUuid(k.tenant)
    && match f
       case Tenant => k == TenantKey(k.tenant)
       case TenantDomain => c.isHostname(k.hostname) && k == TenantKey(k.tenant).(hostname := k.hostname)
       case Organization => c.isUuid(k.organization) && k == OrganizationKey(k.tenant, k.organization)
       case Member => c.isUuid(k.member) && k == MemberKey(k.tenant, k.member)
       case OrganizationMembership => k == MembershipKey(k.tenant, k.organization, k.member)
       case Team => c.isUuid(k.team) && k == TeamKey(k.tenant, k.organization, k.team)
       case TeamMembership => k.hostname == "" && k.resource == ""
       case PersonalVirtualModel => c.isBusinessKey(k.resource)
           && k == MemberKey(k.tenant, k.member).(resource := k.resource)
       case Quota => c.isBusinessKey(k.resource) && k == TenantKey(k.tenant).(resource := k.resource)
       case OtherFamily(_) => false
       case _ => c.isBusinessKey(k.resource) && k == OrganizationKey(k.tenant, k.organization).(resource := k.resource)
  }

  function TenantKey(tenant: string): Key { Key(tenant, "", "", "", "", "") }
  function OrganizationKey(tenant: string, organization: string): Key { Key(tenant, organization, "", "", "", "") }
  function MemberKey(tenant: string, member: string): Key { Key(tenant, "", "", member, "", "") }
  function MembershipKey(tenant: string, organization: string, member: string): Key {
    Key(tenant, organization, "", member, "", "")
  }
  function TeamKey(tenant: string, organization: string, team: string): Key {
    Key(tenant, organization, team, "", "", "")
  }

  predicate HangsFromOrganization(f: Family) {
    || f == OrganizationMembership || f == Team || f == TeamMembership
    || (Business(f) && f != PersonalVirtualModel && f != Quota)
  }

  predicate HangsFromMember(f: Family) {
    f == OrganizationMembership || f == PersonalVirtualModel
  }

  /** The parents of a record, as the flat maps show them. */
  predicate Parented(s: State, f: Family, k: Key) {
    OwnersParented(s, f, k) && TeamsParented(s, f, k)
  }

  predicate OwnersParented(s: State, f: Family, k: Key) {
    && (f != Tenant ==> k.tenant in s.tenants)
    && (HangsFromOrganization(f) ==> Lookup(s.organizations, k.organization) == k.tenant)
    && (HangsFromMember(f) ==> Lookup(s.members, k.member) == k.tenant)
  }

  predicate TeamsParented(s: State, f: Family, k: Key) {
    && (f == TeamMembership ==>
        Lookup(s.teams, k.team) == k.organization && Membership(k.organization, k.member) in s.memberships)
    && (f == TeamSettings ==> Lookup(s.teams, k.resource) == k.organization)
  }

  function Entered(c: Rules, s: State, r: Record): State {
    var k := r.key;
    State(
      s.families,
      Index(r.family),
      s.seen + {Id(c, r)},
      if r.family == Tenant then s.tenants + {k.tenant} else s.tenants,
      if r.family == Organization then s.organizations[k.organization := k.tenant] else s.organizations,
      if r.family == Member then s.members[k.member := k.tenant] else s.members,
      if r.family == OrganizationMembership then s.memberships + {Membership(k.organization, k.member)}
      else s.memberships,
      if r.family == Team then s.teams[k.team := k.organization] else s.teams)
  }

  function Added(c: Rules, s: State, r: Record): Option<State> {
    if Admissible(c, s, r) && Keyed(c, r.family, r.key) && Parented(s, r.family, r.key)
    then Some(Entered(c, s, r))
    else None
  }

  function AddAll(c: Rules, s: State, records: seq<Record>): Option<State> {
    if records == [] then Some(s)
    else
      var before := AddAll(c, s, records[..|records| - 1]);
      if before.None? then None else Added(c, before.value, records[|records| - 1])
  }

  // ---- What an accepted inventory is -----------------------------------

  ghost function Keys(records: seq<Record>, f: Family): set<Key> {
    if records == [] then {}
    else
      var r := records[|records| - 1];
      Keys(records[..|records| - 1], f) + if r.family == f then {r.key} else {}
  }

  lemma {:induction false} KeyWitness(records: seq<Record>, f: Family, k: Key) returns (i: nat)
    requires k in Keys(records, f)
    ensures i < |records| && records[i].family == f && records[i].key == k
  {
    i := |records| - 1;
    if records[i].family != f || records[i].key != k { i := KeyWitness(records[..i], f, k); }
  }

  lemma {:induction false} KeyShown(records: seq<Record>, i: nat)
    requires i < |records|
    ensures records[i].key in Keys(records, records[i].family)
  {
    if i < |records| - 1 { KeyShown(records[..|records| - 1], i); }
  }

  /** The families whose records belong to an organization, and to a member. */
  const UnderOrganizations: set<Family> := {OrganizationMembership, Team, TeamMembership, Provider, LLMModel,
      CustomRole, VirtualModel, Middleware, TeamSettings, Application, Alert}
  const UnderMembers: set<Family> := {OrganizationMembership, PersonalVirtualModel}

  lemma HangsIff(f: Family)
    ensures HangsFromOrganization(f) <==> f in UnderOrganizations
    ensures HangsFromMember(f) <==> f in UnderMembers
  {
  }

  /** The parents of a record, as records of the same tenant and organization. */
  ghost predicate HasParents(records: seq<Record>, f: Family, k: Key) {
    HasOwners(records, f, k) && HasTeams(records, f, k)
  }

  ghost predicate HasOwners(records: seq<Record>, f: Family, k: Key) {
    && (f != Tenant ==> TenantKey(k.tenant) in Keys(records, Tenant))
    && (HangsFromOrganization(f) ==> OrganizationKey(k.tenant, k.organization) in Keys(records, Organization))
    && (HangsFromMember(f) ==> MemberKey(k.tenant, k.member) in Keys(records, Member))
  }

  ghost predicate HasTeams(records: seq<Record>, f: Family, k: Key) {
    && (f == TeamMembership ==>
          && TeamKey(k.tenant, k.organization, k.team) in Keys(records, Team)
          && MembershipKey(k.tenant, k.organization, k.member) in Keys(records, OrganizationMembership))
    && (f == TeamSettings ==> TeamKey(k.tenant, k.organization, k.resource) in Keys(records, Team))
  }

  ghost predicate Closed(records: seq<Record>) {
    forall r :: r in records ==> HasParents(records, r.family, r.key)
  }

  ghost predicate DuplicateFree(records: seq<Record>) {
    forall i, j :: 0 <= i < j < |records| ==> records[i].family != records[j].family || records[i].key != records[j].key
  }

  ghost predicate Ordered(records: seq<Record>) {
    forall i, j :: 0 <= i < j < |records| ==> Index(records[i].family) <= Index(records[j].family)
  }

  /** The families, in the order they come in. */
  lemma FamiliesAreIndexed(f: Family)
    ensures Index(f) >= 0 <==> f in Families
    ensures forall i :: 0 <= i < |Families| ==> Index(Families[i]) == i
    ensures Business(f) <==> f in BusinessFamilies
  {
    if Index(f) >= 0 { assert Families[Index(f)] == f; }
    if Business(f) { assert BusinessFamilies[Index(f) - 7] == f; }
  }

  /** Which parts of a key a family fills, and with what. */
  ghost predicate WellKeyed(c: Rules, f: Family, k: Key) {
    && c.isUuid(k.tenant)
    && (k.organization != "" ==> f in UnderOrganizations || f == Organization)
    && (k.team != "" ==> f == Team || f == TeamMembership)
    && (k.member != "" ==> f in UnderMembers || f == Member || f == TeamMembership)
    && (k.hostname != "" ==> f == TenantDomain)
    && (k.resource != "" ==> f in BusinessFamilies)
    && (f == TenantDomain ==> c.isHostname(k.hostname))
    && (f == Organization ==> c.isUuid(k.organization))
    && (f == Member ==> c.isUuid(k.member))
    && (f == Team ==> c.isUuid(k.team))
    && (f in BusinessFamilies ==> c.isBusinessKey(k.resource))
  }

  lemma KeyedIff(c: Rules, f: Family, k: Key)
    requires f in Families
    ensures Keyed(c, f, k) <==> WellKeyed(c, f, k)
  {
    FamiliesAreIndexed(f);
  }

  ghost predicate AllKeyed(c: Rules, records: seq<Record>) {
    forall r :: r in records ==> Keyed(c, r.family, r.key)
  }

  lemma KeysStep(records: seq<Record>, r: Record, f: Family)
    ensures Keys(records + [r], f) == Keys(records, f) + if r.family == f then {r.key} else {}
  {
    assert (records + [r])[..|records|] == records;
  }

  lemma HasParentsLater(records: seq<Record>, r: Record, f: Family, k: Key)
    requires HasParents(records, f, k)
    ensures HasParents(records + [r], f, k)
  {
    KeysStep(records, r, Tenant);
    KeysStep(records, r, Organization);
    KeysStep(records, r, Member);
    KeysStep(records, r, OrganizationMembership);
    KeysStep(records, r, Team);
  }

  lemma IdInjective(c: Rules, a: Record, b: Record)
    requires Lawful(c) && Index(a.family) >= 0 && Index(b.family) >= 0 && Id(c, a) == Id(c, b)
    ensures a.family == b.family && a.key == b.key
  {
    var m, n := c.familyName(a.family), c.familyName(b.family);
    SameHead(m, n, c.keyJson(a.key), c.keyJson(b.key), '{');
  }

  lemma MembershipInjective(c: Rules, k: Key, l: Key)
    requires Lawful(c) && c.isUuid(k.organization) && c.isUuid(l.organization)
    requires Membership(k.organization, k.member) == Membership(l.organization, l.member)
    ensures k.organization == l.organization && k.member == l.member
  {
    var x, y := ":" + k.member, ":" + l.member;
    assert k.organization + x == Membership(k.organization, k.member);
    assert l.organization + y == Membership(l.organization, l.member);
    SameHead(k.organization, l.organization, x, y, ':');
    assert (":" + k.member)[1..] == k.member && (":" + l.member)[1..] == l.member;
  }

  // ---- The maps describe the records -----------------------------------

  /** The families come in order: nothing of a later family than the state's. */
  ghost predicate InOrder(s: State, records: seq<Record>) {
    && Ordered(records)
    && (forall r :: r in records ==> 0 <= Index(r.family) <= s.family)
    && s.family == if records == [] then 0 else Index(records[|records| - 1].family)
  }

  ghost predicate TenantsShown(s: State, records: seq<Record>) {
    forall t :: t in s.tenants <==> TenantKey(t) in Keys(records, Tenant)
  }

  ghost predicate OrganizationsShown(c: Rules, s: State, records: seq<Record>) {
    && (forall o :: o in s.organizations ==>
        c.isUuid(o) && OrganizationKey(s.organizations[o], o) in Keys(records, Organization))
    && (forall k :: k in Keys(records, Organization) ==> k.organization in s.organizations)
  }

  ghost predicate MembersShown(s: State, records: seq<Record>) {
    && (forall m :: m in s.members ==> MemberKey(s.members[m], m) in Keys(records, Member))
    && (forall k :: k in Keys(records, Member) ==> k.member in s.members)
  }

  /** The organization of a key is the tenant's, and stays so once teams and
      memberships have come. */
  ghost predicate Settled(s: State, keys: set<Key>) {
    forall k :: k in keys ==> k.organization in s.organizations && s.organizations[k.organization] == k.tenant
  }

  ghost predicate TeamsShown(s: State, records: seq<Record>) {
    Settled(s, Keys(records, Team)) && TeamsIn(s.organizations, s.teams, Keys(records, Team))
  }

  ghost predicate TeamsIn(organizations: map<string, string>, teams: map<string, string>, keys: set<Key>) {
    && (forall t {:trigger TeamHeld(organizations, teams, keys, t)} :: t in teams ==>
        TeamHeld(organizations, teams, keys, t))
    && (forall k :: k in keys ==> k.team in teams)
  }

  ghost predicate TeamHeld(organizations: map<string, string>, teams: map<string, string>, keys: set<Key>, t: string)
    requires t in teams
  {
    teams[t] in organizations && TeamKey(organizations[teams[t]], teams[t], t) in keys
  }

  ghost predicate MembershipsShown(s: State, records: seq<Record>) {
    && Settled(s, Keys(records, OrganizationMembership))
    && s.memberships == set k | k in Keys(records, OrganizationMembership) :: Membership(k.organization, k.member)
  }

  ghost predicate SeenShown(c: Rules, s: State, records: seq<Record>) {
    DuplicateFree(records) && s.seen == set r | r in records :: Id(c, r)
  }

  ghost predicate Shown(c: Rules, s: State, records: seq<Record>) {
    && InOrder(s, records)
    && TenantsShown(s, records)
    && OrganizationsShown(c, s, records)
    && MembersShown(s, records)
    && TeamsShown(s, records)
    && MembershipsShown(s, records)
    && SeenShown(c, s, records)
    && AllKeyed(c, records)
    && Closed(records)
  }

  /** No record of a family later than the one being added. */
  lemma LaterFamilyEmpty(s: State, records: seq<Record>, r: Record, f: Family)
    requires InOrder(s, records) && s.family <= Index(r.family) < Index(f)
    ensures Keys(records, f) == {}
  {
    if k :| k in Keys(records, f) {
      var i := KeyWitness(records, f, k);
    }
  }

  lemma OrganizationFound(c: Rules, s: State, records: seq<Record>, tenant: string, organization: string)
    requires Lawful(c) && OrganizationsShown(c, s, records)
    requires c.isUuid(tenant) && Lookup(s.organizations, organization) == tenant
    ensures c.isUuid(organization) && organization in s.organizations
    ensures OrganizationKey(tenant, organization) in Keys(records, Organization)
  {
  }

  lemma MemberFound(c: Rules, s: State, records: seq<Record>, tenant: string, member: string)
    requires Lawful(c) && MembersShown(s, records)
    requires c.isUuid(tenant) && Lookup(s.members, member) == tenant
    ensures MemberKey(tenant, member) in Keys(records, Member)
  {
  }

  lemma TeamFound(c: Rules, s: State, records: seq<Record>, tenant: string, organization: string, team: string)
    requires Lawful(c) && TeamsShown(s, records)
    requires organization in s.organizations && s.organizations[organization] == tenant && c.isUuid(organization)
    requires Lookup(s.teams, team) == organization
    ensures TeamKey(tenant, organization, team) in Keys(records, Team)
  {
    assert team in s.teams && TeamHeld(s.organizations, s.teams, Keys(records, Team), team);
  }

  lemma MembershipFound(c: Rules, s: State, records: seq<Record>, k: Key)
    requires Lawful(c) && MembershipsShown(s, records) && OrganizationsShown(c, s, records) && AllKeyed(c, records)
    requires Membership(k.organization, k.member) in s.memberships
    requires k.organization in s.organizations && s.organizations[k.organization] == k.tenant
    ensures MembershipKey(k.tenant, k.organization, k.member) in Keys(records, OrganizationMembership)
  {
    var l :| l in Keys(records, OrganizationMembership)
        && Membership(l.organization, l.member) == Membership(k.organization, k.member);
    assert l.organization in s.organizations && s.organizations[l.organization] == l.tenant;
    MembershipInjective(c, k, l);
    var i := KeyWitness(records, OrganizationMembership, l);
    assert records[i] in records && Keyed(c, records[i].family, records[i].key);
  }

  lemma OwnersFound(c: Rules, s: State, records: seq<Record>, f: Family, k: Key)
    requires Lawful(c) && TenantsShown(s, records) && OrganizationsShown(c, s, records) && MembersShown(s, records)
    requires c.isUuid(k.tenant) && OwnersParented(s, f, k)
    ensures HasOwners(records, f, k)
  {
    if HangsFromOrganization(f) { OrganizationFound(c, s, records, k.tenant, k.organization); }
    if HangsFromMember(f) { MemberFound(c, s, records, k.tenant, k.member); }
  }

  lemma TeamsFound(c: Rules, s: State, records: seq<Record>, f: Family, k: Key)
    requires Lawful(c) && AllKeyed(c, records) && OrganizationsShown(c, s, records)
    requires TeamsShown(s, records) && MembershipsShown(s, records)
    requires c.isUuid(k.tenant) && OwnersParented(s, f, k) && TeamsParented(s, f, k)
    ensures HasTeams(records, f, k)
  {
    if HangsFromOrganization(f) { OrganizationFound(c, s, records, k.tenant, k.organization); }
    if f == TeamMembership {
      TeamFound(c, s, records, k.tenant, k.organization, k.team);
      MembershipFound(c, s, records, k);
    }
    if f == TeamSettings { TeamFound(c, s, records, k.tenant, k.organization, k.resource); }
  }

  lemma OrderStep(c: Rules, s: State, records: seq<Record>, r: Record)
    requires InOrder(s, records) && Admissible(c, s, r)
    ensures InOrder(Entered(c, s, r), records + [r])
  {
    var all := records + [r];
    forall i, j | 0 <= i < j < |all| ensures Index(all[i].family) <= Index(all[j].family) {
      assert all[i] in records;
    }
  }

  lemma SeenStep(c: Rules, s: State, records: seq<Record>, r: Record)
    requires SeenShown(c, s, records) && Admissible(c, s, r)
    ensures SeenShown(c, Entered(c, s, r), records + [r])
  {
    var all := records + [r];
    forall i, j | 0 <= i < j < |all| ensures all[i].family != all[j].family || all[i].key != all[j].key {
      if j == |records| { assert Id(c, all[i]) in s.seen; }
    }
  }

  lemma TenantsStep(c: Rules, s: State, records: seq<Record>, r: Record)
    requires TenantsShown(s, records) && Keyed(c, r.family, r.key)
    ensures TenantsShown(Entered(c, s, r), records + [r])
  {
    KeysStep(records, r, Tenant);
  }

  lemma OrganizationsStep(c: Rules, s: State, records: seq<Record>, r: Record)
    requires OrganizationsShown(c, s, records) && Keyed(c, r.family, r.key)
    ensures OrganizationsShown(c, Entered(c, s, r), records + [r])
  {
    KeysStep(records, r, Organization);
  }

  lemma MembersStep(c: Rules, s: State, records: seq<Record>, r: Record)
    requires MembersShown(s, records) && Keyed(c, r.family, r.key)
    ensures MembersShown(Entered(c, s, r), records + [r])
  {
    KeysStep(records, r, Member);
  }

  /** What the teams and memberships need of a record being added. */
  ghost predicate Fitting(s: State, f: Family, k: Key) {
    && s.family <= Index(f)
    && (f == Team ==> k == TeamKey(k.tenant, k.organization, k.team))
    && (f == Team || f == OrganizationMembership ==>
          k.organization in s.organizations && s.organizations[k.organization] == k.tenant)
  }

  lemma AddedFits(c: Rules, s: State, r: Record)
    requires Lawful(c) && Added(c, s, r).Some?
    ensures Fitting(s, r.family, r.key)
  {
  }

  lemma TeamsStep(c: Rules, s: State, records: seq<Record>, r: Record)
    requires InOrder(s, records) && TeamsShown(s, records) && Fitting(s, r.family, r.key)
    ensures TeamsShown(Entered(c, s, r), records + [r])
  {
    KeysStep(records, r, Team);
    if r.family == Organization {
      LaterFamilyEmpty(s, records, r, Team);
      NoTeams(s.organizations, s.teams, Keys(records, Team));
    } else if r.family == Team {
      TeamEntered(s.organizations, s.teams, Keys(records, Team), r.key);
    } else {
      assert Keys(records + [r], Team) == Keys(records, Team);
    }
  }

  lemma TeamEntered(organizations: map<string, string>, teams: map<string, string>, keys: set<Key>, k: Key)
    requires TeamsIn(organizations, teams, keys)
    requires k == TeamKey(k.tenant, k.organization, k.team)
    requires k.organization in organizations && organizations[k.organization] == k.tenant
    ensures TeamsIn(organizations, teams[k.team := k.organization], keys + {k})
  {
    var teams' := teams[k.team := k.organization];
    forall t | t in teams' ensures TeamHeld(organizations, teams', keys + {k}, t) {
      if t != k.team { assert TeamHeld(organizations, teams, keys, t); }
    }
  }

  lemma NoTeams(organizations: map<string, string>, teams: map<string, string>, keys: set<Key>)
    requires TeamsIn(organizations, teams, keys) && keys == {}
    ensures teams == map[]
  {
    assert forall t :: t in teams ==> TeamHeld(organizations, teams, keys, t);
  }

  lemma MembershipsStep(c: Rules, s: State, records: seq<Record>, r: Record)
    requires InOrder(s, records) && MembershipsShown(s, records) && Fitting(s, r.family, r.key)
    ensures MembershipsShown(Entered(c, s, r), records + [r])
  {
    KeysStep(records, r, OrganizationMembership);
    if r.family == Organization {
      LaterFamilyEmpty(s, records, r, OrganizationMembership);
    }
  }

  lemma ClosedStep(c: Rules, s: State, records: seq<Record>, r: Record)
    requires Lawful(c) && Shown(c, s, records) && Added(c, s, r).Some?
    ensures Closed(records + [r])
  {
    OwnersFound(c, s, records, r.family, r.key);
    TeamsFound(c, s, records, r.family, r.key);
    forall x | x in records + [r] ensures HasParents(records + [r], x.family, x.key) {
      HasParentsLater(records, r, x.family, x.key);
    }
  }

  lemma ShownStep(c: Rules, s: State, records: seq<Record>, r: Record)
    requires Lawful(c) && Shown(c, s, records) && Added(c, s, r).Some?
    ensures Shown(c, Added(c, s, r).value, records + [r])
  {
    OrderStep(c, s, records, r);
    SeenStep(c, s, records, r);
    TenantsStep(c, s, records, r);
    OrganizationsStep(c, s, records, r);
    MembersStep(c, s, records, r);
    AddedFits(c, s, r);
    TeamsStep(c, s, records, r);
    MembershipsStep(c, s, records, r);
    ClosedStep(c, s, records, r);
  }

  lemma {:induction false} AddAllShown(c: Rules, families: set<Family>, records: seq<Record>)
    requires Lawful(c) && AddAll(c, InitialState(families), records).Some?
    ensures Shown(c, AddAll(c, InitialState(families), records).value, records)
  {
    if records != [] {
      var init, r := records[..|records| - 1], records[|records| - 1];
      AddAllShown(c, families, init);
      ShownStep(c, AddAll(c, InitialState(families), init).value, init, r);
      assert init + [r] == records;
    }
  }

  /** Accepted records are closed under parents of the same tenant and
      organization, free of duplicates and in family order. */
  lemma AcceptedIsClosed(c: Rules, families: set<Family>, records: seq<Record>)
    requires Lawful(c) && AddAll(c, InitialState(families), records).Some?
    ensures Closed(records) && DuplicateFree(records) && Ordered(records) && AllKeyed(c, records)
    ensures forall r :: r in records ==> Complete(c, families, r)
  {
    AddAllShown(c, families, records);
    AcceptedAreComplete(c, families, records);
  }

  /** A record of an announced family that says what it has to. */
  ghost predicate Complete(c: Rules, families: set<Family>, r: Record) {
    && r.family in families && r.family in Families && WellKeyed(c, r.family, r.key)
    && r.etag != "" && c.isObject(r.representation)
    && (r.family in CommonFamilies ==> c.hasStatus(r.representation))
  }

  lemma {:induction false} AcceptedAreComplete(c: Rules, families: set<Family>, records: seq<Record>)
    requires AddAll(c, InitialState(families), records).Some?
    ensures AddAll(c, InitialState(families), records).value.families == families
    ensures forall r :: r in records ==> Complete(c, families, r)
  {
    if records != [] {
      var init, last := records[..|records| - 1], records[|records| - 1];
      AcceptedAreComplete(c, families, init);
      FamiliesAreIndexed(last.family);
      KeyedIff(c, last.family, last.key);
      assert forall r :: r in records ==> r in init || r == last;
    }
  }

  // ---- Consistent inventories are accepted -----------------------------

  /** An organization, a member and a team have one owner each. */
  ghost predicate OneOwner(records: seq<Record>) {
    OrganizationsUnique(records) && MembersUnique(records) && TeamsUnique(records)
  }

  ghost predicate OrganizationsUnique(records: seq<Record>) {
    forall k, l ::
      k in Keys(records, Organization) && l in Keys(records, Organization) && k.organization == l.organization ==>
        k == l
  }

  ghost predicate MembersUnique(records: seq<Record>) {
    forall k, l :: k in Keys(records, Member) && l in Keys(records, Member) && k.member == l.member ==> k == l
  }

  ghost predicate TeamsUnique(records: seq<Record>) {
    forall k, l :: k in Keys(records, Team) && l in Keys(records, Team) && k.team == l.team ==> k == l
  }

  predicate Sound(c: Rules, r: Record) {
    r.etag != "" && c.isObject(r.representation) && (Business(r.family) || c.hasStatus(r.representation))
  }

  ghost predicate Consistent(c: Rules, families: set<Family>, records: seq<Record>) {
    && (forall r :: r in records ==> Sound(c, r) && r.family in families)
    && AllKeyed(c, records)
    && Ordered(records)
    && DuplicateFree(records)
    && Closed(records)
    && OneOwner(records)
  }

  /** Parents are of an earlier family, hence before their children. */
  lemma ParentBefore(records: seq<Record>, i: nat, f: Family, k: Key)
    requires i < |records| && Ordered(records) && Index(f) < Index(records[i].family)
    requires k in Keys(records, f)
    ensures k in Keys(records[..i], f)
  {
    var j := KeyWitness(records, f, k);
    KeyShown(records[..i], j);
  }

  lemma ParentsBefore(records: seq<Record>, i: nat)
    requires i < |records| && Ordered(records) && Closed(records) && Index(records[i].family) >= 0
    ensures HasParents(records[..i], records[i].family, records[i].key)
  {
    var f, k := records[i].family, records[i].key;
    assert HasParents(records, f, k);
    if f != Tenant { ParentBefore(records, i, Tenant, TenantKey(k.tenant)); }
    if HangsFromOrganization(f) { ParentBefore(records, i, Organization, OrganizationKey(k.tenant, k.organization)); }
    if HangsFromMember(f) { ParentBefore(records, i, Member, MemberKey(k.tenant, k.member)); }
    if f == TeamMembership {
      ParentBefore(records, i, Team, TeamKey(k.tenant, k.organization, k.team));
      ParentBefore(records, i, OrganizationMembership, MembershipKey(k.tenant, k.organization, k.member));
    }
    if f == TeamSettings { ParentBefore(records, i, Team, TeamKey(k.tenant, k.organization, k.resource)); }
  }

  lemma {:induction false} KeysOfPrefix(records: seq<Record>, i: nat, f: Family)
    requires i <= |records|
    ensures Keys(records[..i], f) <= Keys(records, f)
  {
    if i == |records| {
      assert records[..i] == records;
    } else {
      KeysOfPrefix(records[..|records| - 1], i, f);
      assert records[..|records| - 1][..i] == records[..i];
    }
  }

  lemma OneOwnerPrefix(records: seq<Record>, i: nat)
    requires i <= |records| && OneOwner(records)
    ensures OneOwner(records[..i])
  {
    KeysOfPrefix(records, i, Organization);
    KeysOfPrefix(records, i, Member);
    KeysOfPrefix(records, i, Team);
  }

  /** With one owner each, the maps show every parent. */
  lemma OwnersShown(c: Rules, s: State, records: seq<Record>, f: Family, k: Key)
    requires TenantsShown(s, records) && OrganizationsShown(c, s, records) && MembersShown(s, records)
    requires OrganizationsUnique(records) && MembersUnique(records) && HasOwners(records, f, k)
    ensures OwnersParented(s, f, k)
  {
    if HangsFromOrganization(f) { OrganizationOwner(c, s, records, OrganizationKey(k.tenant, k.organization)); }
    if HangsFromMember(f) { MemberOwner(s, records, MemberKey(k.tenant, k.member)); }
  }

  lemma TeamParentsShown(s: State, records: seq<Record>, f: Family, k: Key)
    requires TeamsShown(s, records) && MembershipsShown(s, records)
    requires TeamsUnique(records) && HasTeams(records, f, k)
    ensures TeamsParented(s, f, k)
  {
    if f == TeamMembership {
      TeamOwner(s, records, TeamKey(k.tenant, k.organization, k.team));
      MembershipOwner(s, records, MembershipKey(k.tenant, k.organization, k.member));
    }
    if f == TeamSettings { TeamOwner(s, records, TeamKey(k.tenant, k.organization, k.resource)); }
  }

  lemma MembershipOwner(s: State, records: seq<Record>, k: Key)
    requires MembershipsShown(s, records) && k in Keys(records, OrganizationMembership)
    ensures Membership(k.organization, k.member) in s.memberships
  {
  }

  lemma OrganizationOwner(c: Rules, s: State, records: seq<Record>, k: Key)
    requires OrganizationsShown(c, s, records) && OrganizationsUnique(records) && k in Keys(records, Organization)
    ensures Lookup(s.organizations, k.organization) == k.tenant
  {
    assert OrganizationKey(s.organizations[k.organization], k.organization) == k;
  }

  lemma MemberOwner(s: State, records: seq<Record>, k: Key)
    requires MembersShown(s, records) && MembersUnique(records) && k in Keys(records, Member)
    ensures Lookup(s.members, k.member) == k.tenant
  {
    assert MemberKey(s.members[k.member], k.member) == k;
  }

  lemma TeamOwner(s: State, records: seq<Record>, k: Key)
    requires TeamsShown(s, records) && TeamsUnique(records) && k in Keys(records, Team)
    ensures Lookup(s.teams, k.team) == k.organization
  {
    OwnerOfTeam(s.organizations, s.teams, Keys(records, Team), k);
  }

  lemma OwnerOfTeam(organizations: map<string, string>, teams: map<string, string>, keys: set<Key>, k: Key)
    requires TeamsIn(organizations, teams, keys) && k in keys
    requires forall l :: l in keys && l.team == k.team ==> l == k
    ensures Lookup(teams, k.team) == k.organization
  {
    assert TeamHeld(organizations, teams, keys, k.team);
  }

  lemma {:induction false} AddAllFamilies(c: Rules, s: State, records: seq<Record>)
    requires AddAll(c, s, records).Some?
    ensures AddAll(c, s, records).value.families == s.families
  {
    if records != [] { AddAllFamilies(c, s, records[..|records| - 1]); }
  }

  lemma NotSeen(c: Rules, s: State, records: seq<Record>, i: nat)
    requires Lawful(c) && i < |records| && DuplicateFree(records) && SeenShown(c, s, records[..i])
    requires InOrder(s, records[..i]) && Index(records[i].family) >= 0
    ensures Id(c, records[i]) !in s.seen
  {
    forall x | x in records[..i] ensures Id(c, x) != Id(c, records[i]) {
      if Id(c, x) == Id(c, records[i]) { IdInjective(c, x, records[i]); }
    }
  }

  lemma NextAdmissible(c: Rules, s: State, records: seq<Record>, i: nat)
    requires Lawful(c) && i < |records| && Ordered(records) && DuplicateFree(records)
    requires Sound(c, records[i]) && records[i].family in s.families && Index(records[i].family) >= 0
    requires InOrder(s, records[..i]) && SeenShown(c, s, records[..i])
    ensures Admissible(c, s, records[i])
  {
    NotSeen(c, s, records, i);
  }

  lemma NextParented(c: Rules, s: State, records: seq<Record>, i: nat)
    requires i < |records| && Ordered(records) && Closed(records) && OneOwner(records)
    requires Index(records[i].family) >= 0 && Shown(c, s, records[..i])
    ensures Parented(s, records[i].family, records[i].key)
  {
    ParentsBefore(records, i);
    OneOwnerPrefix(records, i);
    OwnersShown(c, s, records[..i], records[i].family, records[i].key);
    TeamParentsShown(s, records[..i], records[i].family, records[i].key);
  }

  lemma ConsistentAt(c: Rules, families: set<Family>, records: seq<Record>, i: nat)
    requires Consistent(c, families, records) && i < |records|
    ensures Sound(c, records[i]) && records[i].family in families
    ensures Keyed(c, records[i].family, records[i].key) && Index(records[i].family) >= 0
  {
    assert records[i] in records;
  }

  lemma NextAdds(c: Rules, families: set<Family>, s: State, records: seq<Record>, i: nat)
    requires Lawful(c) && Consistent(c, families, records) && i < |records|
    requires AddAll(c, InitialState(families), records[..i]) == Some(s)
    ensures Added(c, s, records[i]).Some?
  {
    AddAllShown(c, families, records[..i]);
    AddAllFamilies(c, InitialState(families), records[..i]);
    ConsistentAt(c, families, records, i);
    NextAdmissible(c, s, records, i);
    NextParented(c, s, records, i);
  }

  lemma {:induction false} PrefixAdds(c: Rules, families: set<Family>, records: seq<Record>, i: nat)
    requires Lawful(c) && Consistent(c, families, records) && i <= |records|
    ensures AddAll(c, InitialState(families), records[..i]).Some?
  {
    if i > 0 {
      PrefixAdds(c, families, records, i - 1);
      NextAdds(c, families, AddAll(c, InitialState(families), records[..i - 1]).value, records, i - 1);
      assert records[..i][..i - 1] == records[..i - 1];
    }
  }

  /** Every consistent inventory is accepted. */
  lemma ConsistentIsAccepted(c: Rules, families: set<Family>, records: seq<Record>)
    requires Lawful(c) && Consistent(c, families, records)
    ensures AddAll(c, InitialState(families), records).Some?
  {
    PrefixAdds(c, families, records, |records|);
    assert records[..|records|] == records;
  }
}
