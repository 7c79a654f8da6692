/** Writing and verifying an export as streams
    (internal/adoption/verify.go:41-127, 141-308, internal/adoption/adoption.go:63-100). */
module ExportVerifier {
  import opened Prelude
  import opened Inventory
  import opened Exports
  import opened ExportLaws

  /** A record of the first families shows in its map. */
  ghost function Registered(s: State, f: Family, k: Key): State {
    s.(tenants := if f == Tenant then s.tenants + {k.tenant} else s.tenants,
       organizations := if f == Organization then s.organizations[k.organization := k.tenant] else s.organizations,
       members := if f == Member then s.members[k.member := k.tenant] else s.members,
       memberships := if f == OrganizationMembership then s.memberships + {Membership(k.organization, k.member)}
           else s.memberships,
       teams := if f == Team then s.teams[k.team := k.organization] else s.teams)
  }

  /** Checks records as they come: their order, their keys and their parents. */
  class InventoryState {
    var families: set<Family>
    var family: int
    var seen: set<string>
    var tenants: set<string>
    var organizations: map<string, string>
    var members: map<string, string>
    var memberships: set<string>
    var teams: map<string, string>

    ghost function Model(): State
      reads this
    {
      State(families, family, seen, tenants, organizations, members, memberships, teams)
    }

    constructor ()
      ensures Model() == InitialState({})
    {
      families, family, seen, tenants := {}, 0, {}, {};
      organizations, members, memberships, teams := map[], map[], {}, map[];
    }

    method Allow(declared: seq<Family>) returns (ok: bool)
      modifies this
      ensures ok == Allowed(declared)
      ensures ok ==> Model() == old(Model()).(families := Elements(declared))
    {
      var last := -1;
      families := {};
      for i := 0 to |declared|
        invariant -1 <= last && (i == 0 ==> last == -1) && (i > 0 ==> last == Index(declared[i - 1]))
        invariant forall j :: 0 <= j < i ==> 0 <= Index(declared[j]) <= last
        invariant forall j, k :: 0 <= j < k < i ==> Index(declared[j]) < Index(declared[k])
        invariant Model() == old(Model()).(families := Elements(declared[..i]))
      {
        var index := Index(declared[i]);
        if index <= last {
          return false;
        }
        last := index;
        assert declared[..i + 1] == declared[..i] + [declared[i]];
        families := families + {declared[i]};
      }
      assert declared[..|declared|] == declared;
      return forall f :: f in CommonFamilies ==> f in families;
    }

    method Add(c: Rules, r: Record) returns (ok: bool)
      modifies this
      ensures ok == Added(c, old(Model()), r).Some?
      ensures ok ==> Model() == Added(c, old(Model()), r).value
    {
      var k := r.key;
      if r.family !in families || Index(r.family) < 0 || Index(r.family) < family { return false; }
      family := Index(r.family);
      if r.etag == "" { return false; }
      if !c.isObject(r.representation) || (!Business(r.family) && !c.hasStatus(r.representation)) { return false; }
      if Id(c, r) in seen { return false; }
      seen := seen + {Id(c, r)};
      if !c.isUuid(k.tenant) { return false; }
      if r.family != Tenant && k.tenant !in tenants { return false; }
      if Business(r.family) {
        ok := AddBusiness(c, r.family, k);
      } else {
        ok := AddCommon(c, r.family, k);
      }
    }

    method AddCommon(c: Rules, f: Family, k: Key) returns (ok: bool)
      requires 0 <= Index(f) < 7 && c.isUuid(k.tenant) && (f != Tenant ==> k.tenant in tenants)
      modifies this
      ensures ok == (Keyed(c, f, k) && old(Parented(Model(), f, k)))
      ensures ok ==> Model() == Registered(old(Model()), f, k)
    {
      if k.resource != "" { return false; }
      if k.team != "" && f != Team && f != TeamMembership { return false; }
      match f {
        case Tenant =>
          if k.organization != "" || k.member != "" || k.hostname != "" { return false; }
          tenants := tenants + {k.tenant};
        case TenantDomain =>
          if !c.isHostname(k.hostname) || k.organization != "" || k.member != "" { return false; }
        case Organization =>
          if !c.isUuid(k.organization) || k.member != "" || k.hostname != "" { return false; }
          organizations := organizations[k.organization := k.tenant];
        case Member =>
          if !c.isUuid(k.member) || k.organization != "" || k.hostname != "" { return false; }
          members := members[k.member := k.tenant];
        case OrganizationMembership =>
          if k.hostname != "" { return false; }
          if Lookup(organizations, k.organization) != k.tenant || Lookup(members, k.member) != k.tenant {
            return false;
          }
          memberships := memberships + {Membership(k.organization, k.member)};
        case Team =>
          if !c.isUuid(k.team) || k.member != "" || k.hostname != "" { return false; }
          if Lookup(organizations, k.organization) != k.tenant { return false; }
          teams := teams[k.team := k.organization];
        case TeamMembership =>
          if k.hostname != "" { return false; }
          if || Lookup(organizations, k.organization) != k.tenant
             || Lookup(teams, k.team) != k.organization
             || Membership(k.organization, k.member) !in memberships
          { return false; }
      }
      return true;
    }

    method AddBusiness(c: Rules, f: Family, k: Key) returns (ok: bool)
      requires Business(f) && c.isUuid(k.tenant) && k.tenant in tenants
      ensures ok == (Keyed(c, f, k) && Parented(Model(), f, k))
    {
      if f == PersonalVirtualModel {
        if !c.isBusinessKey(k.resource) || k.organization != "" || k.hostname != "" || k.team != "" { return false; }
        return Lookup(members, k.member) == k.tenant;
      }
      if !c.isBusinessKey(k.resource) || k.member != "" || k.hostname != "" || k.team != "" { return false; }
      if f == TeamSettings && Lookup(teams, k.resource) != k.organization { return false; }
      if f == Quota { return k.organization == ""; }
      return Lookup(organizations, k.organization) == k.tenant;
    }
  }

  /** An export being read. */
  class Reading {
    var line: nat
    var source: string
    var cursor: string
    var covered: Bytes
    var trailer: Option<Trailer>
    var count: nat
    var families: map<Family, nat>
    const state: InventoryState

    ghost function Model(): Progress
      reads this, state
    {
      Progress(line, source, cursor, covered, state.Model(), trailer, count, families)
    }

    constructor ()
      ensures Model() == Start && fresh(state)
    {
      line, source, cursor, covered, trailer, count, families := 0, "", "", [], None, 0, map[];
      state := new InventoryState();
    }

    method Header(c: Codec, raw: Bytes, body: Bytes) returns (ok: bool)
      requires line == 0 && state.Model() == InitialState({})
      modifies this, state
      ensures ok == ReadHeader(c, old(Model()), raw, body).Some?
      ensures ok ==> Model() == ReadHeader(c, old(Model()), raw, body).value
    {
      var header := c.header(body);
      if header.None? { return false; }
      var h := header.value;
      if h.version != Version || h.contract != Contract || h.source == "" || h.cursor == "" { return false; }
      ok := state.Allow(h.families);
      line, source, cursor, covered := 1, h.source, h.cursor, covered + raw;
    }

    method Record(c: Codec, raw: Bytes, body: Bytes) returns (ok: bool)
      modifies this, state
      ensures ok == ReadRecord(c, old(Model()), raw, body).Some?
      ensures ok ==> Model() == ReadRecord(c, old(Model()), raw, body).value
    {
      var record := c.record(body);
      if record.None? { return false; }
      ok := state.Add(c.rules, record.value);
      line, count, covered := line + 1, count + 1, covered + raw;
      families := Counted(families, record.value.family);
    }

    method Line(c: Codec, raw: Bytes) returns (ok: bool)
      requires raw != [] && (line == 0 ==> Model() == Start)
      modifies this, state
      ensures ok == ReadLine(c, old(Model()), raw).Some?
      ensures ok ==> Model() == ReadLine(c, old(Model()), raw).value
    {
      if |raw| > MaxLineSize { return false; }
      if raw[|raw| - 1] != Newline { return false; }
      if trailer.Some? { return false; }
      var body := raw[..|raw| - 1];
      if line == 0 {
        ok := Header(c, raw, body);
        return;
      }
      var probe := c.probe(body);
      if probe.None? { return false; }
      if probe.value {
        var t := c.trailer(body);
        if t.None? { return false; }
        trailer, line := t, line + 1;
        return true;
      }
      ok := Record(c, raw, body);
    }

    method Finish(c: Codec) returns (r: Option<Summary>)
      ensures r == Finished(c, Model())
    {
      if line == 0 || trailer.None? || !trailer.value.complete { return None; }
      if trailer.value.count != count || trailer.value.sha256 != c.digest(covered) { return None; }
      if Tenant !in families || families[Tenant] == 0 { return None; }
      return Some(Summary(source, cursor, count, families));
    }
  }

  /** Reads a whole export and checks it, keeping only keys. */
  method Verify(c: Codec, data: Bytes) returns (r: Option<Summary>)
    ensures r == Verified(c, data)
  {
    var reading := new Reading();
    var rest := data;
    ghost var done: seq<Bytes> := [];
    while rest != []
      invariant done + Lines(rest) == Lines(data)
      invariant ReadAll(c, done) == Some(reading.Model())
      invariant fresh(reading) && fresh(reading.state)
      decreases |rest|
    {
      var n := LineLength(rest);
      var raw := rest[..n];
      rest := rest[n..];
      assert Lines(data) == done + [raw] + Lines(rest);
      ReadStep(c, done, raw);
      RefusedLine(c, done + [raw], Lines(rest));
      FirstState(c, done);
      var ok := reading.Line(c, raw);
      if !ok { return None; }
      done := done + [raw];
    }
    assert done == Lines(data);
    r := reading.Finish(c);
  }

  /** A line refused refuses the export. */
  lemma RefusedLine(c: Codec, lines: seq<Bytes>, rest: seq<Bytes>)
    ensures ReadAll(c, lines).None? ==> ReadAll(c, lines + rest).None?
  {
    if ReadAll(c, lines + rest).Some? {
      ReadPrefix(c, lines + rest, |lines|);
      assert (lines + rest)[..|lines|] == lines;
    }
  }

  lemma {:induction false} FirstState(c: Codec, lines: seq<Bytes>)
    ensures ReadAll(c, lines).Some? && ReadAll(c, lines).value.line == 0 ==> ReadAll(c, lines).value == Start
  {
  }

  /** Writes the inventory; on failure the output lacks its trailer. The reader
      gives a source and a cursor, items, and may fail after them. */
  method Export(
    c: Codec, source: string, cursor: string, items: seq<Record>, fails: bool)
    returns (ok: bool, out: Bytes)
    ensures ok == (Writable(c, items) && !fails && items != [])
    ensures ok ==> out == Exported(c, source, cursor, items)
    ensures !ok ==>
              exists n: nat ::
                && n <= |items|
                && Writable(c, items[..n])
                && out == Concat(WrittenLines(c, source, cursor, items[..n]))
  {
    out := HeaderLine(c, source, cursor);
    var covered, count := out, 0;
    assert items[..0] == [];
    assert Concat([out]) == out + Concat([]);
    for i := 0 to |items|
      invariant count == i && covered == out
      invariant Writable(c, items[..i]) && out == Concat(WrittenLines(c, source, cursor, items[..i]))
    {
      count := count + 1;
      var line := c.writeRecord(items[i]);
      if line.None? {
        assert items[i] in items;
        return false, out;
      }
      assert items[..i + 1][..i] == items[..i];
      ConcatLast(WrittenLines(c, source, cursor, items[..i]), line.value + [Newline]);
      covered := covered + (line.value + [Newline]);
      out := out + (line.value + [Newline]);
    }
    assert items[..|items|] == items;
    if fails || count == 0 {
      return false, out;
    }
    out := out + TrailerLine(c, count, covered);
    return true, out;
  }
}
