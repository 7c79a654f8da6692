/** Model names as a client or a node gives them
    (internal/core/model/model_name.go). */
module ModelNames {
  import opened Prelude

  const PersonalOrg := "~"

  datatype ModelName = ModelName(org: string, team: string, local: string) {
    predicate Personal() { org == PersonalOrg }

    function OrgLevel(): ModelName { this.(team := "") }

    /** The name, its segments joined again. */
    function Text(): string {
      (if org == "" then "" else org + "/") + (if team == "" then "" else team + "/") + local
    }
  }

  /** A name in an organization: its first segment is a team's when it names one. */
  function InOrganization(org: string, rest: string, isTeam: (string, string) -> bool): ModelName {
    var t := IndexOf(rest, '/');
    if 0 < t && t + 1 < |rest| && isTeam(org, rest[..t]) then ModelName(org, rest[..t], rest[t + 1..])
    else ModelName(org, "", rest)
  }

  function Parse(name: string, isTeam: (string, string) -> bool): Option<ModelName> {
    if name == "" then None
    else
      var k := IndexOf(name, '/');
      if k == |name| then Some(ModelName("", "", name))
      else
        var org, rest := name[..k], name[k + 1..];
        if org == "" || rest == "" then None
        else if org == PersonalOrg then Some(ModelName(org, "", rest))
        else Some(InOrganization(org, rest, isTeam))
  }

  lemma SplitAt(s: string, k: nat)
    requires k < |s| && s[k] == '/'
    ensures s == s[..k] + "/" + s[k + 1..]
  {
  }

  lemma OrgLevelText(n: ModelName)
    ensures n.OrgLevel().Text() == if n.org == "" then n.local else n.org + "/" + n.local
  {
    assert n.org + "/" + "" + n.local == n.org + "/" + n.local;
    assert "" + "" + n.local == n.local;
  }

  lemma InOrganizationText(org: string, rest: string, isTeam: (string, string) -> bool)
    requires org != ""
    ensures InOrganization(org, rest, isTeam).Text() == org + "/" + rest
  {
    var t := IndexOf(rest, '/');
    if t < |rest| {
      IndexOfSpec(rest, '/');
      SplitAt(rest, t);
      Associative(org + "/", rest[..t] + "/", rest[t + 1..]);
    }
  }

  /** Splitting loses nothing: the segments join back into the name read. */
  lemma ParseTextRoundTrip(name: string, isTeam: (string, string) -> bool)
    requires Parse(name, isTeam).Some?
    ensures Parse(name, isTeam).value.Text() == name
  {
    var k := IndexOf(name, '/');
    if k < |name| {
      IndexOfSpec(name, '/');
      SplitAt(name, k);
      InOrganizationText(name[..k], name[k + 1..], isTeam);
    }
  }

  // ---- What a name reads as --------------------------------------------

  /** local starts with a team segment of the organization, and goes on. */
  ghost predicate StartsWithTeam(org: string, local: string, isTeam: (string, string) -> bool) {
    exists k :: 0 < k < |local| - 1 && local[k] == '/' && '/' !in local[..k] && isTeam(org, local[..k])
  }

  /** A bare name has no slash; otherwise the first segment is the organization,
      and the next one the team exactly when it names one that a model follows. */
  ghost predicate Reads(name: string, isTeam: (string, string) -> bool, n: ModelName) {
    && n.Text() == name && n.local != ""
    && (n.org == "" ==> n.team == "" && '/' !in name)
    && (n.org != "" ==> '/' !in n.org)
    && (n.team != "" ==> n.org != "~" && '/' !in n.team && isTeam(n.org, n.team))
    && (n.team == "" && n.org != "" && n.org != "~" ==> !StartsWithTeam(n.org, n.local, isTeam))
  }

  lemma FirstSlash(s: string, k: nat)
    requires k < |s| && s[k] == '/' && '/' !in s[..k]
    ensures IndexOf(s, '/') == k
  {
    IndexOfSpec(s, '/');
    var i := IndexOf(s, '/');
    assert forall j :: 0 <= j < k ==> s[..k][j] == s[j] != '/';
    assert forall j :: 0 <= j < i ==> s[..i][j] == s[j] != '/';
  }

  lemma InOrganizationReads(org: string, rest: string, isTeam: (string, string) -> bool)
    requires org != "" && '/' !in org && org != "~" && rest != ""
    ensures Reads(org + "/" + rest, isTeam, InOrganization(org, rest, isTeam))
  {
    InOrganizationText(org, rest, isTeam);
    IndexOfSpec(rest, '/');
    var n := InOrganization(org, rest, isTeam);
    if n.team == "" && StartsWithTeam(org, rest, isTeam) {
      var k :| 0 < k < |rest| - 1 && rest[k] == '/' && '/' !in rest[..k] && isTeam(org, rest[..k]);
      FirstSlash(rest, k);
    }
  }

  /** What the parser returns reads the name. */
  lemma ParseReads(name: string, isTeam: (string, string) -> bool)
    requires Parse(name, isTeam).Some?
    ensures Reads(name, isTeam, Parse(name, isTeam).value)
  {
    IndexOfSpec(name, '/');
    var k := IndexOf(name, '/');
    if k < |name| {
      SplitAt(name, k);
      var org, rest := name[..k], name[k + 1..];
      if org != "~" { InOrganizationReads(org, rest, isTeam); }
    }
  }

  /** And it returns every reading: a name is read in at most one way, and refused
      when it has none. */
  lemma ReadsParse(name: string, isTeam: (string, string) -> bool, n: ModelName)
    requires Reads(name, isTeam, n)
    ensures Parse(name, isTeam) == Some(n)
  {
    if n.org == "" {
      IndexOfSpec(name, '/');
      assert "" + "" + n.local == n.local;
      assert n == ModelName("", "", name);
    } else {
      var rest := (if n.team == "" then "" else n.team + "/") + n.local;
      Associative(n.org + "/", if n.team == "" then "" else n.team + "/", n.local);
      if n.org != "~" { ReadsInOrganization(n, rest, isTeam); }
      ParseQualified(name, n.org, rest, isTeam);
    }
  }

  lemma ParseQualified(name: string, org: string, rest: string, isTeam: (string, string) -> bool)
    requires name == org + "/" + rest && org != "" && '/' !in org && rest != ""
    ensures Parse(name, isTeam) ==
            Some(if org == "~" then ModelName(org, "", rest) else InOrganization(org, rest, isTeam))
  {
    assert name[..|org|] == org && name[|org| + 1..] == rest;
    FirstSlash(name, |org|);
  }

  lemma ReadsInOrganization(n: ModelName, rest: string, isTeam: (string, string) -> bool)
    requires n.local != "" && n.org != "" && n.org != "~"
    requires rest == (if n.team == "" then "" else n.team + "/") + n.local
    requires n.team != "" ==> '/' !in n.team && isTeam(n.org, n.team)
    requires n.team == "" ==> !StartsWithTeam(n.org, n.local, isTeam)
    ensures InOrganization(n.org, rest, isTeam) == n
  {
    if n.team != "" {
      var k := |n.team|;
      assert rest[..k] == n.team && rest[k] == '/' && rest[k + 1..] == n.local;
      FirstSlash(rest, k);
    } else {
      assert rest == n.local;
      IndexOfSpec(rest, '/');
    }
  }

  /** The parser accepts exactly the names that can be read, as they read. */
  lemma ParseIff(name: string, isTeam: (string, string) -> bool, n: ModelName)
    ensures Parse(name, isTeam) == Some(n) <==> Reads(name, isTeam, n)
  {
    if Parse(name, isTeam) == Some(n) { ParseReads(name, isTeam); }
    if Reads(name, isTeam, n) { ReadsParse(name, isTeam, n); }
  }
}
