/** The pool of MCP sessions: two maps, each critical section a step, and every
    interleaving of requests, expiries, evictions and shutdowns
    (plugins/mcp-bridge/plugin.go:75-219). */
module SessionPool {
  import opened Prelude

  /** A connector's identity. */
  type Connector = nat

  /** What a session belongs to. */
  datatype Scope = Scope(org: string, user: string, conversation: string, node: string, endpoint: string)

  const Nul: char := '\0'

  function PoolKey(s: Scope): string {
    s.org + [Nul] + s.user + [Nul] + s.conversation + [Nul] + s.node + [Nul] + s.endpoint
  }

  predicate NulFree(s: Scope) {
    Nul !in s.org && Nul !in s.user && Nul !in s.conversation && Nul !in s.node && Nul !in s.endpoint
  }

  // ---- The two maps ----------------------------------------------------

  /** A nil map of the source reads as an empty one. */
  datatype Maps = Maps(sessions: map<string, Connector>, keys: map<Connector, string>)

  const NoMaps := Maps(map[], map[])

  ghost predicate Inverse(m: Maps) {
    && (forall k :: k in m.sessions ==> m.sessions[k] in m.keys && m.keys[m.sessions[k]] == k)
    && (forall c :: c in m.keys ==> m.keys[c] in m.sessions && m.sessions[m.keys[c]] == c)
  }

  function Published(m: Maps, key: string, c: Connector): Maps {
    Maps(m.sessions[key := c], m.keys[c := key])
  }

  /** Removes a connector, whichever entry holds it. */
  function Forgotten(m: Maps, c: Connector): Maps {
    if c !in m.keys then m
    else
      var key := m.keys[c];
      Maps(if key in m.sessions && m.sessions[key] == c then m.sessions - {key} else m.sessions, m.keys - {c})
  }

  lemma PublishedInverse(m: Maps, key: string, c: Connector)
    requires Inverse(m) && key !in m.sessions && c !in m.keys
    ensures Inverse(Published(m, key, c)) && Published(m, key, c).sessions.Keys == m.sessions.Keys + {key}
    ensures Published(m, key, c).sessions[key] == c
    ensures forall k :: k in m.sessions ==> Published(m, key, c).sessions[k] == m.sessions[k]
  {
  }

  lemma ForgottenInverse(m: Maps, c: Connector)
    requires Inverse(m)
    ensures Inverse(Forgotten(m, c)) && c !in Forgotten(m, c).keys
    ensures Forgotten(m, c).keys.Keys == m.keys.Keys - {c}
    ensures forall d :: d in Forgotten(m, c).keys ==> Forgotten(m, c).keys[d] == m.keys[d]
  {
  }

  /** The critical sections, each under the plugin's lock. */
  class Pool {
    var sessions: map<string, Connector>
    var keys: map<Connector, string>

    ghost function Model(): Maps
      reads this
    {
      Maps(sessions, keys)
    }

    ghost predicate Valid()
      reads this
    {
      Inverse(Model())
    }

    constructor ()
      ensures Valid() && Model() == NoMaps
    {
      sessions, keys := map[], map[];
    }

    method Lookup(key: string) returns (found: Option<Connector>)
      requires Valid()
      ensures found == if key in sessions then Some(sessions[key]) else None
      ensures found.Some? ==> found.value in keys && keys[found.value] == key
    {
      found := if key in sessions then Some(sessions[key]) else None;
    }

    /** Publishes c, unless another caller did first: then c stays out. */
    method Publish(key: string, c: Connector) returns (winner: Connector)
      requires Valid() && c !in keys
      modifies this
      ensures Valid()
      ensures key in sessions && sessions[key] == winner
      ensures Model() == if key in old(sessions) then old(Model()) else Published(old(Model()), key, c)
      ensures winner != c ==> c !in keys
    {
      if key in sessions {
        return sessions[key];
      }
      PublishedInverse(Model(), key, c);
      sessions, keys := sessions[key := c], keys[c := key];
      winner := c;
    }

    method Forget(c: Connector)
      requires Valid()
      modifies this
      ensures Valid() && Model() == Forgotten(old(Model()), c)
      ensures c !in keys && forall k :: k in sessions ==> sessions[k] != c
    {
      ForgottenInverse(Model(), c);
      if c !in keys { return; }
      var key := keys[c];
      if key in sessions && sessions[key] == c {
        sessions := sessions - {key};
      }
      keys := keys - {c};
    }

    /** Empties the pool and returns what it held, to be closed. */
    method TakeAll() returns (held: set<Connector>)
      requires Valid()
      modifies this
      ensures Valid() && Model() == NoMaps
      ensures held == old(keys).Keys
    {
      held := sessions.Values;
      assert held == keys.Keys;
      sessions, keys := map[], map[];
    }
  }

  // ---- Every interleaving ----------------------------------------------

  /** Where a request is between two critical sections. */
  datatype Phase =
    | Asking(scope: Scope)
    | Checking(scope: Scope, found: Connector)
    | Evicting(scope: Scope, found: Connector)
    | Building(scope: Scope)
    | Publishing(scope: Scope, built: Connector)
    | Losing(scope: Scope, built: Connector, winner: Connector)
    | Handed(scope: Scope, connector: Connector)

  /** scopes records what each connector was built for, losers those that were
      never published, retired those closed or expired. */
  datatype State = State(
    maps: Maps,
    requests: map<nat, Phase>,
    scopes: map<Connector, Scope>,
    losers: set<Connector>,
    retired: set<Connector>)

  const Initial := State(NoMaps, map[], map[], {}, {})

  datatype Action =
    | Ask(request: nat, scope: Scope)
    | Look(request: nat)
    | Check(request: nat)
    | Evict(request: nat)
    | Build(request: nat, c: Connector)
    | Publish(request: nat)
    | CloseLoser(request: nat)
    | Retire(c: Connector)
    | Forget(c: Connector)
    | CloseAll

  predicate Enabled(s: State, a: Action) {
    match a
    case Ask(r, _) => r !in s.requests
    case Look(r) => r in s.requests && s.requests[r].Asking?
    case Check(r) => r in s.requests && s.requests[r].Checking?
    case Evict(r) => r in s.requests && s.requests[r].Evicting?
    case Build(r, c) => r in s.requests && s.requests[r].Building? && c !in s.scopes
    case Publish(r) => r in s.requests && s.requests[r].Publishing?
    case CloseLoser(r) => r in s.requests && s.requests[r].Losing?
    case Retire(c) => c in s.scopes
    case Forget(c) => true
    case CloseAll => true
  }

  function To(s: State, r: nat, p: Phase): State {
    s.(requests := s.requests[r := p])
  }

  function Looked(s: State, r: nat, scope: Scope): State {
    var key := PoolKey(scope);
    To(s, r, if key in s.maps.sessions then Checking(scope, s.maps.sessions[key]) else Building(scope))
  }

  function Raced(s: State, r: nat, scope: Scope, c: Connector): State {
    var key := PoolKey(scope);
    if key in s.maps.sessions then
      To(s, r, Losing(scope, c, s.maps.sessions[key])).(losers := s.losers + {c})
    else To(s, r, Handed(scope, c)).(maps := Published(s.maps, key, c))
  }

  function Next(s: State, a: Action): State
    requires Enabled(s, a)
  {
    match a
    case Ask(r, scope) => To(s, r, Asking(scope))
    case Look(r) => Looked(s, r, s.requests[r].scope)
    case Check(r) =>
      var Checking(scope, c) := s.requests[r];
      To(s, r, if c in s.retired then Evicting(scope, c) else Handed(scope, c))
    case Evict(r) =>
      var Evicting(scope, c) := s.requests[r];
      To(s, r, Building(scope)).(maps := Forgotten(s.maps, c))
    case Build(r, c) => To(s, r, Publishing(s.requests[r].scope, c)).(scopes := s.scopes[c := s.requests[r].scope])
    case Publish(r) => Raced(s, r, s.requests[r].scope, s.requests[r].built)
    case CloseLoser(r) =>
      var Losing(scope, c, winner) := s.requests[r];
      To(s, r, Handed(scope, winner)).(retired := s.retired + {c})
    case Retire(c) => s.(retired := s.retired + {c})
    case Forget(c) => s.(maps := Forgotten(s.maps, c))
    case CloseAll => s.(maps := NoMaps)
  }

  /** The run of a sequence of actions, each enabled when it comes. */
  ghost predicate Runs(s: State, actions: seq<Action>, t: State)
    decreases |actions|
  {
    if actions == [] then s == t
    else Enabled(s, actions[0]) && Runs(Next(s, actions[0]), actions[1..], t)
  }

  // ---- What every state keeps ------------------------------------------

  /** c was built for a scope with the same key, and is no loser. */
  ghost predicate Fits(s: State, scope: Scope, c: Connector) {
    c in s.scopes && PoolKey(s.scopes[c]) == PoolKey(scope) && c !in s.losers
  }

  /** A connector being published is this request's own, unknown to the pool. */
  ghost predicate Own(s: State, r: nat, scope: Scope, c: Connector) {
    && Fits(s, scope, c) && c !in s.maps.keys
    && forall q :: q in s.requests && q != r ==> !Knows(s.requests[q], c)
  }

  predicate Knows(p: Phase, c: Connector) {
    match p
    case Asking(_) | Building(_) => false
    case Checking(_, d) => c == d
    case Evicting(_, d) => c == d
    case Publishing(_, d) => c == d
    case Handed(_, d) => c == d
    case Losing(_, d, w) => c == d || c == w
  }

  ghost predicate PhaseOk(s: State, r: nat, p: Phase) {
    match p
    case Asking(_) | Building(_) => true
    case Checking(scope, c) => Fits(s, scope, c)
    case Evicting(scope, c) => Fits(s, scope, c)
    case Handed(scope, c) => Fits(s, scope, c)
    case Publishing(scope, c) => Own(s, r, scope, c)
    case Losing(scope, c, w) => Fits(s, scope, w) && c in s.losers
  }

  ghost predicate Kept(s: State) {
    && Inverse(s.maps)
    && (forall c :: c in s.maps.keys ==> c in s.scopes && PoolKey(s.scopes[c]) == s.maps.keys[c])
    && (forall c :: c in s.losers ==> c in s.scopes && c !in s.maps.keys)
    && (forall r :: r in s.requests ==> PhaseOk(s, r, s.requests[r]))
  }

  lemma KeptByPhase(s: State, r: nat, p: Phase)
    requires Kept(s)
    requires p.Asking? || p.Building?
            || (!p.Publishing? && PhaseOk(s, r, p) && forall c :: Knows(p, c) ==> Pooled(s, r, c))
    ensures Kept(To(s, r, p))
  {
    var t := To(s, r, p);
    forall q | q in t.requests ensures PhaseOk(t, q, t.requests[q]) {
      if q != r && s.requests[q].Publishing? {
        assert PhaseOk(s, q, s.requests[q]);
      }
    }
  }

  /** c is known to the pool, or already to the request, or a loser: no other
      request is about to publish it. */
  ghost predicate Pooled(s: State, r: nat, c: Connector) {
    c in s.maps.keys || c in s.losers || (r in s.requests && !s.requests[r].Publishing? && Knows(s.requests[r], c))
  }

  lemma LookKeeps(s: State, r: nat)
    requires Kept(s) && Enabled(s, Look(r))
    ensures Kept(Next(s, Look(r)))
  {
    var scope := s.requests[r].scope;
    if PoolKey(scope) in s.maps.sessions {
      KeptByPhase(s, r, Checking(scope, s.maps.sessions[PoolKey(scope)]));
    } else {
      KeptByPhase(s, r, Building(scope));
    }
  }

  lemma ForgetKeeps(s: State, c: Connector)
    requires Kept(s)
    ensures Kept(s.(maps := Forgotten(s.maps, c)))
  {
    ForgottenInverse(s.maps, c);
    var t := s.(maps := Forgotten(s.maps, c));
    forall r | r in t.requests ensures PhaseOk(t, r, t.requests[r]) { assert PhaseOk(s, r, s.requests[r]); }
  }

  lemma BuildKeeps(s: State, r: nat, c: Connector)
    requires Kept(s) && Enabled(s, Build(r, c))
    ensures Kept(Next(s, Build(r, c)))
  {
    var t := Next(s, Build(r, c));
    forall q | q in t.requests ensures PhaseOk(t, q, t.requests[q]) {
      if q != r { assert PhaseOk(s, q, s.requests[q]); }
    }
  }

  lemma PublishKeeps(s: State, r: nat)
    requires Kept(s) && Enabled(s, Publish(r))
    ensures Kept(Next(s, Publish(r)))
  {
    var Publishing(scope, c) := s.requests[r];
    var t, key := Next(s, Publish(r)), PoolKey(scope);
    assert Own(s, r, scope, c);
    if key !in s.maps.sessions { PublishedInverse(s.maps, key, c); }
    forall q | q in t.requests ensures PhaseOk(t, q, t.requests[q]) {
      if q != r { assert PhaseOk(s, q, s.requests[q]) && !Knows(s.requests[q], c); }
    }
  }

  lemma StepKeeps(s: State, a: Action)
    requires Kept(s) && Enabled(s, a)
    ensures Kept(Next(s, a))
  {
    match a
    case Ask(r, scope) => KeptByPhase(s, r, Asking(scope));
    case Look(r) => LookKeeps(s, r);
    case Check(r) =>
      var Checking(scope, c) := s.requests[r];
      assert PhaseOk(s, r, s.requests[r]);
      KeptByPhase(s, r, if c in s.retired then Evicting(scope, c) else Handed(scope, c));
    case Evict(r) =>
      var Evicting(scope, c) := s.requests[r];
      KeptByPhase(s, r, Building(scope));
      ForgetKeeps(To(s, r, Building(scope)), c);
    case Build(r, c) => BuildKeeps(s, r, c);
    case Publish(r) => PublishKeeps(s, r);
    case CloseLoser(r) =>
      var Losing(scope, c, winner) := s.requests[r];
      assert PhaseOk(s, r, s.requests[r]);
      KeptByPhase(s, r, Handed(scope, winner));
      RetireKeeps(To(s, r, Handed(scope, winner)), c);
    case Retire(c) => RetireKeeps(s, c);
    case Forget(c) => ForgetKeeps(s, c);
    case CloseAll => CloseKeeps(s);
  }

  lemma RetireKeeps(s: State, c: Connector)
    requires Kept(s)
    ensures Kept(s.(retired := s.retired + {c}))
  {
    var t := s.(retired := s.retired + {c});
    forall r | r in t.requests ensures PhaseOk(t, r, t.requests[r]) { assert PhaseOk(s, r, s.requests[r]); }
  }

  lemma CloseKeeps(s: State)
    requires Kept(s)
    ensures Kept(s.(maps := NoMaps))
  {
    var t := s.(maps := NoMaps);
    forall r | r in t.requests ensures PhaseOk(t, r, t.requests[r]) { assert PhaseOk(s, r, s.requests[r]); }
  }

  lemma {:induction false} RunKeeps(s: State, actions: seq<Action>, t: State)
    requires Kept(s) && Runs(s, actions, t)
    ensures Kept(t)
    decreases |actions|
  {
    if actions != [] {
      StepKeeps(s, actions[0]);
      RunKeeps(Next(s, actions[0]), actions[1..], t);
    }
  }

  // ---- What a request is handed ----------------------------------------

  /** A step hands a connector out after finding it alive, after publishing it, or
      after losing to it; and what a request found retired leaves the pool. */
  lemma HandedAlive(s: State, a: Action, r: nat)
    requires Kept(s) && Enabled(s, a) && r in Next(s, a).requests
    requires r in s.requests ==> s.requests[r] != Next(s, a).requests[r]
    ensures var p := Next(s, a).requests[r];
            && (p.Handed? ==>
                  || (a == Check(r) && s.requests[r] == Checking(p.scope, p.connector) && p.connector !in s.retired)
                  || (a == Publish(r) && s.requests[r] == Publishing(p.scope, p.connector)
                      && p.connector in Next(s, a).maps.keys)
                  || (a == CloseLoser(r) && s.requests[r].Losing? && s.requests[r].winner == p.connector))
            && (a == Evict(r) ==> s.requests[r].found !in Next(s, a).maps.keys)
  {
    if a == Evict(r) { ForgottenInverse(s.maps, s.requests[r].found); }
  }

  /** Every connector that was built and lost is closed, or about to be. */
  ghost predicate LosersClosed(s: State) {
    forall c :: c in s.losers ==> c in s.retired || exists r :: r in s.requests && AboutToClose(s.requests[r], c)
  }

  predicate AboutToClose(p: Phase, c: Connector) {
    p.Losing? && p.built == c
  }

  lemma LosersStep(s: State, a: Action)
    requires LosersClosed(s) && Enabled(s, a)
    ensures LosersClosed(Next(s, a))
  {
    var t := Next(s, a);
    forall c | c in t.losers ensures c in t.retired || exists r :: r in t.requests && AboutToClose(t.requests[r], c) {
      if c in s.losers && c !in s.retired {
        var r :| r in s.requests && AboutToClose(s.requests[r], c);
        assert r in t.requests && (a == CloseLoser(r) || AboutToClose(t.requests[r], c));
      } else if c !in s.losers {
        assert AboutToClose(t.requests[a.request], c);
      }
    }
  }

  /** Whatever the interleaving, no connector leaks: one that lost its race is
      closed by the request that built it, or is still to be closed by it. */
  lemma {:induction false} LosersAreClosed(s: State, actions: seq<Action>, t: State)
    requires LosersClosed(s) && Runs(s, actions, t)
    ensures LosersClosed(t)
    decreases |actions|
  {
    if actions != [] {
      LosersStep(s, actions[0]);
      LosersAreClosed(Next(s, actions[0]), actions[1..], t);
    }
  }

  // ---- Keys ------------------------------------------------------------

  lemma PoolKeyInjective(a: Scope, b: Scope)
    requires NulFree(a) && NulFree(b) && PoolKey(a) == PoolKey(b)
    ensures a == b
  {
    var a4, b4 := [Nul] + a.endpoint, [Nul] + b.endpoint;
    var a3, b3 := [Nul] + a.node + a4, [Nul] + b.node + b4;
    var a2, b2 := [Nul] + a.conversation + a3, [Nul] + b.conversation + b3;
    var a1, b1 := [Nul] + a.user + a2, [Nul] + b.user + b2;
    assert PoolKey(a) == a.org + a1 && PoolKey(b) == b.org + b1;
    SameHead(a.org, b.org, a1, b1, Nul);
    SameTail(a.user, b.user, a2, b2);
    SameTail(a.conversation, b.conversation, a3, b3);
    SameTail(a.node, b.node, a4, b4);
    assert a4[1..] == a.endpoint && b4[1..] == b.endpoint;
  }

  lemma SameTail(m: string, n: string, x: string, y: string)
    requires Nul !in m && Nul !in n
    requires x != [] && x[0] == Nul && y != [] && y[0] == Nul
    requires [Nul] + m + x == [Nul] + n + y
    ensures m == n && x == y
  {
    assert ([Nul] + m + x)[1..] == m + x && ([Nul] + n + y)[1..] == n + y;
    SameHead(m, n, x, y, Nul);
  }

  // ---- Which scopes have a key of their own ----------------------------

  function Separators(s: string): nat { multiset(s)[Nul] }

  lemma SeparatorsAdd(a: string, b: string)
    ensures Separators(a + b) == Separators(a) + Separators(b)
  {
  }

  /** The separators of a key: those that join, and those inside. */
  lemma KeySeparators(s: Scope)
    ensures Separators(PoolKey(s)) == 4 + Separators(s.org) + Separators(s.user) + Separators(s.conversation)
                                        + Separators(s.node) + Separators(s.endpoint)
  {
    var a := s.org + [Nul] + s.user;
    var b := a + [Nul] + s.conversation;
    var c := b + [Nul] + s.node;
    SeparatorsAdd(s.org + [Nul], s.user);
    SeparatorsAdd(a + [Nul], s.conversation);
    SeparatorsAdd(b + [Nul], s.node);
    SeparatorsAdd(c + [Nul], s.endpoint);
  }

  /** A scope that shares the key of one free of separators is that scope. */
  lemma CleanKeyIsOwn(a: Scope, b: Scope)
    requires NulFree(a) && PoolKey(a) == PoolKey(b)
    ensures a == b
  {
    KeySeparators(a);
    KeySeparators(b);
    PoolKeyInjective(a, b);
  }

  /** A separator inside any component lets another scope have the same key: the
      component ends there, and its neighbour takes the rest. */
  lemma SeparatorCollides(a: Scope) returns (b: Scope)
    requires !NulFree(a)
    ensures b != a && PoolKey(b) == PoolKey(a)
  {
    if Nul in a.org {
      var x, y := SplitAtNul(a.org);
      b := a.(org := x, user := y + [Nul] + a.user);
    } else if Nul in a.user {
      var x, y := SplitAtNul(a.user);
      b := a.(user := x, conversation := y + [Nul] + a.conversation);
      assert PoolKey(b)
          == a.org + [Nul] + (x + [Nul] + y) + [Nul] + a.conversation + [Nul] + a.node + [Nul] + a.endpoint;
    } else if Nul in a.conversation {
      var x, y := SplitAtNul(a.conversation);
      b := a.(conversation := x, node := y + [Nul] + a.node);
      assert PoolKey(b) == a.org + [Nul] + a.user + [Nul] + (x + [Nul] + y) + [Nul] + a.node + [Nul] + a.endpoint;
    } else if Nul in a.node {
      var x, y := SplitAtNul(a.node);
      b := a.(node := x, endpoint := y + [Nul] + a.endpoint);
      assert PoolKey(b)
          == a.org + [Nul] + a.user + [Nul] + a.conversation + [Nul] + (x + [Nul] + y) + [Nul] + a.endpoint;
    } else {
      var x, y := SplitAtNul(a.endpoint);
      b := a.(node := a.node + [Nul] + x, endpoint := y);
      assert PoolKey(b) == a.org + [Nul] + a.user + [Nul] + a.conversation + [Nul] + a.node + [Nul] + (x + [Nul] + y);
    }
  }

  lemma SplitAtNul(s: string) returns (x: string, y: string)
    requires Nul in s
    ensures s == x + [Nul] + y && |x| < |s| && |y| < |s|
  {
    var k :| 0 <= k < |s| && s[k] == Nul;
    x, y := s[..k], s[k + 1..];
  }

  /** A scope has a key of its own exactly when no component holds the separator. */
  lemma KeyIsOwnIff(a: Scope)
    ensures NulFree(a) <==> forall b :: PoolKey(b) == PoolKey(a) ==> b == a
  {
    if NulFree(a) {
      forall b | PoolKey(b) == PoolKey(a) ensures b == a { CleanKeyIsOwn(a, b); }
    } else {
      var b := SeparatorCollides(a);
    }
  }

  // ---- Main results ----------------------------------------------------

  /** After any interleaving: the two maps are inverse, a connector that lost a
      race is neither in the pool nor handed to anyone, and a request whose scope
      is free of the separator is only handed a connector built for that scope,
      whatever the others ask for. */
  lemma PoolIsSafe(actions: seq<Action>, s: State)
    requires Runs(Initial, actions, s)
    ensures Inverse(s.maps)
    ensures forall c :: c in s.losers ==> c !in s.maps.keys && c !in s.maps.sessions.Values
    ensures forall k :: k in s.maps.sessions ==>
            s.maps.sessions[k] in s.scopes && PoolKey(s.scopes[s.maps.sessions[k]]) == k
    ensures forall r :: r in s.requests && s.requests[r].Handed? ==>
            HandedWell(s, s.requests[r].scope, s.requests[r].connector)
  {
    RunKeeps(Initial, actions, s);
    forall r | r in s.requests && s.requests[r].Handed?
      ensures HandedWell(s, s.requests[r].scope, s.requests[r].connector)
    {
      var Handed(scope, c) := s.requests[r];
      assert PhaseOk(s, r, s.requests[r]);
      if NulFree(scope) { CleanKeyIsOwn(scope, s.scopes[c]); }
    }
  }

  ghost predicate HandedWell(s: State, scope: Scope, c: Connector) {
    c in s.scopes && c !in s.losers && (NulFree(scope) ==> s.scopes[c] == scope)
  }

  /** For every scope with a separator in it, some interleaving hands it a
      connector built for another. */
  lemma SeparatorMixesScopes(a: Scope) returns (actions: seq<Action>, s: State)
    requires !NulFree(a)
    ensures Runs(Initial, actions, s)
    ensures 1 in s.requests && s.requests[1] == Handed(a, 0) && 0 in s.scopes && s.scopes[0] != a
  {
    var b := SeparatorCollides(a);
    var s1 := Next(Initial, Ask(0, b));
    var s2 := Next(s1, Look(0));
    var s3 := Next(s2, Build(0, 0));
    var s4 := Next(s3, Publish(0));
    var s5 := Next(s4, Ask(1, a));
    var s6 := Next(s5, Look(1));
    s := Next(s6, Check(1));
    assert Runs(s, [], s);
    OneMore(s6, Check(1), [], s);
    OneMore(s5, Look(1), [Check(1)], s);
    OneMore(s4, Ask(1, a), [Look(1), Check(1)], s);
    OneMore(s3, Publish(0), [Ask(1, a), Look(1), Check(1)], s);
    OneMore(s2, Build(0, 0), [Publish(0), Ask(1, a), Look(1), Check(1)], s);
    OneMore(s1, Look(0), [Build(0, 0), Publish(0), Ask(1, a), Look(1), Check(1)], s);
    OneMore(Initial, Ask(0, b), [Look(0), Build(0, 0), Publish(0), Ask(1, a), Look(1), Check(1)], s);
    actions := [Ask(0, b)] + [Look(0), Build(0, 0), Publish(0), Ask(1, a), Look(1), Check(1)];
  }

  lemma OneMore(s: State, a: Action, actions: seq<Action>, t: State)
    ensures Enabled(s, a) && Runs(Next(s, a), actions, t) ==> Runs(s, [a] + actions, t)
  {
    assert ([a] + actions)[1..] == actions;
  }
}
