/** Loading each model once, and the slots its readings share
    (plugins/pseudonymizer/model.go:219-310). */
module ModelLoader {
  import opened Prelude

  type Load = nat

  /** A load from its start to the closing of its channel. */
  datatype Phase<+M> =
    | Running
    | Loaded(model: M)
    | Failing(error: string)
    | Removed(error: string)
    | Done(result: Result<M, string>)

  datatype Info<+M> = Info(key: string, phase: Phase<M>)

  /** The map under the lock, what the loads have come to, and how often the
      channel of each was closed. */
  datatype State<M> = State(loading: map<string, Load>, loads: map<Load, Info<M>>, closes: multiset<Load>)

  datatype Action<M> =
    | Get(key: string, load: Load)
    | Finish(load: Load, result: Result<M, string>)
    | Remove(load: Load)
    | Close(load: Load)

  predicate Enabled<M>(s: State<M>, a: Action<M>) {
    match a
    case Get(key, load) => key !in s.loading ==> load !in s.loads
    case Finish(load, _) => load in s.loads && s.loads[load].phase.Running?
    case Remove(load) => load in s.loads && s.loads[load].phase.Failing?
    case Close(load) => load in s.loads && (s.loads[load].phase.Loaded? || s.loads[load].phase.Removed?)
  }

  function Moved<M>(s: State<M>, load: Load, p: Phase<M>): State<M>
    requires load in s.loads
  {
    s.(loads := s.loads[load := Info(s.loads[load].key, p)])
  }

  /** What a load comes to. */
  function Outcome<M>(p: Phase<M>): Result<M, string>
    requires p.Loaded? || p.Removed?
  {
    if p.Loaded? then Ok(p.model) else Err(p.error)
  }

  function Next<M>(s: State<M>, a: Action<M>): State<M>
    requires Enabled(s, a)
  {
    match a
    case Get(key, load) =>
      if key in s.loading then s
      else s.(loading := s.loading[key := load], loads := s.loads[load := Info(key, Running)])
    case Finish(load, result) => Moved(s, load, if result.Ok? then Loaded(result.value) else Failing(result.error))
    case Remove(load) => Moved(s, load, Removed(s.loads[load].phase.error)).(loading := s.loading - {s.loads[load].key})
    case Close(load) => Moved(s, load, Done(Outcome(s.loads[load].phase))).(closes := s.closes + multiset{load})
  }

  ghost predicate Runs<M(!new)>(s: State<M>, actions: seq<Action<M>>, t: State<M>)
    decreases |actions|
  {
    if actions == [] then s == t
    else Enabled(s, actions[0]) && Runs(Next(s, actions[0]), actions[1..], t)
  }

  function Initial<M>(): State<M> {
    State(map[], map[], multiset{})
  }

  /** The load holds its key's entry: it runs, has failed without having
      removed it yet, or gave a model. */
  predicate Holds<M>(p: Phase<M>) {
    p.Running? || p.Loaded? || p.Failing? || (p.Done? && p.result.Ok?)
  }

  ghost predicate Entered<M>(s: State<M>, l: Load)
    requires l in s.loads
  {
    s.loads[l].key in s.loading && s.loading[s.loads[l].key] == l
  }

  /** The entries are the loads that hold them. */
  ghost predicate Indexed<M>(s: State<M>) {
    && (forall k :: k in s.loading ==>
        s.loading[k] in s.loads && s.loads[s.loading[k]].key == k && Holds(s.loads[s.loading[k]].phase))
    && (forall l :: l in s.loads && Holds(s.loads[l].phase) ==> Entered(s, l))
  }

  ghost predicate ClosedOnce<M>(s: State<M>) {
    && (forall l :: l in s.loads ==> s.closes[l] == if s.loads[l].phase.Done? then 1 else 0)
    && (forall l :: l in s.closes ==> l in s.loads)
  }

  ghost predicate Kept<M>(s: State<M>) {
    Indexed(s) && ClosedOnce(s)
  }

  /** A move that keeps or drops nothing of the entry. */
  lemma MoveKeeps<M>(s: State<M>, load: Load, p: Phase<M>)
    requires Indexed(s) && load in s.loads && Holds(s.loads[load].phase) == Holds(p)
    ensures Indexed(Moved(s, load, p))
  {
    var t := Moved(s, load, p);
    forall l | l in t.loads && Holds(t.loads[l].phase) ensures Entered(t, l) { assert Entered(s, l); }
  }

  /** The entry removed by key is the failing load's own: nobody could start
      another while it was there. */
  lemma RemoveKeeps<M>(s: State<M>, load: Load)
    requires Indexed(s) && Enabled(s, Remove(load))
    ensures Indexed(Next(s, Remove(load)))
  {
    assert Entered(s, load);
    var t := Next(s, Remove(load));
    forall l | l in t.loads && Holds(t.loads[l].phase) ensures Entered(t, l) { assert Entered(s, l); }
  }

  lemma GetKeeps<M>(s: State<M>, key: string, load: Load)
    requires Indexed(s) && Enabled(s, Get(key, load))
    ensures Indexed(Next(s, Get(key, load)))
  {
    var t := Next(s, Get(key, load));
    forall l | l in t.loads && Holds(t.loads[l].phase) ensures Entered(t, l) {
      if l in s.loads { assert Entered(s, l); }
    }
  }

  lemma IndexKept<M>(s: State<M>, a: Action<M>)
    requires Indexed(s) && Enabled(s, a)
    ensures Indexed(Next(s, a))
  {
    match a
    case Get(key, load) => GetKeeps(s, key, load);
    case Finish(load, result) => MoveKeeps(s, load, if result.Ok? then Loaded(result.value) else Failing(result.error));
    case Remove(load) => RemoveKeeps(s, load);
    case Close(load) => MoveKeeps(s, load, Done(Outcome(s.loads[load].phase)));
  }

  lemma ClosesKept<M>(s: State<M>, a: Action<M>)
    requires ClosedOnce(s) && Enabled(s, a)
    ensures ClosedOnce(Next(s, a))
  {
  }

  lemma {:induction false} RunKeeps<M(!new)>(s: State<M>, actions: seq<Action<M>>, t: State<M>)
    requires Kept(s) && Runs(s, actions, t)
    ensures Kept(t)
    decreases |actions|
  {
    if actions != [] {
      IndexKept(s, actions[0]);
      ClosesKept(s, actions[0]);
      RunKeeps(Next(s, actions[0]), actions[1..], t);
    }
  }

  /** A load that is over stays what it came to, and a model stays its key's. */
  lemma OverStays<M>(s: State<M>, a: Action<M>, l: Load)
    requires Indexed(s) && Enabled(s, a) && l in s.loads && s.loads[l].phase.Done?
    ensures l in Next(s, a).loads && Next(s, a).loads[l] == s.loads[l]
    ensures s.loads[l].phase.result.Ok? ==> Entered(Next(s, a), l)
  {
    if s.loads[l].phase.result.Ok? {
      assert Entered(s, l);
      if a.Remove? { assert Entered(s, a.load); }
    }
  }

  /** A model obtained is never lost: every later call for its key gets it. */
  lemma {:induction false} ModelIsNeverLost<M(!new)>(s: State<M>, actions: seq<Action<M>>, t: State<M>, l: Load)
    requires Kept(s) && Runs(s, actions, t) && l in s.loads && s.loads[l].phase.Done?
    ensures l in t.loads && t.loads[l] == s.loads[l]
    ensures s.loads[l].phase.result.Ok? ==> Entered(t, l)
    decreases |actions|
  {
    if actions != [] {
      IndexKept(s, actions[0]);
      ClosesKept(s, actions[0]);
      OverStays(s, actions[0], l);
      ModelIsNeverLost(Next(s, actions[0]), actions[1..], t, l);
    } else if s.loads[l].phase.result.Ok? {
      assert Entered(s, l);
    }
  }

  /** What a load that no longer runs came to. */
  function ResultOf<M>(p: Phase<M>): Result<M, string>
    requires !p.Running?
  {
    match p
    case Loaded(m) => Ok(m)
    case Failing(e) => Err(e)
    case Removed(e) => Err(e)
    case Done(r) => r
  }

  /** From one state to another a load keeps its key, and what it came to is what
      its own end gave, error included. */
  lemma {:induction false} ResultIsGiven<M(!new)>(s: State<M>, actions: seq<Action<M>>, t: State<M>, l: Load)
    requires Runs(s, actions, t) && l in s.loads && Kept(s)
    ensures l in t.loads && t.loads[l].key == s.loads[l].key
    ensures t.loads[l].phase.Running? ==> s.loads[l].phase.Running?
    ensures !t.loads[l].phase.Running? ==>
              if s.loads[l].phase.Running? then exists k :: 0 <= k < |actions| && Ends(actions[k], l, t.loads[l].phase)
              else ResultOf(t.loads[l].phase) == ResultOf(s.loads[l].phase)
    decreases |actions|
  {
    if actions != [] {
      var s1 := Next(s, actions[0]);
      IndexKept(s, actions[0]);
      ClosesKept(s, actions[0]);
      ResultIsGiven(s1, actions[1..], t, l);
      if s.loads[l].phase.Running? && !t.loads[l].phase.Running? {
        if s1.loads[l].phase.Running? {
          var k :| 0 <= k < |actions[1..]| && Ends(actions[1..][k], l, t.loads[l].phase);
          assert Ends(actions[k + 1], l, t.loads[l].phase);
        } else {
          assert Ends(actions[0], l, t.loads[l].phase);
        }
      }
    }
  }

  predicate Ends<M(==)>(a: Action<M>, l: Load, p: Phase<M>)
    requires !p.Running?
  {
    a.Finish? && a.load == l && a.result == ResultOf(p)
  }

  predicate BothRun<M>(s: State<M>, l: Load, m: Load) {
    l in s.loads && m in s.loads && s.loads[l].phase.Running? && s.loads[m].phase.Running?
  }

  /** Over every interleaving: one load per key runs at a time, each channel is
      closed once, by its own load when it is over, and a load that failed
      leaves its key free for another try. */
  lemma LoaderIsSingleFlight<M(!new)>(actions: seq<Action<M>>, s: State<M>)
    requires Runs(Initial(), actions, s)
    ensures forall l, m :: BothRun(s, l, m) && s.loads[l].key == s.loads[m].key ==> l == m
    ensures forall l :: l in s.loads ==> s.closes[l] == if s.loads[l].phase.Done? then 1 else 0
    ensures forall k :: k in s.loading ==> s.loading[k] in s.loads && Holds(s.loads[s.loading[k]].phase)
    ensures forall l :: l in s.loads && s.loads[l].phase.Done? && s.loads[l].phase.result.Ok? ==> Entered(s, l)
  {
    RunKeeps(Initial(), actions, s);
    forall l, m | BothRun(s, l, m) && s.loads[l].key == s.loads[m].key ensures l == m {
      assert Entered(s, l) && Entered(s, m);
    }
  }

  /** The map of the process, under the lock. What the loads have come to is kept
      beside it for the proof; loads are numbered as they are made. */
  class Models<M> {
    var loading: map<string, Load>
    var made: nat
    ghost var loads: map<Load, Info<M>>
    ghost var closes: multiset<Load>

    ghost function Model(): State<M>
      reads this
    {
      State(loading, loads, closes)
    }

    ghost predicate Valid()
      reads this
    {
      Kept(Model()) && forall l :: l in loads ==> l < made
    }

    constructor ()
      ensures Valid() && Model() == Initial()
    {
      loading, made, loads, closes := map[], 0, map[], multiset{};
    }

    /** The load of key, started when there is none. */
    method Get(key: string) returns (load: Load, started: bool)
      requires Valid()
      modifies this
      ensures started == (key !in old(loading))
      ensures Enabled(old(Model()), Action<M>.Get(key, load)) && Model() == Next(old(Model()), Action<M>.Get(key, load))
      ensures Valid() && key in loading && loading[key] == load
    {
      started := key !in loading;
      load := if started then made else loading[key];
      IndexKept(Model(), Action<M>.Get(key, load));
      ClosesKept(Model(), Action<M>.Get(key, load));
      if started {
        loads := loads[load := Info(key, Running)];
        loading, made := loading[key := load], made + 1;
      }
    }

    /** A failed load takes its key out, which is still its own. */
    method RemoveFailed(key: string, load: Load)
      requires Valid() && Enabled(Model(), Action<M>.Remove(load)) && loads[load].key == key
      modifies this
      ensures Valid() && Model() == Next(old(Model()), Action<M>.Remove(load))
      ensures key in old(loading) && old(loading)[key] == load && key !in loading
    {
      assert Entered(Model(), load);
      IndexKept(Model(), Action<M>.Remove(load));
      ClosesKept(Model(), Action<M>.Remove(load));
      loads := loads[load := Info(key, Removed(loads[load].phase.error))];
      loading := loading - {key};
    }
  }

  // ---- Decision slots --------------------------------------------------

  const MaxDecisions: nat := 4

  /** The buffered channel holds a token per reading under way. */
  datatype Slots = Slots(tokens: nat, readers: set<nat>)

  datatype Reading = Enter(reader: nat) | GiveUp(reader: nat) | Leave(reader: nat)

  /** A reading enters only while the channel has room. */
  predicate MayRead(s: Slots, a: Reading) {
    match a
    case Enter(r) => r !in s.readers && s.tokens < MaxDecisions
    case GiveUp(r) => r !in s.readers
    case Leave(r) => r in s.readers
  }

  function Read(s: Slots, a: Reading): Slots {
    match a
    case Enter(r) => Slots(s.tokens + 1, s.readers + {r})
    case GiveUp(_) => s
    case Leave(r) => Slots(if s.tokens == 0 then 0 else s.tokens - 1, s.readers - {r})
  }

  ghost predicate Readings(s: Slots, actions: seq<Reading>, t: Slots)
    decreases |actions|
  {
    if actions == [] then s == t
    else MayRead(s, actions[0]) && Readings(Read(s, actions[0]), actions[1..], t)
  }

  /** At most MaxDecisions readings hold a slot, and leaving never waits: each reader's
      token is in the channel. */
  lemma {:induction false} SlotsAreBounded(s: Slots, actions: seq<Reading>, t: Slots)
    requires s.tokens == |s.readers| <= MaxDecisions && Readings(s, actions, t)
    ensures t.tokens == |t.readers| <= MaxDecisions
    ensures forall r :: r in t.readers ==> t.tokens > 0
    decreases |actions|
  {
    if actions != [] {
      SlotsAreBounded(Read(s, actions[0]), actions[1..], t);
    }
  }
}
