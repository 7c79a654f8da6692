/** The catalog source: one fetch at a time, whatever its callers do
    (internal/catalog/source.go:31-116). */
module CatalogSource {
  import opened Prelude

  type Channel = nat

  datatype Fetched<+R> = Release(release: R) | Failed(error: string)

  /** The fields under the lock. */
  datatype Fields<+R> = Fields(current: Option<R>, lastError: Option<string>, inflight: Option<Channel>)

  datatype Answer<+R> = Served(release: R) | Unavailable(why: Option<string>)

  /** Reading the catalog: a fetch is started when one is due and none runs. */
  predicate Starts<R>(f: Fields<R>, remote: bool, due: bool) {
    remote && f.inflight.None? && due
  }

  function Answered<R>(f: Fields<R>): Answer<R> {
    if f.current.Some? then Served(f.current.value) else Unavailable(f.lastError)
  }

  /** The end of a fetch. */
  function Ended<R>(f: Fields<R>, r: Fetched<R>): Fields<R> {
    match r
    case Release(c) => Fields(Some(c), None, None)
    case Failed(e) => Fields(f.current, Some(e), None)
  }

  /** The critical sections of the source. A channel made is a fresh number. */
  class Source<R> {
    const remote: bool
    var current: Option<R>
    var lastError: Option<string>
    var inflight: Option<Channel>
    var made: nat

    ghost function Model(): Fields<R>
      reads this
    {
      Fields(current, lastError, inflight)
    }

    constructor (remote: bool, current: Option<R>)
      ensures this.remote == remote && Model() == Fields(current, None, None)
    {
      this.remote, this.current, lastError, inflight, made := remote, current, None, None, 0;
    }

    method Catalog(due: bool) returns (answer: Answer<R>, started: Option<Channel>)
      modifies this
      ensures started == if remote && due && old(inflight).None? then Some(old(made)) else None
      ensures Model() == if started.Some? then old(Model()).(inflight := started) else old(Model())
      ensures answer == if old(current).Some? then Served(old(current).value) else Unavailable(old(lastError))
      ensures made == old(made) + if started.Some? then 1 else 0
    {
      started := None;
      if remote && inflight == None && due {
        started := Some(made);
        inflight, made := started, made + 1;
      }
      if current.None? {
        return Unavailable(lastError), started;
      }
      return Served(current.value), started;
    }

    /** Own says that the caller runs the fetch itself, on channel done. */
    method Refresh() returns (own: bool, done: Option<Channel>)
      modifies this
      ensures !remote ==> !own && done == None && Model() == old(Model())
      ensures remote && old(inflight).Some? ==> !own && done == old(inflight) && Model() == old(Model())
      ensures remote && old(inflight).None? ==>
              own && done == Some(old(made)) && Model() == old(Model()).(inflight := done)
      ensures made == old(made) + if own then 1 else 0
    {
      if !remote { return false, None; }
      done := inflight;
      own := done == None;
      if own {
        done := Some(made);
        inflight, made := done, made + 1;
      }
    }

    method Finish(r: Fetched<R>)
      modifies this
      ensures Model() == Ended(old(Model()), r) && made == old(made)
    {
      inflight := None;
      match r {
        case Failed(e) => lastError := Some(e);
        case Release(c) => current, lastError := Some(c), None;
      }
    }
  }

  // ---- Every interleaving ----------------------------------------------

  /** running holds the channel of each fetch under way, closed how often each
      channel was closed, waiting what each caller waits on. */
  datatype State<R> = State(
    fields: Fields<R>,
    made: nat,
    running: set<Channel>,
    closed: multiset<Channel>,
    waiting: map<nat, Channel>)

  datatype Action<R> =
    | Read(due: bool)
    | Refresh(caller: nat)
    | Finish(done: Channel, result: Fetched<R>)
    | Leave(caller: nat)

  predicate Enabled<R>(s: State<R>, a: Action<R>) {
    match a
    case Read(_) => true
    case Refresh(caller) => caller !in s.waiting
    case Finish(done, _) => done in s.running
    case Leave(caller) => caller in s.waiting
  }

  function Started<R>(s: State<R>): State<R> {
    s.(fields := s.fields.(inflight := Some(s.made)), made := s.made + 1, running := s.running + {s.made})
  }

  function Next<R>(s: State<R>, remote: bool, a: Action<R>): State<R>
    requires Enabled(s, a)
  {
    match a
    case Read(due) => if Starts(s.fields, remote, due) then Started(s) else s
    case Refresh(caller) =>
      if !remote then s
      else if s.fields.inflight.Some? then s.(waiting := s.waiting[caller := s.fields.inflight.value])
      else Started(s)
    case Finish(done, result) =>
      s.(fields := Ended(s.fields, result), running := s.running - {done}, closed := s.closed + multiset{done})
    case Leave(caller) => s.(waiting := s.waiting - {caller})
  }

  ghost predicate Runs<R(!new)>(s: State<R>, remote: bool, actions: seq<Action<R>>, t: State<R>)
    decreases |actions|
  {
    if actions == [] then s == t
    else Enabled(s, actions[0]) && Runs(Next(s, remote, actions[0]), remote, actions[1..], t)
  }

  function InitialState<R>(current: Option<R>): State<R> {
    State(Fields(current, None, None), 0, {}, multiset{}, map[])
  }

  ghost predicate Kept<R>(s: State<R>) {
    && s.running == (if s.fields.inflight.Some? then {s.fields.inflight.value} else {})
    && (forall c :: c in s.running || c in s.closed ==> c < s.made)
    && (forall c :: c in s.closed ==> s.closed[c] == 1 && c !in s.running)
    && (forall w :: w in s.waiting ==> s.waiting[w] in s.running || s.waiting[w] in s.closed)
    && (forall c :: 0 <= c < s.made ==> c in s.running || c in s.closed)
  }

  lemma StepKeeps<R>(s: State<R>, remote: bool, a: Action<R>)
    requires Kept(s) && Enabled(s, a)
    ensures Kept(Next(s, remote, a))
    ensures s.fields.current.Some? ==> Next(s, remote, a).fields.current.Some?
    ensures !remote ==> Next(s, remote, a).running == s.running - (if a.Finish? then {a.done} else {})
    ensures Next(s, remote, a).made > s.made <==>
            remote && s.fields.inflight.None? && (a.Refresh? || (a.Read? && a.due))
    ensures a.Refresh? && remote && s.fields.inflight.Some? ==>
              a.caller in Next(s, remote, a).waiting && Next(s, remote, a).waiting[a.caller] in s.running
    ensures a.Finish? ==> a.done in Next(s, remote, a).closed
  {
  }

  /** The last release a run obtained, or the one it started with. */
  function Latest<R>(actions: seq<Action<R>>, current: Option<R>): Option<R> {
    if actions == [] then current
    else
      var a := actions[|actions| - 1];
      if a.Finish? && a.result.Release? then Some(a.result.release) else Latest(actions[..|actions| - 1], current)
  }

  /** The error of the last fetch, none if it gave a release. */
  function LatestError<R>(actions: seq<Action<R>>, lastError: Option<string>): Option<string> {
    if actions == [] then lastError
    else
      var a := actions[|actions| - 1];
      if !a.Finish? then LatestError(actions[..|actions| - 1], lastError)
      else if a.result.Failed? then Some(a.result.error) else None
  }

  lemma {:induction false} LatestErrorSplits<R>(actions: seq<Action<R>>, lastError: Option<string>)
    requires actions != []
    ensures LatestError(actions, lastError) == LatestError(actions[1..], LatestError(actions[..1], lastError))
  {
    if |actions| == 1 {
      assert actions[..1] == actions && actions[1..] == [];
    } else {
      var init := actions[..|actions| - 1];
      LatestErrorSplits(init, lastError);
      assert actions[1..][..|actions| - 2] == init[1..] && init[..1] == actions[..1];
    }
  }

  lemma {:induction false} RunKeeps<R(!new)>(s: State<R>, remote: bool, actions: seq<Action<R>>, t: State<R>)
    requires Kept(s) && Runs(s, remote, actions, t)
    ensures Kept(t) && t.fields.current == Latest(actions, s.fields.current)
    ensures t.fields.lastError == LatestError(actions, s.fields.lastError)
    decreases |actions|
  {
    if actions != [] {
      var s1 := Next(s, remote, actions[0]);
      StepKeeps(s, remote, actions[0]);
      RunKeeps(s1, remote, actions[1..], t);
      LatestSplits(actions, s.fields.current);
      LatestErrorSplits(actions, s.fields.lastError);
    }
  }

  lemma {:induction false} LatestSplits<R>(actions: seq<Action<R>>, current: Option<R>)
    requires actions != []
    ensures Latest(actions, current) == Latest(actions[1..], Latest(actions[..1], current))
  {
    if |actions| == 1 {
      assert actions[..1] == actions && actions[1..] == [];
    } else {
      var init := actions[..|actions| - 1];
      LatestSplits(init, current);
      assert actions[1..][..|actions| - 2] == init[1..] && init[..1] == actions[..1];
    }
  }

  /** Over every interleaving at most one fetch runs, on the channel in flight;
      each channel made is closed exactly once, at the end of its fetch, so no
      caller waits for nothing; the release served is always the last obtained. */
  lemma SourceIsSingleFlight<R(!new)>(remote: bool, actions: seq<Action<R>>, start: Option<R>, s: State<R>)
    requires Runs(InitialState(start), remote, actions, s)
    ensures |s.running| <= 1
    ensures s.fields.inflight.Some? <==> s.running != {}
    ensures forall c :: 0 <= c < s.made ==> s.closed[c] == if c in s.running then 0 else 1
    ensures forall w :: w in s.waiting ==> s.waiting[w] in s.running || s.closed[s.waiting[w]] == 1
    ensures Answered(s.fields) ==
            (if Latest(actions, start).Some? then Served(Latest(actions, start).value)
                else Unavailable(LatestError(actions, None)))
  {
    RunKeeps(InitialState(start), remote, actions, s);
  }
}
