/** The client of a fallback node: candidates resolved lazily, in order, under
    the access of the graph that holds the node
    (internal/pipeline/model_fallback_executor.go:77-147). */
module Fallback {
  import opened Prelude
  import opened Engine
  import Access

  datatype Attempt = Answered(text: string) | Failed(cancelled: bool)

  datatype Reply = Reply(candidate: nat, text: string) | AllFailed

  /** How many leading candidates resolve. */
  function Resolvable(w: World, ctx: Context, candidates: seq<string>): (n: nat)
    ensures n <= |candidates|
    ensures forall i :: 0 <= i < n ==> CheckedResolve(w, ctx, candidates[i]).Ok?
    ensures n < |candidates| ==> CheckedResolve(w, ctx, candidates[n]).Err?
  {
    if candidates == [] || CheckedResolve(w, ctx, candidates[0]).Err? then 0
    else 1 + Resolvable(w, ctx, candidates[1..])
  }

  /** The candidates called before i all failed and the caller stayed. */
  ghost predicate TurnOf(attempts: nat -> Attempt, i: nat) {
    forall j :: 0 <= j < i ==> attempts(j).Failed? && !attempts(j).cancelled
  }

  class Client {
    const candidates: seq<string>
    const ctx: Context
    const w: World
    var resolved: seq<Resolution>
    var used: Option<nat>

    ghost predicate Valid()
      reads this
    {
      && |resolved| <= Resolvable(w, ctx, candidates)
      && (forall i :: 0 <= i < |resolved| ==> CheckedResolve(w, ctx, candidates[i]) == Ok(resolved[i]))
      && (used.Some? ==> used.value < |resolved|)
    }

    constructor (w: World, ctx: Context, candidates: seq<string>, primary: Resolution)
      requires candidates != [] && CheckedResolve(w, ctx, candidates[0]) == Ok(primary)
      ensures Valid() && this.w == w && this.ctx == ctx && this.candidates == candidates
      ensures resolved == [primary] && used == None
    {
      this.w, this.ctx, this.candidates := w, ctx, candidates;
      this.resolved, this.used := [primary], None;
      new;
      assert CheckedResolve(w, ctx, candidates[0]).Ok?;
    }

    /** Resolves up to candidate i. An entry that does not resolve is never
        stepped over: those behind it stay out of reach. */
    method Candidate(i: nat) returns (r: Result<Resolution, Fault>)
      requires Valid() && i < |candidates|
      modifies this`resolved
      ensures Valid() && |resolved| >= |old(resolved)|
      ensures r.Ok? <==> i < Resolvable(w, ctx, candidates)
      ensures r.Ok? ==> i < |resolved| && r.value == resolved[i]
    {
      while |resolved| <= i
        invariant Valid() && |resolved| >= |old(resolved)|
        decreases |candidates| - |resolved|
      {
        var fault := ResolveNext();
        if fault.Some? { return Err(fault.value); }
      }
      return Ok(resolved[i]);
    }

    /** Resolves one candidate more; it fails on the first out of reach. */
    method ResolveNext() returns (fault: Option<Fault>)
      requires Valid() && |resolved| < |candidates|
      modifies this`resolved
      ensures Valid()
      ensures fault.None? ==> |resolved| == |old(resolved)| + 1
      ensures fault.Some? ==> resolved == old(resolved) && |resolved| == Resolvable(w, ctx, candidates)
    {
      var next := CheckedResolve(w, ctx, candidates[|resolved|]);
      if next.Err? { return Some(next.error); }
      resolved := resolved + [next.value];
      return None;
    }

    /** Calls the candidates in turn until one answers. The reply names the
        first candidate that answers among the leading ones that resolve. */
    method ChatCompletion(attempts: nat -> Attempt) returns (reply: Reply)
      requires Valid()
      modifies this`resolved, this`used
      ensures Valid()
      ensures reply.Reply? ==>
                && reply.candidate < Resolvable(w, ctx, candidates) && TurnOf(attempts, reply.candidate)
                && attempts(reply.candidate) == Answered(reply.text) && used == Some(reply.candidate)
      ensures reply.AllFailed? ==>
                && used == old(used)
                && forall i :: 0 <= i < Resolvable(w, ctx, candidates) && TurnOf(attempts, i) ==> attempts(i).Failed?
    {
      var i := 0;
      while i < |candidates|
        invariant 0 <= i <= |candidates| && Valid() && used == old(used)
        invariant forall j :: 0 <= j < i && j < Resolvable(w, ctx, candidates) ==>
                                attempts(j).Failed? && !attempts(j).cancelled
      {
        var rc := Candidate(i);
        if rc.Ok? {
          match attempts(i) {
            case Answered(text) =>
              used := Some(i);
              return Reply(i, text);
            case Failed(cancelled) =>
              if cancelled {
                assert forall j :: j > i ==> !TurnOf(attempts, j);
                return AllFailed;
              }
          }
        }
        i := i + 1;
      }
      return AllFailed;
    }
  }

  /** Every candidate a fallback client ever resolves is authorized: the client
      keeps the access of the graph its node belongs to. */
  lemma ResolvedIsAuthorized(w: World, request: Context, client: Engine.Client, refs: seq<string>, name: string)
    requires Access.CarriesAccess(request, client, refs) && CheckedResolve(w, client.ctx, name).Ok?
    ensures Access.MayReach(w, request, refs, name)
  {
    Access.CheckedMayReach(w, request, client.ctx, refs, name);
  }
}
