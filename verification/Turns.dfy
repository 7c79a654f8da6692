/** What becomes of the turns of the base model: which a stack of loops resolves,
    which it hands to its caller, and which tools it runs
    (internal/pipeline/tool_loop_client.go:116-134, 160-214, 296-330). */
module Turns {
  import opened Prelude
  import opened StreamTurn
  import opened ToolLoop
  import opened ToolLoopLaws
  import opened StreamRefinement
  import opened StreamLaws

  // ---- Tools that are run are offered ----------------------------------

  /** A text fetched for a call was fetched for a tool of one of the loops. */
  ghost predicate Offered(loops: seq<Loop>, f: Fetched) {
    f.call.Some? ==>
      f.name == f.call.value.name && exists loop :: loop in loops && f.call.value.name in loop.tools
  }

  /** Everything fetched since is offered. */
  ghost predicate OfferedSince(loops: seq<Loop>, before: Log, after: Log) {
    before.fetched <= after.fetched &&
    forall k :: |before.fetched| <= k < |after.fetched| ==> Offered(loops, after.fetched[k])
  }

  lemma OfferedTrans(loops: seq<Loop>, a: Log, b: Log, c: Log)
    requires OfferedSince(loops, a, b) && OfferedSince(loops, b, c)
    ensures OfferedSince(loops, a, c)
  {
    forall k | |a.fetched| <= k < |c.fetched| ensures Offered(loops, c.fetched[k]) {
      if k < |b.fetched| { assert c.fetched[k] == b.fetched[k]; }
    }
  }

  lemma OfferedMore(loops: seq<Loop>, log: Log, f: Fetched)
    requires Offered(loops, f)
    ensures OfferedSince(loops, log, Recorded(log, f))
  {
  }

  lemma {:induction false} ValuesOffered(
    env: Env, loops: seq<Loop>, values: seq<Value>, blocks: seq<string>, log: Log)
    ensures OfferedSince(loops, log, ValueBlocks(env, values, blocks, log).1)
  {
    if values != [] && values[0].content == "" {
      ValuesOffered(env, loops, values[1..], blocks, log);
    } else if values != [] {
      var block := Titled(env, values[0].title, values[0].content);
      var log1 := Recorded(log, Fetched(values[0].title, block, None));
      OfferedMore(loops, log, Fetched(values[0].title, block, None));
      ValuesOffered(env, loops, values[1..], blocks + [block], log1);
      OfferedTrans(loops, log, log1, ValueBlocks(env, values[1..], blocks + [block], log1).1);
    }
  }

  lemma {:induction false} ToolsOffered(
    env: Env, loops: seq<Loop>, tools: seq<ConversationTool>, messages: seq<Message>, blocks: seq<string>, log: Log)
    ensures OfferedSince(loops, log, ToolBlocks(env, tools, messages, blocks, log).1)
  {
    if tools != [] {
      var (block, log1) := ToolBlock(env, tools[0], messages, log);
      if block.Ok? {
        var blocks' := if block.value == "" then blocks else blocks + [block.value];
        ToolsOffered(env, loops, tools[1..], messages, blocks', log1);
        OfferedTrans(loops, log, log1, ToolBlocks(env, tools[1..], messages, blocks', log1).1);
      }
    }
  }

  lemma PrefetchOffered(env: Env, loops: seq<Loop>, loop: Loop, messages: seq<Message>, log: Log)
    ensures OfferedSince(loops, log, Prefetch(env, loop, messages, log).1)
  {
    if loop.prefetches && !log.claimed {
      var log0 := log.(claimed := true);
      ValuesOffered(env, loops, env.values, [], log0);
      var (values, log1) := ValueBlocks(env, env.values, [], log0);
      if values.Ok? {
        ToolsOffered(env, loops, env.prefetched, messages, values.value, log1);
        OfferedTrans(loops, log0, log1, ToolBlocks(env, env.prefetched, messages, values.value, log1).1);
      }
    }
  }

  lemma {:induction false} RunOffered(
    env: Env, loops: seq<Loop>, loop: Loop, calls: seq<ToolCall>, messages: seq<Message>, log: Log)
    requires loop in loops && AllOwn(loop, calls)
    ensures OfferedSince(loops, log, RunTools(env, loop, calls, messages, log).1)
  {
    if calls != [] && !Gone(env, log) {
      var content := loop.run(log, calls[0]);
      var f := Fetched(calls[0].name, content, Some(calls[0]));
      var messages' := messages + [ResultMessage(calls[0], content)];
      OfferedMore(loops, log, f);
      assert AllOwn(loop, calls[1..]);
      RunOffered(env, loops, loop, calls[1..], messages', Recorded(log, f));
      OfferedTrans(loops, log, Recorded(log, f), RunTools(env, loop, calls[1..], messages', Recorded(log, f)).1);
    }
  }

  lemma {:induction false} CompleteOffered(env: Env, loops: seq<Loop>, stack: seq<Loop>, req: Request, log: Log)
    requires forall l :: l in stack ==> l in loops
    ensures OfferedSince(loops, log, Complete(env, stack, req, log).1)
    decreases |stack|, if stack == [] then 0 else Last(stack).maxIterations + 1
  {
    if stack != [] {
      var (block, log1) := Prefetch(env, Last(stack), req.messages, log);
      PrefetchOffered(env, loops, Last(stack), req.messages, log);
      if block.Ok? {
        var messages := Inject(req.messages, block.value);
        RoundsOffered(env, loops, stack, req, messages, 0, log1);
        OfferedTrans(loops, log, log1, Rounds(env, stack, req, messages, 0, log1).1);
      }
    }
  }

  lemma {:induction false} RoundsOffered(
    env: Env, loops: seq<Loop>, stack: seq<Loop>, req: Request, messages: seq<Message>, i: nat, log: Log)
    requires stack != [] && i <= Last(stack).maxIterations && forall l :: l in stack ==> l in loops
    ensures OfferedSince(loops, log, Rounds(env, stack, req, messages, i, log).1)
    decreases |stack|, Last(stack).maxIterations - i
  {
    var loop := Last(stack);
    if i < loop.maxIterations && !Gone(env, log) {
      var inner := RoundRequest(loop, req, messages, i);
      CompleteOffered(env, loops, Init(stack), inner, log);
      var (reply, log1) := Complete(env, Init(stack), inner, log);
      AfterReplyOffered(env, loops, loop, messages, i, reply, log1);
      var after := AfterReply(env, loop, messages, i, reply, log1);
      OfferedTrans(loops, log, log1, after.log);
      if after.Again? {
        RoundsOffered(env, loops, stack, req, after.messages, i + 1, after.log);
        OfferedTrans(loops, log, after.log, Rounds(env, stack, req, after.messages, i + 1, after.log).1);
      }
    }
  }

  lemma AfterReplyOffered(
    env: Env, loops: seq<Loop>, loop: Loop, messages: seq<Message>, i: nat, reply: Reply, log: Log)
    requires loop in loops
    ensures OfferedSince(loops, log, AfterReply(env, loop, messages, i, reply, log).log)
  {
    if reply.Answer? && Resolves(loop, reply.turn.calls) {
      ResolvesOwn(loop, reply.turn.calls);
      RunOffered(env, loops, loop, reply.turn.calls, messages + [CallsMessage(reply.turn.calls)], log);
    }
  }

  /** Whatever calls the base model answers, every tool a stack runs for one is
      offered by a loop of the stack. */
  lemma FetchedIsOffered(env: Env, stack: seq<Loop>, req: Request, f: Fetched)
    requires f in Complete(env, stack, req, NoLog).1.fetched
    ensures Offered(stack, f)
  {
    CompleteOffered(env, stack, stack, req, NoLog);
  }

  lemma {:induction false} CompleteStreamOffered(
    env: Env, loops: seq<Loop>, stack: seq<Loop>, req: Request, log: Log)
    requires forall l :: l in stack ==> l in loops
    ensures OfferedSince(loops, log, CompleteStream(env, stack, req, log).1)
    decreases |stack|, if stack == [] then 0 else Last(stack).maxIterations + 1
  {
    if stack != [] {
      var (block, log1) := Prefetch(env, Last(stack), req.messages, log);
      PrefetchOffered(env, loops, Last(stack), req.messages, log);
      if block.Ok? {
        var messages := Inject(req.messages, block.value);
        RoundsStreamOffered(env, loops, stack, req, messages, 0, log1);
        OfferedTrans(loops, log, log1, RoundsStream(env, stack, req, messages, 0, log1).1);
      }
    }
  }

  lemma {:induction false} RoundsStreamOffered(
    env: Env, loops: seq<Loop>, stack: seq<Loop>, req: Request, messages: seq<Message>, i: nat, log: Log)
    requires stack != [] && i <= Last(stack).maxIterations && forall l :: l in stack ==> l in loops
    ensures OfferedSince(loops, log, RoundsStream(env, stack, req, messages, i, log).1)
    decreases |stack|, Last(stack).maxIterations - i
  {
    var loop := Last(stack);
    if i < loop.maxIterations && !Gone(env, log) {
      var inner := RoundRequest(loop, req, messages, i);
      CompleteStreamOffered(env, loops, Init(stack), inner, log);
      var (streamed, log1) := CompleteStream(env, Init(stack), inner, log);
      AfterStreamOffered(env, loops, loop, messages, i, streamed, log1);
      var after := AfterStream(env, loop, messages, i, streamed, log1);
      OfferedTrans(loops, log, log1, after.log);
      if after.Again? {
        RoundsStreamOffered(env, loops, stack, req, after.messages, i + 1, after.log);
        OfferedTrans(loops, log, after.log, RoundsStream(env, stack, req, after.messages, i + 1, after.log).1);
      }
    }
  }

  lemma AfterStreamOffered(
    env: Env, loops: seq<Loop>, loop: Loop, messages: seq<Message>, i: nat, streamed: Streamed, log: Log)
    requires loop in loops
    ensures OfferedSince(loops, log, AfterStream(env, loop, messages, i, streamed, log).log)
  {
    if streamed.Stream? && Resolves(loop, Assemble(Deltas(streamed.chunks))) {
      CallsOffered(env, loops, loop, messages, Assemble(Deltas(streamed.chunks)), log);
    }
  }

  lemma CallsOffered(
    env: Env, loops: seq<Loop>, loop: Loop, messages: seq<Message>, calls: seq<ToolCall>, log: Log)
    requires loop in loops && Resolves(loop, calls)
    ensures OfferedSince(loops, log, AfterCalls(env, loop, messages, calls, log).log)
  {
    ResolvesOwn(loop, calls);
    RunOffered(env, loops, loop, calls, messages + [CallsMessage(calls)], log);
  }

  /** The same of the streaming form, whatever the base model streams. */
  lemma StreamFetchedIsOffered(env: Env, stack: seq<Loop>, req: Request, f: Fetched)
    requires f in CompleteStream(env, stack, req, NoLog).1.fetched
    ensures Offered(stack, f)
  {
    CompleteStreamOffered(env, stack, stack, req, NoLog);
  }

  // ---- What becomes of each turn ---------------------------------------

  /** Request k of a later log, as the model was asked it. */
  ghost predicate AskedAt(l: Log, later: Log, k: nat) {
    k < |later.requests| && l.requests == later.requests[..k + 1] && Extends(l, later)
  }

  /** The answer calls tools, all of them one loop's. */
  ghost predicate OfOneLoop(loops: seq<Loop>, reply: Reply) {
    && reply.Answer? && reply.turn.calls != []
    && exists loop :: loop in loops && AllOwn(loop, reply.turn.calls)
  }

  /** The answer to request k called tools of one loop, or is what the run ends
      on: the caller gets it as it is, and nothing was done since. */
  ghost predicate Handled(env: Env, loops: seq<Loop>, reply: Reply, later: Log, k: nat) {
    exists l ::
      && AskedAt(l, later, k)
      && (OfOneLoop(loops, env.base(l)) || (l == later && reply == env.base(l)))
  }

  ghost predicate AllHandled(env: Env, loops: seq<Loop>, log: Log, reply: Reply, later: Log) {
    && Extends(log, later)
    && (forall k :: |log.requests| <= k < |later.requests| ==> Handled(env, loops, reply, later, k))
    && (reply.Answer? ==> |log.requests| < |later.requests| && reply == env.base(later))
  }

  lemma {:induction false} CompleteHandles(env: Env, loops: seq<Loop>, stack: seq<Loop>, req: Request, log: Log)
    requires forall l :: l in stack ==> l in loops
    ensures var (reply, later) := Complete(env, stack, req, log);
            AllHandled(env, loops, log, reply, later)
    decreases |stack|, if stack == [] then 0 else Last(stack).maxIterations + 1
  {
    if stack == [] {
      var later := Sent(log, req);
      assert AskedAt(later, later, |log.requests|);
    } else {
      var (block, log1) := Prefetch(env, Last(stack), req.messages, log);
      PrefetchStep(env, Last(stack), req.messages, log);
      if block.Ok? { RoundsHandle(env, loops, stack, req, Inject(req.messages, block.value), 0, log1); }
    }
  }

  lemma {:induction false} RoundsHandle(
    env: Env, loops: seq<Loop>, stack: seq<Loop>, req: Request, messages: seq<Message>, i: nat, log: Log)
    requires stack != [] && i <= Last(stack).maxIterations && forall l :: l in stack ==> l in loops
    ensures var (reply, later) := Rounds(env, stack, req, messages, i, log);
            AllHandled(env, loops, log, reply, later)
    decreases |stack|, Last(stack).maxIterations - i
  {
    var loop := Last(stack);
    if i < loop.maxIterations && !Gone(env, log) {
      var inner := RoundRequest(loop, req, messages, i);
      CompleteHandles(env, loops, Init(stack), inner, log);
      var (reply, log1) := Complete(env, Init(stack), inner, log);
      AfterReplyStep(env, loop, messages, i, reply, log1);
      var after := AfterReply(env, loop, messages, i, reply, log1);
      if after.Again? {
        RoundsHandle(env, loops, stack, req, after.messages, i + 1, after.log);
        var (final, later) := Rounds(env, stack, req, after.messages, i + 1, after.log);
        ResolvedTurn(env, loops, loop, log, reply, log1, after.log, final, later);
      } else if after.result != reply || after.log != log1 {
        ResolvedTurn(env, loops, loop, log, reply, log1, after.log, after.result, after.log);
      }
    }
  }

  lemma AskedLater(l: Log, log: Log, later: Log, k: nat)
    requires AskedAt(l, log, k) && Extends(log, later)
    ensures AskedAt(l, later, k)
  {
    assert later.requests[..k + 1] == log.requests[..k + 1];
  }

  /** Turns handled so far stay so when the last one's tools are run. */
  lemma ResolvedTurn(env: Env, loops: seq<Loop>, loop: Loop, log: Log, reply: Reply, log1: Log, log2: Log,
                     final: Reply, later: Log)
    requires AllHandled(env, loops, log, reply, log1) && loop in loops && reply.Answer?
    requires Resolves(loop, reply.turn.calls) && Extends(log1, log2) && log1.requests == log2.requests
    requires AllHandled(env, loops, log2, final, later)
    ensures AllHandled(env, loops, log, final, later)
  {
    ResolvesOwn(loop, reply.turn.calls);
    forall k | |log.requests| <= k < |later.requests| ensures Handled(env, loops, final, later, k) {
      if k < |log1.requests| {
        assert Handled(env, loops, reply, log1, k);
        var l :| AskedAt(l, log1, k) && (OfOneLoop(loops, env.base(l)) || (l == log1 && reply == env.base(l)));
        AskedLater(l, log1, later, k);
      }
    }
  }

  /** Whatever the stack and the base model: every turn the model answers calls
      tools of one loop, all of them; or it is the last thing that happens, and
      the caller gets it as it is. And an answer is the model's last turn. */
  lemma TurnsAreHandled(env: Env, stack: seq<Loop>, req: Request, log: Log)
    ensures var (reply, later) := Complete(env, stack, req, log);
            AllHandled(env, stack, log, reply, later)
  {
    CompleteHandles(env, stack, stack, req, log);
  }

  /** So a model that always calls a tool no loop offers is asked once at most, and
      its caller gets the turn, nothing having been fetched since. */
  lemma UnofferedTurnIsReturned(env: Env, stack: seq<Loop>, req: Request, log: Log)
    requires forall l :: env.base(l).Answer?
    requires forall l, loop :: loop in stack ==> !AllOwn(loop, env.base(l).turn.calls)
    ensures var (reply, later) := Complete(env, stack, req, log);
            && |later.requests| <= |log.requests| + 1
            && (|later.requests| > |log.requests| ==> reply == env.base(later))
  {
    TurnsAreHandled(env, stack, req, log);
    var (reply, later) := Complete(env, stack, req, log);
    if |later.requests| > |log.requests| {
      assert Handled(env, stack, reply, later, |log.requests|);
      var l :| AskedAt(l, later, |log.requests|)
          && (OfOneLoop(stack, env.base(l)) || (l == later && reply == env.base(l)));
    }
  }

  // ---- Tools of a loop are returned only once its calls are spent -------

  /** An answer that calls only tools of a loop of the stack comes after the loop
      had its rounds: more requests were sent than it may run calls. */
  lemma {:induction false} ReturnedCallsAreSpent(env: Env, stack: seq<Loop>, req: Request, log: Log, loop: Loop)
    requires loop in stack && Complete(env, stack, req, log).0.Answer?
    requires var calls := Complete(env, stack, req, log).0.turn.calls; calls != [] && AllOwn(loop, calls)
    ensures |Complete(env, stack, req, log).1.requests| > |log.requests| + loop.maxCalls
    decreases |stack|, Last(stack).maxIterations + 1
  {
    var (block, log1) := Prefetch(env, Last(stack), req.messages, log);
    PrefetchStep(env, Last(stack), req.messages, log);
    RoundsSpent(env, stack, req, Inject(req.messages, block.value), 0, log1, loop);
  }

  lemma {:induction false} RoundsSpent(
    env: Env, stack: seq<Loop>, req: Request, messages: seq<Message>, i: nat, log: Log, loop: Loop)
    requires loop in stack && i <= Last(stack).maxIterations && Rounds(env, stack, req, messages, i, log).0.Answer?
    requires var calls := Rounds(env, stack, req, messages, i, log).0.turn.calls; calls != [] && AllOwn(loop, calls)
    ensures var sent := |Rounds(env, stack, req, messages, i, log).1.requests|;
            sent > |log.requests| + (if loop != Last(stack) then loop.maxCalls
                                     else if i < loop.maxCalls then loop.maxCalls - i else 0)
    decreases |stack|, Last(stack).maxIterations - i
  {
    var last := Last(stack);
    assert forall l :: l in stack ==> l in Init(stack) || l == last;
    var inner := RoundRequest(last, req, messages, i);
    CompleteHandles(env, stack, Init(stack), inner, log);
    var (reply, log1) := Complete(env, Init(stack), inner, log);
    AfterReplyStep(env, last, messages, i, reply, log1);
    var after := AfterReply(env, last, messages, i, reply, log1);
    if after.Again? {
      RoundsSpent(env, stack, req, after.messages, i + 1, after.log, loop);
    } else {
      ResolvesOwn(last, reply.turn.calls);
      if loop != last { ReturnedCallsAreSpent(env, Init(stack), inner, log, loop); }
    }
  }
}
