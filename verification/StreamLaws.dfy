/** What holds of every streaming run of a stack of tool loops, whatever the base
    model streams: turns that fail after tool call pieces included
    (internal/pipeline/tool_loop_client.go:246-336). */
module StreamLaws {
  import opened Prelude
  import opened StreamTurn
  import opened ToolLoop
  import opened ToolLoopLaws
  import opened StreamRefinement
  import opened Conversation

  // ---- What a turn leads to --------------------------------------------

  /** The stream tells something of the model. */
  predicate HasContent(streamed: Streamed) {
    streamed.Stream? && exists c :: c in streamed.chunks && c.Content?
  }

  lemma {:induction false} ErrorsHoldNoPieces(chunks: seq<Chunk<LoopError>>)
    requires forall c :: c in chunks ==> c.ErrorChunk?
    ensures Deltas(chunks) == []
  {
    if chunks != [] {
      assert chunks[|chunks| - 1] in chunks;
      ErrorsHoldNoPieces(chunks[..|chunks| - 1]);
    }
  }

  lemma NoContentNoCalls(chunks: seq<Chunk<LoopError>>)
    requires !HasContent(Stream(chunks))
    ensures Assemble(Deltas(chunks)) == []
  {
    ErrorsHoldNoPieces(chunks);
  }

  lemma AfterCallsStep(env: Env, loop: Loop, messages: seq<Message>, calls: seq<ToolCall>, log: Log)
    ensures var after := AfterCalls(env, loop, messages, calls, log);
            && Extends(log, after.log) && after.log.requests == log.requests && after.log.claimed == log.claimed
            && (after.Done? ==> !HasContent(after.result))
  {
    RunToolsStep(env, loop, calls, messages + [CallsMessage(calls)], log);
  }

  lemma AfterStreamStep(env: Env, loop: Loop, messages: seq<Message>, i: nat, streamed: Streamed, log: Log)
    ensures var after := AfterStream(env, loop, messages, i, streamed, log);
            && Extends(log, after.log) && after.log.requests == log.requests && after.log.claimed == log.claimed
            && (after.Again? ==> HasContent(streamed) && i < loop.maxCalls)
            && (after.Done? && HasContent(after.result) ==> HasContent(streamed))
  {
    if streamed.Stream? {
      AfterCallsStep(env, loop, messages, Assemble(Deltas(streamed.chunks)), log);
      if !HasContent(streamed) { NoContentNoCalls(streamed.chunks); }
    }
  }

  /** What a turn leaves to send: the conversation and one complied round. */
  lemma AfterStreamAgain(env: Env, loop: Loop, messages: seq<Message>, i: nat, streamed: Streamed, log: Log)
    returns (r: Round)
    requires AfterStream(env, loop, messages, i, streamed, log).Again?
    ensures var after := AfterStream(env, loop, messages, i, streamed, log);
            r.loop == loop && Complied(env, after.log, r) && after.messages == messages + RoundMessages(r)
  {
    r := AfterCallsAgain(env, loop, messages, Assemble(Deltas(streamed.chunks)), log);
  }

  lemma AfterCallsAgain(env: Env, loop: Loop, messages: seq<Message>, calls: seq<ToolCall>, log: Log)
    returns (r: Round)
    requires AfterCalls(env, loop, messages, calls, log).Again? && Resolves(loop, calls)
    ensures var after := AfterCalls(env, loop, messages, calls, log);
            r.loop == loop && Complied(env, after.log, r) && after.messages == messages + RoundMessages(r)
  {
    var contents := RunToolsResults(env, loop, calls, messages + [CallsMessage(calls)], log);
    ResolvesOwn(loop, calls);
    r := Round(loop, calls, contents);
    assert messages + RoundMessages(r) == messages + [CallsMessage(calls)] + Results(calls, contents);
  }

  // ---- Bounds ----------------------------------------------------------

  /** later has at most n requests more. */
  predicate Adds(log: Log, later: Log, n: nat) {
    |later.requests| <= |log.requests| + n
  }

  lemma AddsTrans(log: Log, log1: Log, later: Log, n: nat, m: nat)
    requires Adds(log, log1, n) && Adds(log1, later, m)
    ensures Adds(log, later, n + m)
  {
  }

  /** The streaming form is bound by the product of the loops' bounds too. */
  lemma {:induction false} StreamRequestsAreBounded(env: Env, stack: seq<Loop>, req: Request, log: Log)
    ensures Adds(log, CompleteStream(env, stack, req, log).1, StackBound(stack))
    decreases |stack|, if stack == [] then 0 else Last(stack).maxIterations + 1
  {
    if stack != [] {
      var n, b := LoopBound(Last(stack)), StackBound(Init(stack));
      var (block, log1) := Prefetch(env, Last(stack), req.messages, log);
      PrefetchStep(env, Last(stack), req.messages, log);
      if block.Ok? {
        RoundsStreamAreBounded(env, stack, req, Inject(req.messages, block.value), 0, log1, n, b);
        AddsTrans(log, log1, CompleteStream(env, stack, req, log).1, 0, RoundsBound(n, b));
      }
    }
  }

  /** From round i on, n rounds are left of b requests each. */
  lemma {:induction false} RoundsStreamAreBounded(
    env: Env, stack: seq<Loop>, req: Request, messages: seq<Message>, i: nat, log: Log, n: nat, b: nat)
    requires stack != [] && i <= Last(stack).maxIterations && i <= Last(stack).maxCalls
    requires i + n == LoopBound(Last(stack)) && b == StackBound(Init(stack))
    ensures Adds(log, RoundsStream(env, stack, req, messages, i, log).1, RoundsBound(n, b))
    decreases |stack|, Last(stack).maxIterations - i
  {
    StreamRequestsAreBounded(env, Init(stack), RoundRequest(Last(stack), req, messages, i), log);
    var after := RoundStep(env, stack, req, messages, i, log, b);
    RoundsLeft(Last(stack), i, n);
    var later := after.log;
    if after.Again? {
      RoundsStreamAreBounded(env, stack, req, after.messages, i + 1, after.log, n - 1, b);
      later := RoundsStream(env, stack, req, after.messages, i + 1, after.log).1;
    }
    RoundCounts(log, after.log, later, n, b);
  }

  lemma RoundsLeft(loop: Loop, i: nat, n: nat)
    requires i <= loop.maxIterations && i <= loop.maxCalls && i + n == LoopBound(loop)
    ensures n > 0 <==> i < loop.maxIterations
  {
  }

  lemma RoundCounts(log: Log, log1: Log, later: Log, n: nat, b: nat)
    requires Adds(log, log1, if n == 0 then 0 else b)
    requires if n == 0 then later == log1 else later == log1 || Adds(log1, later, RoundsBound(n - 1, b))
    ensures Adds(log, later, RoundsBound(n, b))
  {
  }

  /** One round: it ends the run, or another follows. */
  lemma RoundStep(env: Env, stack: seq<Loop>, req: Request, messages: seq<Message>, i: nat, log: Log, b: nat)
    returns (after: Step<Streamed>)
    requires stack != [] && i <= Last(stack).maxIterations
    requires Adds(log, CompleteStream(env, Init(stack), RoundRequest(Last(stack), req, messages, i), log).1, b)
    ensures Adds(log, after.log, b) && (after.Again? ==> i < Last(stack).maxIterations && i < Last(stack).maxCalls)
    ensures i == Last(stack).maxIterations ==> Adds(log, after.log, 0)
    ensures RoundsStream(env, stack, req, messages, i, log) ==
            match after
            case Done(result, log1) => (result, log1)
            case Again(messages', log1) => RoundsStream(env, stack, req, messages', i + 1, log1)
  {
    var loop := Last(stack);
    if i == loop.maxIterations || Gone(env, log) {
      after := DoneWith(RoundsStream(env, stack, req, messages, i, log));
    } else {
      var (streamed, log1) := CompleteStream(env, Init(stack), RoundRequest(loop, req, messages, i), log);
      AfterStreamStep(env, loop, messages, i, streamed, log1);
      after := AfterStream(env, loop, messages, i, streamed, log1);
    }
  }

  // ---- The shape of every request --------------------------------------

  lemma {:induction false} StreamWellFormed(env: Env, stack: seq<Loop>, req: Request, log: Log, given: Given)
    requires WellFormed(env, log, given, req.messages) && AllWellFormed(env, log, given)
    requires !log.claimed && Prefetches(stack) ==> req.messages == given.messages && given.injectable
    requires forall l :: l in stack ==> l in given.loops
    ensures var (streamed, log1) := CompleteStream(env, stack, req, log);
            && Extends(log, log1) && AllWellFormed(env, log1, given)
            && (HasContent(streamed) && Prefetches(stack) ==> log1.claimed)
    decreases |stack|, if stack == [] then 0 else Last(stack).maxIterations + 1
  {
    if stack == [] {
      CompleteWellFormed(env, stack, req, log, given);
    } else {
      var loop := Last(stack);
      assert loop in stack && (forall l :: l in stack <==> l in Init(stack) || l == loop);
      var (block, log1) := Prefetch(env, loop, req.messages, log);
      PrefetchStep(env, loop, req.messages, log);
      AllWellFormedLater(env, log, log1, given);
      OpeningWellFormed(env, loop, given, req.messages, log);
      if block.Ok? {
        RoundsStreamWellFormed(env, stack, req, Inject(req.messages, block.value), 0, log1, given);
      }
    }
  }

  lemma {:induction false} RoundsStreamWellFormed(
    env: Env, stack: seq<Loop>, req: Request, messages: seq<Message>, i: nat, log: Log, given: Given)
    requires stack != [] && i <= Last(stack).maxIterations
    requires WellFormed(env, log, given, messages) && AllWellFormed(env, log, given)
    requires Last(stack).prefetches ==> log.claimed
    requires !log.claimed && Prefetches(Init(stack)) ==> messages == given.messages && given.injectable
    requires forall l :: l in stack ==> l in given.loops
    ensures var (streamed, log1) := RoundsStream(env, stack, req, messages, i, log);
            && Extends(log, log1) && AllWellFormed(env, log1, given)
            && (HasContent(streamed) && Prefetches(stack) ==> log1.claimed)
    decreases |stack|, Last(stack).maxIterations - i
  {
    var loop := Last(stack);
    assert forall l :: l in stack <==> l in Init(stack) || l == loop;
    if i == loop.maxIterations {
      AllWellFormedLater(env, log, Emitted(env, [ErrorChunk(TooManyIterations)], log).1, given);
    } else if !Gone(env, log) {
      var inner := RoundRequest(loop, req, messages, i);
      StreamWellFormed(env, Init(stack), inner, log, given);
      var (streamed, log1) := CompleteStream(env, Init(stack), inner, log);
      AfterStreamStep(env, loop, messages, i, streamed, log1);
      var after := AfterStream(env, loop, messages, i, streamed, log1);
      AllWellFormedLater(env, log1, after.log, given);
      if after.Again? {
        var r := AfterStreamAgain(env, loop, messages, i, streamed, log1);
        WellFormedLater(env, log, after.log, given, messages);
        OneRoundMore(env, after.log, given, messages, r);
        RoundsStreamWellFormed(env, stack, req, after.messages, i + 1, after.log, given);
      }
    }
  }

  /** Every request of a streaming execution is the original conversation, with
      the prefetched block injected at most once across the stack, followed by
      complete rounds, each of one loop of the stack. */
  lemma StreamRequestsAreWellFormed(env: Env, stack: seq<Loop>, req: Request, k: nat)
    requires k < |CompleteStream(env, stack, req, NoLog).1.requests|
    ensures var log := CompleteStream(env, stack, req, NoLog).1;
            WellFormed(env, log, Given(req.messages, stack, true), log.requests[k].messages)
  {
    var empty, given := NoLog, Given(req.messages, stack, true);
    assert Continues(env, empty, req.messages, req.messages, []) && RanBy(stack, []);
    StreamWellFormed(env, stack, req, empty, given);
    var log := CompleteStream(env, stack, req, empty).1;
    assert log.requests[k] in log.requests;
  }

  // ---- Blocked results end the stream ----------------------------------

  /** The stream speaks of a rejection. */
  ghost predicate MentionsRejection(streamed: Streamed) {
    match streamed
    case Refused(error) => error.Rejected?
    case Stream(chunks) => exists c :: c in chunks && c.ErrorChunk? && c.error.Rejected?
  }

  /** The stream is the rejection and nothing else. */
  predicate IsRejection(streamed: Streamed, reason: string) {
    streamed == Refused(Rejected(reason)) || streamed == Stream([ErrorChunk(Rejected(reason))])
  }

  /** Nothing fetched is blocked and the stream mentions no rejection; or the last
      text fetched is the only blocked one, and the stream is the rejection, for
      that reason, or nothing to a caller that is gone. */
  ghost predicate StreamPoliced(env: Env, streamed: Streamed, log: Log) {
    if AllCleared(env, log.fetched) then !MentionsRejection(streamed)
    else
      exists reason ::
        && Policed(env, log.fetched, Some(Rejected(reason)))
        && (IsRejection(streamed, reason) || (Gone(env, log) && streamed == Stream([])))
  }

  lemma BlockedIsNotCleared(env: Env, fetched: seq<Fetched>, reason: string)
    requires Policed(env, fetched, Some(Rejected(reason)))
    ensures !AllCleared(env, fetched)
  {
    FirstBlockNoneIff(env.inspectors, Last(fetched).name, Last(fetched).content);
    assert Last(fetched) in fetched;
  }

  /** A rejection is sent whole, or to nobody. */
  lemma RejectionPoliced(env: Env, log: Log, reason: string)
    requires Policed(env, log.fetched, Some(Rejected(reason)))
    ensures var (streamed, log1) := Emitted(env, [ErrorChunk(Rejected(reason))], log);
            StreamPoliced(env, streamed, log1)
  {
    BlockedIsNotCleared(env, log.fetched, reason);
    var (streamed, log1) := Emitted(env, [ErrorChunk(Rejected(reason))], log);
    assert Policed(env, log1.fetched, Some(Rejected(reason)));
  }

  lemma ClearedPoliced(env: Env, chunks: seq<Chunk<LoopError>>, log: Log)
    requires AllCleared(env, log.fetched) && !MentionsRejection(Stream(chunks))
    ensures var (streamed, log1) := Emitted(env, chunks, log);
            StreamPoliced(env, streamed, log1)
  {
  }

  /** A loop passes on the rejection of one below. */
  lemma RejectionPasses(env: Env, loop: Loop, messages: seq<Message>, i: nat, streamed: Streamed, log: Log)
    requires StreamPoliced(env, streamed, log) && !AllCleared(env, log.fetched)
    ensures var after := AfterStream(env, loop, messages, i, streamed, log);
            after.Done? && StreamPoliced(env, after.result, after.log)
  {
    var reason :| Policed(env, log.fetched, Some(Rejected(reason)))
        && (IsRejection(streamed, reason) || (Gone(env, log) && streamed == Stream([])));
    if IsRejection(streamed, reason) {
      OnlyErrorHasNoCalls(Rejected(reason));
      RejectionPoliced(env, log, reason);
    } else {
      NoContentNoCalls([]);
    }
  }

  lemma AfterStreamPoliced(env: Env, loop: Loop, messages: seq<Message>, i: nat, streamed: Streamed, log: Log)
    requires StreamPoliced(env, streamed, log)
    ensures match AfterStream(env, loop, messages, i, streamed, log)
            case Done(result, log1) => StreamPoliced(env, result, log1)
            case Again(_, log1) => AllCleared(env, log1.fetched)
  {
    if !AllCleared(env, log.fetched) {
      RejectionPasses(env, loop, messages, i, streamed, log);
    } else if streamed.Refused? {
      ClearedPoliced(env, [ErrorChunk(streamed.error)], log);
    } else {
      ClearedPoliced(env, streamed.chunks, log);
      CallsPoliced(env, loop, messages, Assemble(Deltas(streamed.chunks)), log);
    }
  }

  /** The calls of a round end in cleared results, in a blocked one, or are cut
      short by a caller that is gone. */
  lemma CallsPoliced(env: Env, loop: Loop, messages: seq<Message>, calls: seq<ToolCall>, log: Log)
    requires AllCleared(env, log.fetched)
    ensures match AfterCalls(env, loop, messages, calls, log)
            case Done(result, log1) => StreamPoliced(env, result, log1)
            case Again(_, log1) => AllCleared(env, log1.fetched)
  {
    RunToolsStep(env, loop, calls, messages + [CallsMessage(calls)], log);
    var (ran, log1) := RunTools(env, loop, calls, messages + [CallsMessage(calls)], log);
    if ran.Err? && ran.error.Rejected? {
      RejectionPoliced(env, log1, ran.error.reason);
    } else if ran.Err? {
      ClearedPoliced(env, [], log1);
    }
  }

  /** The streaming form is rejected exactly when a fetched text is blocked: it
      is the last one fetched, and its reason is all the caller is told, unless it
      is gone. */
  lemma {:induction false} StreamRejectedIffBlocked(env: Env, stack: seq<Loop>, req: Request, log: Log)
    requires forall l :: !MentionsRejection(env.baseStream(l))
    requires AllCleared(env, log.fetched)
    ensures var (streamed, log1) := CompleteStream(env, stack, req, log);
            StreamPoliced(env, streamed, log1)
    decreases |stack|, if stack == [] then 0 else Last(stack).maxIterations + 1
  {
    if stack != [] {
      var (block, log1) := Prefetch(env, Last(stack), req.messages, log);
      PrefetchStep(env, Last(stack), req.messages, log);
      if block.Ok? {
        RoundsStreamPoliced(env, stack, req, Inject(req.messages, block.value), 0, log1);
      } else if block.error.Rejected? {
        BlockedIsNotCleared(env, log1.fetched, block.error.reason);
      }
    }
  }

  lemma {:induction false} RoundsStreamPoliced(
    env: Env, stack: seq<Loop>, req: Request, messages: seq<Message>, i: nat, log: Log)
    requires forall l :: !MentionsRejection(env.baseStream(l))
    requires stack != [] && i <= Last(stack).maxIterations
    requires AllCleared(env, log.fetched)
    ensures var (streamed, log1) := RoundsStream(env, stack, req, messages, i, log);
            StreamPoliced(env, streamed, log1)
    decreases |stack|, Last(stack).maxIterations - i
  {
    var loop := Last(stack);
    if i == loop.maxIterations {
      ClearedPoliced(env, [ErrorChunk(TooManyIterations)], log);
    } else if !Gone(env, log) {
      var inner := RoundRequest(loop, req, messages, i);
      StreamRejectedIffBlocked(env, Init(stack), inner, log);
      var (streamed, log1) := CompleteStream(env, Init(stack), inner, log);
      AfterStreamPoliced(env, loop, messages, i, streamed, log1);
      var after := AfterStream(env, loop, messages, i, streamed, log1);
      if after.Again? { RoundsStreamPoliced(env, stack, req, after.messages, i + 1, after.log); }
    }
  }
}
