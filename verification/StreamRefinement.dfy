/** The streaming form of a stack of tool loops against the plain one
    (internal/pipeline/tool_loop_client.go:160-214, 246-336). */
module StreamRefinement {
  import opened Prelude
  import opened StreamTurn
  import opened ToolLoop
  import opened ToolLoopLaws

  // ---- What the two forms tell a caller --------------------------------

  function Text(chunks: seq<Chunk<LoopError>>): string {
    if chunks == [] then ""
    else Text(Init(chunks)) + (if Last(chunks).Content? then Last(chunks).text else "")
  }

  /** chunks carry the turn, its calls cut up and interleaved in any way. */
  ghost predicate Carries(chunks: seq<Chunk<LoopError>>, turn: Turn) {
    && (forall c :: c in chunks ==> c.Content?)
    && Text(chunks) == turn.text
    && Fragments(Deltas(chunks), turn.calls)
  }

  /** chunks end on the error, and hold no tool calls, or not only of one loop. */
  ghost predicate FailsWith(chunks: seq<Chunk<LoopError>>, error: LoopError, loops: seq<Loop>) {
    && chunks != []
    && Last(chunks) == ErrorChunk(error)
    && (forall c :: c in Init(chunks) ==> c.Content?)
    && NoLoopKnows(loops, Assemble(Deltas(chunks)))
  }

  /** There are no calls, or no loop has them all among its tools. */
  ghost predicate NoLoopKnows(loops: seq<Loop>, calls: seq<ToolCall>) {
    calls == [] || forall loop :: loop in loops ==> !AllOwn(loop, calls)
  }

  lemma NoneResolves(loops: seq<Loop>, calls: seq<ToolCall>)
    ensures NoLoopKnows(loops, calls) <==> forall loop :: loop in loops ==> !Resolves(loop, calls)
  {
    forall loop ensures Resolves(loop, calls) <==> calls != [] && AllOwn(loop, calls) { ResolvesOwn(loop, calls); }
  }

  ghost predicate Tells(reply: Reply, streamed: Streamed, loops: seq<Loop>) {
    match reply
    case Answer(turn) => streamed.Stream? && Carries(streamed.chunks, turn)
    case Failure(error) => streamed == Refused(error) || (streamed.Stream? && FailsWith(streamed.chunks, error, loops))
  }

  /** The two forms tell the caller the same, unless it is gone. */
  ghost predicate Agree(reply: Reply, streamed: Streamed, gone: bool, loops: seq<Loop>) {
    gone || Tells(reply, streamed, loops)
  }

  /** The base model's two forms agree on every history that has a caller. */
  ghost predicate BaseAgrees(env: Env, loops: seq<Loop>) {
    forall log :: Agree(env.base(log), env.baseStream(log), Gone(env, log), loops)
  }

  /** Both forms did the same and told the same. */
  ghost predicate Same(env: Env, reply: Reply, log1: Log, streamed: Streamed, log2: Log, loops: seq<Loop>) {
    log1 == log2 && Agree(reply, streamed, Gone(env, log1), loops)
  }

  /** Both did the same, and the caller left on the way through the answer. */
  ghost predicate CutShort(reply: Reply, log1: Log, streamed: Streamed, log2: Log, loops: seq<Loop>) {
    && log2 == log1.(left := true) && streamed.Stream?
    && exists chunks :: streamed.chunks <= chunks && Tells(reply, Stream(chunks), loops)
  }

  /** The caller left while an inner loop was sending: the streaming form did
      part of what the plain one did, and said nothing. */
  ghost predicate LeftEarly(log1: Log, streamed: Streamed, log2: Log) {
    log2.left && streamed == Stream([]) && log2.requests <= log1.requests && log2.fetched <= log1.fetched
  }

  ghost predicate Refines(env: Env, reply: Reply, log1: Log, streamed: Streamed, log2: Log, loops: seq<Loop>) {
    || Same(env, reply, log1, streamed, log2, loops)
    || CutShort(reply, log1, streamed, log2, loops)
    || LeftEarly(log1, streamed, log2)
  }

  // ---- One emission ----------------------------------------------------

  lemma ErrorChunkFails(error: LoopError, loops: seq<Loop>)
    ensures FailsWith([ErrorChunk(error)], error, loops)
  {
    var chunks: seq<Chunk<LoopError>> := [ErrorChunk(error)];
    assert Init(chunks) == [];
    assert Deltas(chunks) == Deltas(Init(chunks)) + [];
  }

  /** Sending chunks that tell the reply. */
  lemma EmittedRefines(env: Env, reply: Reply, chunks: seq<Chunk<LoopError>>, log: Log, loops: seq<Loop>)
    requires Gone(env, log) || Tells(reply, Stream(chunks), loops)
    ensures var (streamed, log2) := Emitted(env, chunks, log);
            Refines(env, reply, log, streamed, log2, loops)
  {
    if !Gone(env, log) {
      var n := SentBefore(env, log, |chunks|, 0);
      if n < |chunks| { assert chunks[..n] <= chunks; }
    }
  }

  // ---- The refinement --------------------------------------------------

  /** The buffered turn has the calls of the plain one, or none it may resolve. */
  lemma SameCalls(reply: Reply, chunks: seq<Chunk<LoopError>>, loops: seq<Loop>)
    requires Tells(reply, Stream(chunks), loops)
    ensures match reply
            case Answer(turn) => Assemble(Deltas(chunks)) == turn.calls
            case Failure(_) => forall loop :: loop in loops ==> !Resolves(loop, Assemble(Deltas(chunks)))
  {
    if reply.Answer? {
      FragmentsAssemble(Deltas(chunks), reply.turn.calls);
    } else {
      NoneResolves(loops, Assemble(Deltas(chunks)));
    }
  }

  lemma {:induction false} RunToolsErrors(env: Env, loop: Loop, calls: seq<ToolCall>, messages: seq<Message>, log: Log)
    ensures var (ran, log1) := RunTools(env, loop, calls, messages, log);
            ran.Err? ==> ran.error.Rejected? || (ran.error == Cancelled && Gone(env, log1))
  {
    if calls != [] && !Gone(env, log) {
      var content := loop.run(log, calls[0]);
      var log1 := Recorded(log, Fetched(calls[0].name, content, Some(calls[0])));
      RunToolsErrors(env, loop, calls[1..], messages + [ResultMessage(calls[0], content)], log1);
    }
  }

  /** Once the caller is gone a turn ends the loop, silently, and does nothing. */
  lemma GoneEndsBoth(env: Env, loop: Loop, messages: seq<Message>, i: nat, reply: Reply, streamed: Streamed, log: Log)
    requires Gone(env, log)
    ensures AfterReply(env, loop, messages, i, reply, log).Done?
            && AfterReply(env, loop, messages, i, reply, log).log == log
    ensures AfterStream(env, loop, messages, i, streamed, log) == Done(Stream([]), log)
  {
  }

  /** What the turn of a caller still there leads to. */
  lemma AfterRefines(
    env: Env, loop: Loop, messages: seq<Message>, i: nat, reply: Reply, streamed: Streamed, log: Log, loops: seq<Loop>)
    requires !Gone(env, log) && Tells(reply, streamed, loops) && loop in loops
    ensures match (AfterReply(env, loop, messages, i, reply, log), AfterStream(env, loop, messages, i, streamed, log))
            case (Done(r, log1), Done(s, log2)) => Refines(env, r, log1, s, log2, loops)
            case (Again(ms1, log1), Again(ms2, log2)) => ms1 == ms2 && log1 == log2
            case _ => false
  {
    if streamed.Refused? {
      ErrorChunkFails(streamed.error, loops);
      EmittedRefines(env, reply, [ErrorChunk(streamed.error)], log, loops);
    } else {
      SameCalls(reply, streamed.chunks, loops);
      var calls := Assemble(Deltas(streamed.chunks));
      if i >= loop.maxCalls || !Resolves(loop, calls) {
        EmittedRefines(env, reply, streamed.chunks, log, loops);
      } else {
        RunToolsErrors(env, loop, calls, messages + [CallsMessage(calls)], log);
        var (ran, log1) := RunTools(env, loop, calls, messages + [CallsMessage(calls)], log);
        if ran.Err? {
          ErrorChunkFails(ran.error, loops);
          var chunks := if ran.error.Rejected? then [ErrorChunk(ran.error)] else [];
          EmittedRefines(env, Failure(ran.error), chunks, log1, loops);
        }
      }
    }
  }

  /** Both forms of the stack make the same requests to the base model, in the
      same order, run the same tools, and end the same way; unless the caller
      leaves while chunks are sent, and then the streaming form did no more. */
  lemma {:induction false} StreamRefinesPlain(env: Env, stack: seq<Loop>, req: Request, log: Log)
    requires BaseAgrees(env, stack)
    ensures var (reply, log1) := Complete(env, stack, req, log);
            var (streamed, log2) := CompleteStream(env, stack, req, log);
            Refines(env, reply, log1, streamed, log2, stack)
  {
    CompleteRefines(env, stack, req, log, stack);
  }

  lemma {:induction false} CompleteRefines(env: Env, stack: seq<Loop>, req: Request, log: Log, loops: seq<Loop>)
    requires BaseAgrees(env, loops) && forall loop :: loop in stack ==> loop in loops
    ensures var (reply, log1) := Complete(env, stack, req, log);
            var (streamed, log2) := CompleteStream(env, stack, req, log);
            Refines(env, reply, log1, streamed, log2, loops)
    decreases |stack|, if stack == [] then 0 else Last(stack).maxIterations + 1
  {
    if stack != [] {
      var (block, log1) := Prefetch(env, Last(stack), req.messages, log);
      if block.Ok? {
        RoundsRefine(env, stack, req, Inject(req.messages, block.value), 0, log1, loops);
      }
    }
  }

  lemma {:induction false} RoundsRefine(
    env: Env, stack: seq<Loop>, req: Request, messages: seq<Message>, i: nat, log: Log, loops: seq<Loop>)
    requires BaseAgrees(env, loops) && forall loop :: loop in stack ==> loop in loops
    requires stack != [] && i <= Last(stack).maxIterations
    ensures var (reply, log1) := Rounds(env, stack, req, messages, i, log);
            var (streamed, log2) := RoundsStream(env, stack, req, messages, i, log);
            Refines(env, reply, log1, streamed, log2, loops)
    decreases |stack|, Last(stack).maxIterations - i
  {
    var loop := Last(stack);
    if i == loop.maxIterations {
      ErrorChunkFails(TooManyIterations, loops);
      EmittedRefines(env, Failure(TooManyIterations), [ErrorChunk(TooManyIterations)], log, loops);
    } else if !Gone(env, log) {
      var inner := RoundRequest(loop, req, messages, i);
      CompleteRefines(env, Init(stack), inner, log, loops);
      var (reply, log1) := Complete(env, Init(stack), inner, log);
      var (streamed, log2) := CompleteStream(env, Init(stack), inner, log);
      if Gone(env, log2) {
        GoneEndsBoth(env, loop, messages, i, reply, streamed, log2);
        if log1 == log2 {
          GoneEndsBoth(env, loop, messages, i, reply, streamed, log1);
        } else {
          AfterExtends(env, stack, req, messages, i, reply, log1);
        }
      } else {
        AfterRefines(env, loop, messages, i, reply, streamed, log1, loops);
        var after := AfterReply(env, loop, messages, i, reply, log1);
        if after.Again? { RoundsRefine(env, stack, req, after.messages, i + 1, after.log, loops); }
      }
    }
  }

  /** A loop whose caller is gone at the end, and did not leave halfway through
      the chunks, sent nothing. */
  lemma {:induction false} GoneIsSilent(
    env: Env, stack: seq<Loop>, req: Request, messages: seq<Message>, i: nat, log: Log)
    requires stack != [] && i <= Last(stack).maxIterations
    ensures var (streamed, log1) := RoundsStream(env, stack, req, messages, i, log);
            streamed.Stream? && (Gone(env, log1) ==> log1.left || streamed == Stream([]))
    decreases |stack|, Last(stack).maxIterations - i
  {
    var loop := Last(stack);
    if i < loop.maxIterations && !Gone(env, log) {
      var (streamed, log1) := CompleteStream(env, Init(stack), RoundRequest(loop, req, messages, i), log);
      var after := AfterStream(env, loop, messages, i, streamed, log1);
      if after.Again? { GoneIsSilent(env, stack, req, after.messages, i + 1, after.log); }
    }
  }

  // ---- Callers that stay -----------------------------------------------

  ghost predicate NeverLeaves(env: Env) {
    forall log, k :: !env.leaves(log, k)
  }

  /** The caller is there from the start to the end. */
  ghost predicate Stays(env: Env) {
    NeverLeaves(env) && forall log :: !env.gone(log)
  }

  /** later adds to earlier, and is left only by a caller that leaves. */
  ghost predicate Follows(env: Env, earlier: Log, later: Log) {
    Extends(earlier, later) && (NeverLeaves(env) ==> later.left == earlier.left)
  }

  lemma {:induction false} NobodyLeaves(env: Env, log: Log, total: nat, k: nat)
    requires NeverLeaves(env) && k <= total
    ensures SentBefore(env, log, total, k) == total
    decreases total - k
  {
    if k < total { NobodyLeaves(env, log, total, k + 1); }
  }

  lemma EmittedFollows(env: Env, chunks: seq<Chunk<LoopError>>, log: Log)
    ensures Follows(env, log, Emitted(env, chunks, log).1)
    ensures Emitted(env, chunks, log).1.fetched == log.fetched
    ensures NeverLeaves(env) && !Gone(env, log) ==> Emitted(env, chunks, log) == (Stream(chunks), log)
  {
    if NeverLeaves(env) { NobodyLeaves(env, log, |chunks|, 0); }
  }

  lemma AfterStreamFollows(env: Env, loop: Loop, messages: seq<Message>, i: nat, streamed: Streamed, log: Log)
    ensures Follows(env, log, AfterStream(env, loop, messages, i, streamed, log).log)
  {
    if streamed.Refused? {
      EmittedFollows(env, [ErrorChunk(streamed.error)], log);
    } else {
      var calls := Assemble(Deltas(streamed.chunks));
      EmittedFollows(env, streamed.chunks, log);
      RunToolsStep(env, loop, calls, messages + [CallsMessage(calls)], log);
      var (ran, log1) := RunTools(env, loop, calls, messages + [CallsMessage(calls)], log);
      if ran.Err? { EmittedFollows(env, if ran.error.Rejected? then [ErrorChunk(ran.error)] else [], log1); }
    }
  }

  lemma {:induction false} CompleteStreamFollows(env: Env, stack: seq<Loop>, req: Request, log: Log)
    ensures Follows(env, log, CompleteStream(env, stack, req, log).1)
    decreases |stack|, if stack == [] then 0 else Last(stack).maxIterations + 1
  {
    if stack != [] {
      PrefetchStep(env, Last(stack), req.messages, log);
      var (block, log1) := Prefetch(env, Last(stack), req.messages, log);
      if block.Ok? { RoundsStreamFollows(env, stack, req, Inject(req.messages, block.value), 0, log1); }
    }
  }

  lemma {:induction false} RoundsStreamFollows(
    env: Env, stack: seq<Loop>, req: Request, messages: seq<Message>, i: nat, log: Log)
    requires stack != [] && i <= Last(stack).maxIterations
    ensures Follows(env, log, RoundsStream(env, stack, req, messages, i, log).1)
    decreases |stack|, Last(stack).maxIterations - i
  {
    var loop := Last(stack);
    if i == loop.maxIterations {
      EmittedFollows(env, [ErrorChunk(TooManyIterations)], log);
    } else if !Gone(env, log) {
      var inner := RoundRequest(loop, req, messages, i);
      CompleteStreamFollows(env, Init(stack), inner, log);
      var (streamed, log1) := CompleteStream(env, Init(stack), inner, log);
      AfterStreamFollows(env, loop, messages, i, streamed, log1);
      var after := AfterStream(env, loop, messages, i, streamed, log1);
      if after.Again? { RoundsStreamFollows(env, stack, req, after.messages, i + 1, after.log); }
    }
  }

  /** For a caller that does not leave while chunks are sent, both forms make the
      same requests, run the same tools and leave the same log; and tell it the
      same, if it is still there. */
  lemma StreamEqualsPlain(env: Env, stack: seq<Loop>, req: Request, log: Log)
    requires BaseAgrees(env, stack) && NeverLeaves(env) && !log.left
    ensures var (reply, log1) := Complete(env, stack, req, log);
            var (streamed, log2) := CompleteStream(env, stack, req, log);
            log1 == log2 && (env.gone(log1) || Tells(reply, streamed, stack))
  {
    StreamRefinesPlain(env, stack, req, log);
    CompleteStreamFollows(env, stack, req, log);
  }

  // ---- Streams that fail after tool call pieces ------------------------

  /** The base model fails: at once in the plain form, after chunks in the other. */
  ghost predicate BaseFails(env: Env, chunks: seq<Chunk<LoopError>>, error: LoopError) {
    && chunks != [] && Last(chunks) == ErrorChunk(error)
    && forall log :: env.base(log) == Failure(error) && env.baseStream(log) == Stream(chunks)
  }

  ghost predicate Positive(stack: seq<Loop>) {
    forall loop :: loop in stack ==> loop.maxIterations > 0 && loop.maxCalls > 0
  }

  ghost predicate SomeResolves(stack: seq<Loop>, calls: seq<ToolCall>) {
    exists loop :: loop in stack && Resolves(loop, calls)
  }

  /** A stream without tool calls that ends on an error. */
  predicate OnlyFails(streamed: Streamed) {
    streamed.Refused? || (|streamed.chunks| == 1 && streamed.chunks[0].ErrorChunk?)
  }

  /** A loop of the stack prefetches for the request, and fails to. */
  ghost predicate PrefetchFails(env: Env, stack: seq<Loop>, req: Request, log: Log) {
    exists loop :: loop in stack && Prefetch(env, loop, req.messages, log).0.Err?
  }

  /** How the two forms stand when the base model fails: refused before it is
      asked, when the prefetch failed; the same, when no loop resolves what was
      streamed; and otherwise the streaming form has run tools. */
  ghost predicate FailsAlike(
    refused: bool, reply: Reply, log1: Log, streamed: Streamed, log2: Log, stack: seq<Loop>,
    chunks: seq<Chunk<LoopError>>)
  {
    && reply.Failure?
    && if refused then log2 == log1 && OnlyFails(streamed)
       else if SomeResolves(stack, Assemble(Deltas(chunks))) then |log2.fetched| > |log1.fetched|
       else log2 == log1 && streamed == Stream(chunks)
  }

  lemma OnlyErrorHasNoCalls(e: LoopError)
    ensures Assemble(Deltas([ErrorChunk(e)])) == []
  {
    var chunks: seq<Chunk<LoopError>> := [ErrorChunk(e)];
    assert Deltas(chunks) == Deltas(chunks[..0]) + [];
  }

  lemma {:induction false} StackFails(
    env: Env, stack: seq<Loop>, req: Request, log: Log, chunks: seq<Chunk<LoopError>>, error: LoopError)
    requires BaseFails(env, chunks, error) && Stays(env) && !log.left && Positive(stack)
    ensures var (reply, log1) := Complete(env, stack, req, log);
            var (streamed, log2) := CompleteStream(env, stack, req, log);
            FailsAlike(PrefetchFails(env, stack, req, log), reply, log1, streamed, log2, stack, chunks)
    decreases |stack|
  {
    if stack != [] {
      var loop := Last(stack);
      assert loop in stack && (forall l :: l in stack <==> l in Init(stack) || l == loop);
      PrefetchStep(env, loop, req.messages, log);
      var (block, log0) := Prefetch(env, loop, req.messages, log);
      if block.Ok? {
        var messages := Inject(req.messages, block.value);
        var inner := RoundRequest(loop, req, messages, 0);
        StackFails(env, Init(stack), inner, log0, chunks, error);
        PrefetchPasses(env, stack, req, log);
        FirstRoundFails(env, stack, req, messages, log0, chunks, PrefetchFails(env, stack, req, log));
      }
    }
  }

  /** The prefetch is that of the outermost loop to have one, and of the messages
      that came. */
  lemma PrefetchPasses(env: Env, stack: seq<Loop>, req: Request, log: Log)
    requires stack != [] && Prefetch(env, Last(stack), req.messages, log).0.Ok?
    ensures var (block, log0) := Prefetch(env, Last(stack), req.messages, log);
            var inner := RoundRequest(Last(stack), req, Inject(req.messages, block.value), 0);
            PrefetchFails(env, stack, req, log) <==> PrefetchFails(env, Init(stack), inner, log0)
  {
    var loop := Last(stack);
    assert forall l :: l in stack <==> l in Init(stack) || l == loop;
    PrefetchStep(env, loop, req.messages, log);
  }

  /** From the failure of the stack below to that of the loop above it. */
  lemma FirstRoundFails(
    env: Env, stack: seq<Loop>, req: Request, messages: seq<Message>, log: Log, chunks: seq<Chunk<LoopError>>,
    refused: bool)
    requires stack != [] && Positive(stack) && Stays(env) && !log.left
    requires var inner := RoundRequest(Last(stack), req, messages, 0);
             var (reply, log1) := Complete(env, Init(stack), inner, log);
             var (streamed, log2) := CompleteStream(env, Init(stack), inner, log);
             FailsAlike(refused, reply, log1, streamed, log2, Init(stack), chunks)
    ensures var (reply, log1) := Rounds(env, stack, req, messages, 0, log);
            var (streamed, log2) := RoundsStream(env, stack, req, messages, 0, log);
            FailsAlike(refused, reply, log1, streamed, log2, stack, chunks)
  {
    var loop := Last(stack);
    assert loop in stack && (forall l :: l in stack <==> l in Init(stack) || l == loop);
    var inner := RoundRequest(loop, req, messages, 0);
    var (reply, log1) := Complete(env, Init(stack), inner, log);
    var (streamed, log2) := CompleteStream(env, Init(stack), inner, log);
    CompleteStreamFollows(env, Init(stack), inner, log);
    AfterStreamFollows(env, loop, messages, 0, streamed, log2);
    var after := AfterStream(env, loop, messages, 0, streamed, log2);
    if after.Again? { RoundsStreamFollows(env, stack, req, after.messages, 1, after.log); }
    if refused {
      OnlyFailsPasses(env, loop, messages, streamed, log2);
    } else if !SomeResolves(Init(stack), Assemble(Deltas(chunks))) {
      TurnFails(env, loop, messages, chunks, log2);
    }
  }

  lemma OnlyFailsPasses(env: Env, loop: Loop, messages: seq<Message>, streamed: Streamed, log: Log)
    requires OnlyFails(streamed) && Stays(env) && !log.left
    ensures var after := AfterStream(env, loop, messages, 0, streamed, log);
            after.Done? && OnlyFails(after.result) && after.log == log
  {
    var e := if streamed.Refused? then streamed.error else streamed.chunks[0].error;
    OnlyErrorHasNoCalls(e);
    EmittedFollows(env, [ErrorChunk(e)], log);
  }

  lemma TurnFails(env: Env, loop: Loop, messages: seq<Message>, chunks: seq<Chunk<LoopError>>, log: Log)
    requires Stays(env) && !log.left && loop.maxCalls > 0
    ensures var after := AfterStream(env, loop, messages, 0, Stream(chunks), log);
            if Resolves(loop, Assemble(Deltas(chunks))) then |after.log.fetched| > |log.fetched|
            else after == Done(Stream(chunks), log)
  {
    var calls := Assemble(Deltas(chunks));
    EmittedFollows(env, chunks, log);
    RunToolsStep(env, loop, calls, messages + [CallsMessage(calls)], log);
    var (ran, log1) := RunTools(env, loop, calls, messages + [CallsMessage(calls)], log);
    if ran.Err? { EmittedFollows(env, if ran.error.Rejected? then [ErrorChunk(ran.error)] else [], log1); }
  }

  /** When the base model fails, in a stream after some chunks, the plain form of
      any stack fails having run no tool of a turn. The streaming form of a caller
      that stays does the same exactly when the prefetch of a loop fails, or no loop
      of the stack knows all the calls whose pieces were streamed. */
  lemma FailingStreamRunsToolsIff(
    env: Env, stack: seq<Loop>, req: Request, log: Log, chunks: seq<Chunk<LoopError>>, error: LoopError)
    requires BaseFails(env, chunks, error) && Stays(env) && !log.left && Positive(stack)
    ensures var (reply, log1) := Complete(env, stack, req, log);
            var log2 := CompleteStream(env, stack, req, log).1;
            && reply.Failure?
            && (log2.fetched == log1.fetched <==>
                PrefetchFails(env, stack, req, log) || NoLoopKnows(stack, Assemble(Deltas(chunks))))
  {
    NoneResolves(stack, Assemble(Deltas(chunks)));
    StackFails(env, stack, req, log, chunks, error);
  }

  lemma {:induction false} NoPrefetchNoFetch(env: Env, stack: seq<Loop>, req: Request, log: Log)
    requires (forall l :: env.base(l).Failure?) && (log.claimed || forall loop :: loop in stack ==> !loop.prefetches)
    requires Positive(stack) && (forall l :: !env.gone(l)) && !log.left
    ensures var (reply, log1) := Complete(env, stack, req, log);
            reply.Failure? && log1.fetched == log.fetched && |log1.requests| == |log.requests| + 1
    decreases |stack|
  {
    if stack != [] {
      assert Last(stack) in stack;
      assert forall l :: l in Init(stack) ==> l in stack;
      NoPrefetchNoFetch(env, Init(stack), RoundRequest(Last(stack), req, req.messages, 0), log);
    }
  }

  /** There are such stacks: one loop, one tool, whose call comes in one piece
      before the failure, runs it in the streaming form only. */
  lemma SomeFailingStreamRunsTools(name: string, run: (Log, ToolCall) -> string, req: Request)
    returns (env: Env, stack: seq<Loop>)
    ensures var (reply, log1) := Complete(env, stack, req, NoLog);
            && reply.Failure? && log1.fetched == []
            && CompleteStream(env, stack, req, NoLog).1.fetched != []
  {
    var error := Upstream("unavailable");
    var piece := Delta(0, "1", name, "{}");
    var chunks: seq<Chunk<LoopError>> := [Content("", [piece]), ErrorChunk(error)];
    env := Env(log => Failure(error), log => Stream(chunks), [], [], [], text => true, log => false, (log, k) => false);
    stack := [NewLoop([name], run, 0, 0, false)];
    OnePiece(piece, chunks);
    assert stack[0] in stack && Resolves(stack[0], Assemble(Deltas(chunks)));
    FailingStreamRunsToolsIff(env, stack, req, NoLog, chunks, error);
    NoPrefetchNoFetch(env, stack, req, NoLog);
  }

  lemma OnePiece(piece: Delta, chunks: seq<Chunk<LoopError>>)
    requires |chunks| == 2 && chunks[0] == Content("", [piece]) && chunks[1].ErrorChunk?
    ensures Assemble(Deltas(chunks)) == [ToolCall(piece.id, piece.name, piece.args)]
  {
    assert chunks[..1][..0] == [];
    assert Deltas(chunks[..1]) == [] + [piece];
    assert Deltas(chunks) == [piece] + [] == [piece];
    AssembleOne(piece);
  }

  lemma AssembleOne(piece: Delta)
    ensures Assemble([piece]) == [ToolCall(piece.id, piece.name, piece.args)]
  {
    assert [] + [piece] == [piece];
    IndicesStep([], piece);
    JoinedStep([], piece);
    assert "" + piece.args == piece.args;
    assert Assemble([piece]) == [Joined(PiecesOf([piece], piece.index))];
  }
}
