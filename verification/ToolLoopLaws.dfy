/** What holds of every run of a stack of tool loops. */
module ToolLoopLaws {
  import opened Prelude
  import opened StreamTurn
  import opened ToolLoop

  // ---- Bounds ----------------------------------------------------------

  function LoopBound(loop: Loop): nat {
    if loop.maxIterations <= loop.maxCalls then loop.maxIterations else loop.maxCalls + 1
  }

  /** The product of the bounds of the stack, as rounds of rounds. */
  function StackBound(stack: seq<Loop>): nat {
    if stack == [] then 1 else RoundsBound(LoopBound(Last(stack)), StackBound(Init(stack)))
  }

  lemma StackBoundIsProduct(stack: seq<Loop>)
    ensures StackBound(stack) == if stack == [] then 1 else LoopBound(Last(stack)) * StackBound(Init(stack))
  {
    if stack != [] { RoundsBoundIsProduct(LoopBound(Last(stack)), StackBound(Init(stack))); }
  }

  /** n rounds of at most b requests each. */
  function RoundsBound(n: nat, b: nat): nat {
    if n == 0 then 0 else b + RoundsBound(n - 1, b)
  }

  lemma {:induction false} RoundsBoundIsProduct(n: nat, b: nat)
    ensures RoundsBound(n, b) == n * b
  {
    if n > 0 {
      RoundsBoundIsProduct(n - 1, b);
      assert n * b == (n - 1) * b + b;
    }
  }

  /** A stack of loops sends the base model at most that many requests. */
  lemma {:induction false} RequestsAreBounded(env: Env, stack: seq<Loop>, req: Request, log: Log)
    ensures |Complete(env, stack, req, log).1.requests| <= |log.requests| + StackBound(stack)
    decreases |stack|, if stack == [] then 0 else Last(stack).maxIterations + 1
  {
    if stack != [] {
      var (block, log1) := Prefetch(env, Last(stack), req.messages, log);
      PrefetchStep(env, Last(stack), req.messages, log);
      if block.Ok? {
        RoundsAreBounded(env, stack, req, Inject(req.messages, block.value), 0, log1);
      }
    }
  }

  lemma {:induction false} RoundsAreBounded(
    env: Env, stack: seq<Loop>, req: Request, messages: seq<Message>, i: nat, log: Log)
    requires stack != [] && i <= Last(stack).maxIterations && i <= Last(stack).maxCalls
    ensures |Rounds(env, stack, req, messages, i, log).1.requests|
            <= |log.requests| + RoundsBound(LoopBound(Last(stack)) - i, StackBound(Init(stack)))
    decreases |stack|, Last(stack).maxIterations - i
  {
    var loop := Last(stack);
    if i < loop.maxIterations && !Gone(env, log) {
      var inner := RoundRequest(loop, req, messages, i);
      RequestsAreBounded(env, Init(stack), inner, log);
      var (reply, log1) := Complete(env, Init(stack), inner, log);
      AfterReplyStep(env, loop, messages, i, reply, log1);
      var after := AfterReply(env, loop, messages, i, reply, log1);
      if after.Again? { RoundsAreBounded(env, stack, req, after.messages, i + 1, after.log); }
    }
  }

  /** The iteration limit is met only under a loop it does not exceed the call
      limit of. */
  lemma {:induction false} TooManyNeedsTightLimit(env: Env, stack: seq<Loop>, req: Request, log: Log)
    requires forall l :: env.base(l) != Failure(TooManyIterations)
    ensures Complete(env, stack, req, log).0 == Failure(TooManyIterations)
            ==> exists loop :: loop in stack && loop.maxIterations <= loop.maxCalls
    decreases |stack|, if stack == [] then 0 else Last(stack).maxIterations + 1
  {
    if stack != [] {
      var (block, log1) := Prefetch(env, Last(stack), req.messages, log);
      PrefetchStep(env, Last(stack), req.messages, log);
      if block.Ok? {
        RoundsNeedTightLimit(env, stack, req, Inject(req.messages, block.value), 0, log1);
      }
    }
  }

  lemma {:induction false} RoundsNeedTightLimit(
    env: Env, stack: seq<Loop>, req: Request, messages: seq<Message>, i: nat, log: Log)
    requires forall l :: env.base(l) != Failure(TooManyIterations)
    requires stack != [] && i <= Last(stack).maxIterations && i <= Last(stack).maxCalls
    ensures Rounds(env, stack, req, messages, i, log).0 == Failure(TooManyIterations)
            ==> exists loop :: loop in stack && loop.maxIterations <= loop.maxCalls
    decreases |stack|, Last(stack).maxIterations - i
  {
    var loop := Last(stack);
    assert loop in stack;
    if i < loop.maxIterations && !Gone(env, log) {
      var inner := RoundRequest(loop, req, messages, i);
      TooManyNeedsTightLimit(env, Init(stack), inner, log);
      var (reply, log1) := Complete(env, Init(stack), inner, log);
      AfterReplyStep(env, loop, messages, i, reply, log1);
      var after := AfterReply(env, loop, messages, i, reply, log1);
      if after.Again? { RoundsNeedTightLimit(env, stack, req, after.messages, i + 1, after.log); }
    }
  }

  // ---- What a step appends ---------------------------------------------

  /** later only adds to earlier, and keeps a claimed prefetch. */
  ghost predicate Extends(earlier: Log, later: Log) {
    && earlier.requests <= later.requests
    && earlier.fetched <= later.fetched
    && (earlier.claimed ==> later.claimed && later.block == earlier.block)
  }

  /** No inspector that answered blocked the text; empty texts are not shown to
      them. */
  ghost predicate Cleared(env: Env, f: Fetched) {
    f.content == "" || forall k :: 0 <= k < |env.inspectors| ==> !env.inspectors[k](f.name, f.content).Block?
  }

  lemma {:induction false} FirstBlockNoneIff(
    inspectors: seq<(string, string) -> Verdict>, name: string, content: string)
    ensures FirstBlock(inspectors, name, content) == None
            <==> forall k :: 0 <= k < |inspectors| ==> !inspectors[k](name, content).Block?
  {
    if inspectors != [] {
      FirstBlockNoneIff(inspectors[1..], name, content);
      forall k | 0 < k < |inspectors| ensures inspectors[k] == inspectors[1..][k - 1] {
      }
    }
  }

  /** A text is blocked for the reason of the first inspector that blocks it. */
  lemma {:induction false} FirstBlockSomeIff(
    inspectors: seq<(string, string) -> Verdict>, name: string, content: string, reason: string)
    ensures FirstBlock(inspectors, name, content) == Some(reason) <==>
            exists k :: 0 <= k < |inspectors| && BlocksFirst(inspectors, name, content, k, reason)
  {
    if inspectors != [] {
      var rest := inspectors[1..];
      FirstBlockSomeIff(rest, name, content, reason);
      if inspectors[0](name, content).Block? {
        assert inspectors[0](name, content) == Block(reason) ==> BlocksFirst(inspectors, name, content, 0, reason);
      } else {
        forall k | 0 <= k < |rest| && BlocksFirst(rest, name, content, k, reason)
          ensures BlocksFirst(inspectors, name, content, k + 1, reason)
        {
          forall j | 0 <= j < k + 1 ensures !inspectors[j](name, content).Block? {
            if j > 0 { assert inspectors[j] == rest[j - 1]; }
          }
        }
        forall k | 0 <= k < |inspectors| && BlocksFirst(inspectors, name, content, k, reason)
          ensures k > 0 && BlocksFirst(rest, name, content, k - 1, reason)
        {
          forall j | 0 <= j < k - 1 ensures !rest[j](name, content).Block? { assert rest[j] == inspectors[j + 1]; }
        }
      }
    }
  }

  ghost predicate BlocksFirst(
    inspectors: seq<(string, string) -> Verdict>, name: string, content: string, k: nat, reason: string)
    requires k < |inspectors|
  {
    && inspectors[k](name, content) == Block(reason)
    && forall j :: 0 <= j < k ==> !inspectors[j](name, content).Block?
  }

  ghost predicate AllCleared(env: Env, fetched: seq<Fetched>) {
    forall f :: f in fetched ==> Cleared(env, f)
  }

  /** What was fetched after a step that failed with error, or did not. */
  ghost predicate Policed(env: Env, fetched: seq<Fetched>, error: Option<LoopError>) {
    if error.Some? && error.value.Rejected? then
      && fetched != []
      && AllCleared(env, Init(fetched))
      && Inspect(env, Last(fetched).name, Last(fetched).content) == Some(error.value.reason)
    else AllCleared(env, fetched)
  }

  function ErrorOf<T>(r: Result<T, LoopError>): Option<LoopError> {
    if r.Ok? then None else Some(r.error)
  }

  /** A step of the gateway itself: it sends nothing to the model, and stops at
      the first text an inspector blocks. */
  ghost predicate GatewayStep(env: Env, before: Log, after: Log, error: Option<LoopError>) {
    && Extends(before, after)
    && after.requests == before.requests && after.left == before.left
    && (AllCleared(env, before.fetched) ==> Policed(env, after.fetched, error))
    && error != Some(TooManyIterations)
  }

  lemma GatewayStepTrans(env: Env, a: Log, b: Log, c: Log, error: Option<LoopError>)
    requires GatewayStep(env, a, b, None) && GatewayStep(env, b, c, error)
    ensures GatewayStep(env, a, c, error)
  {
  }

  lemma RecordedSteps(env: Env, log: Log, f: Fetched)
    ensures match Inspect(env, f.name, f.content)
            case None => Cleared(env, f) && GatewayStep(env, log, Recorded(log, f), None)
            case Some(reason) => GatewayStep(env, log, Recorded(log, f), Some(Rejected(reason)))
  {
    FirstBlockNoneIff(env.inspectors, f.name, f.content);
    assert Init(Recorded(log, f).fetched) == log.fetched;
  }

  // ---- The prefetch ----------------------------------------------------

  lemma {:induction false} ValueBlocksStep(env: Env, values: seq<Value>, blocks: seq<string>, log: Log)
    ensures var (r, log1) := ValueBlocks(env, values, blocks, log);
            GatewayStep(env, log, log1, ErrorOf(r)) && log1.claimed == log.claimed
  {
    if values != [] && values[0].content == "" {
      ValueBlocksStep(env, values[1..], blocks, log);
    } else if values != [] {
      var block := Titled(env, values[0].title, values[0].content);
      var f := Fetched(values[0].title, block, None);
      RecordedSteps(env, log, f);
      if Inspect(env, f.name, block) == None {
        var (r, log2) := ValueBlocks(env, values[1..], blocks + [block], Recorded(log, f));
        ValueBlocksStep(env, values[1..], blocks + [block], Recorded(log, f));
        GatewayStepTrans(env, log, Recorded(log, f), log2, ErrorOf(r));
      }
    }
  }

  lemma ToolBlockStep(env: Env, tool: ConversationTool, messages: seq<Message>, log: Log)
    ensures var (r, log1) := ToolBlock(env, tool, messages, log);
            GatewayStep(env, log, log1, ErrorOf(r)) && log1.claimed == log.claimed
  {
    var args := tool.arguments(messages);
    if args.Mapped? {
      RecordedSteps(env, log, Fetched(tool.name, tool.call(log, args.json), None));
    }
  }

  lemma {:induction false} ToolBlocksStep(
    env: Env, tools: seq<ConversationTool>, messages: seq<Message>, blocks: seq<string>, log: Log)
    ensures var (r, log1) := ToolBlocks(env, tools, messages, blocks, log);
            GatewayStep(env, log, log1, ErrorOf(r)) && log1.claimed == log.claimed
  {
    if tools != [] {
      ToolBlockStep(env, tools[0], messages, log);
      var (block, log1) := ToolBlock(env, tools[0], messages, log);
      if block.Ok? {
        var blocks' := if block.value == "" then blocks else blocks + [block.value];
        var (r, log2) := ToolBlocks(env, tools[1..], messages, blocks', log1);
        ToolBlocksStep(env, tools[1..], messages, blocks', log1);
        GatewayStepTrans(env, log, log1, log2, ErrorOf(r));
      }
    }
  }

  /** The prefetch is claimed once, and its block is the one on record. */
  lemma PrefetchStep(env: Env, loop: Loop, messages: seq<Message>, log: Log)
    ensures var (block, log1) := Prefetch(env, loop, messages, log);
            && GatewayStep(env, log, log1, ErrorOf(block))
            && log1.claimed == (log.claimed || loop.prefetches)
            && (block.Ok? && (!loop.prefetches || log.claimed) ==> block.value == "")
            && (block.Ok? && loop.prefetches && !log.claimed ==> block.value == log1.block)
  {
    if loop.prefetches && !log.claimed {
      var log0 := log.(claimed := true);
      var (values, log1) := ValueBlocks(env, env.values, [], log0);
      ValueBlocksStep(env, env.values, [], log0);
      if values.Ok? {
        var (blocks, log2) := ToolBlocks(env, env.prefetched, messages, values.value, log1);
        ToolBlocksStep(env, env.prefetched, messages, values.value, log1);
        GatewayStepTrans(env, log0, log1, log2, ErrorOf(blocks));
      }
    }
  }

  // ---- Rounds ----------------------------------------------------------

  /** The calls a loop ran, and what it got for them. */
  datatype Round = Round(loop: Loop, calls: seq<ToolCall>, contents: seq<string>)

  /** One tool calls message, then one result per call in order. */
  function RoundMessages(r: Round): seq<Message>
    requires |r.calls| == |r.contents|
  {
    [CallsMessage(r.calls)] + Results(r.calls, r.contents)
  }

  function Results(calls: seq<ToolCall>, contents: seq<string>): seq<Message>
    requires |calls| == |contents|
  {
    seq(|calls|, k requires 0 <= k < |calls| => ResultMessage(calls[k], contents[k]))
  }

  /** A round is told as a message that holds the calls, then for each call, in
      order, a message that holds its result and answers to its ID. */
  lemma RoundIsTold(r: Round)
    requires |r.calls| == |r.contents|
    ensures var told := RoundMessages(r);
            && |told| == |r.calls| + 1 && told[0].role == ToolCalls && told[0].calls == r.calls
            && forall k :: 0 <= k < |r.calls| ==> Answers(told[k + 1], r.calls[k], r.contents[k])
  {
    var told, results := RoundMessages(r), Results(r.calls, r.contents);
    assert told[0] == CallsMessage(r.calls);
    forall k | 0 <= k < |r.calls| ensures Answers(told[k + 1], r.calls[k], r.contents[k]) {
      assert told[k + 1] == results[k];
    }
  }

  /** The message tells the result of the call. */
  predicate Answers(m: Message, call: ToolCall, content: string) {
    m.role == ToolResult && m.content == content && m.callId == call.id
  }

  /** All the calls are the loop's own, and every result is what the loop got for
      its call and no inspector blocked. */
  ghost predicate Complied(env: Env, log: Log, r: Round) {
    && |r.calls| == |r.contents| > 0 && AllOwn(r.loop, r.calls)
    && AllObtained(env, log, r.loop, r.calls, r.contents)
  }

  predicate AllOwn(loop: Loop, calls: seq<ToolCall>) {
    forall k :: 0 <= k < |calls| ==> calls[k].name in loop.tools
  }

  lemma ResolvesOwn(loop: Loop, calls: seq<ToolCall>)
    ensures Resolves(loop, calls) <==> calls != [] && AllOwn(loop, calls)
  {
    if AllOwn(loop, calls) {
      forall c | c in calls ensures c.name in loop.tools { var k :| 0 <= k < |calls| && calls[k] == c; }
    }
  }

  ghost predicate AllObtained(env: Env, log: Log, loop: Loop, calls: seq<ToolCall>, contents: seq<string>)
    requires |calls| == |contents|
  {
    forall k :: 0 <= k < |calls| ==> Obtained(env, log, loop, calls[k], contents[k])
  }

  ghost predicate Obtained(env: Env, log: Log, loop: Loop, call: ToolCall, content: string) {
    Cleared(env, Fetched(call.name, content, Some(call))) && exists l :: GotAt(l, log, loop, call, content)
  }

  /** The execution standing at l, the loop ran the call and recorded the result. */
  ghost predicate GotAt(l: Log, log: Log, loop: Loop, call: ToolCall, content: string) {
    && Extends(l, log) && |l.fetched| < |log.fetched|
    && content == loop.run(l, call) && log.fetched[|l.fetched|] == Fetched(call.name, content, Some(call))
  }

  lemma ObtainedLater(env: Env, log: Log, later: Log, loop: Loop, call: ToolCall, content: string)
    requires Obtained(env, log, loop, call, content) && Extends(log, later)
    ensures Obtained(env, later, loop, call, content)
  {
    var l :| GotAt(l, log, loop, call, content);
    assert GotAt(l, later, loop, call, content);
  }

  lemma {:induction false} RunToolsStep(env: Env, loop: Loop, calls: seq<ToolCall>, messages: seq<Message>, log: Log)
    ensures var (ran, log1) := RunTools(env, loop, calls, messages, log);
            && GatewayStep(env, log, log1, ErrorOf(ran)) && log1.claimed == log.claimed
            && (calls != [] && !Gone(env, log) ==> |log1.fetched| > |log.fetched|)
  {
    if calls != [] && !Gone(env, log) {
      var content := loop.run(log, calls[0]);
      var f := Fetched(calls[0].name, content, Some(calls[0]));
      var messages' := messages + [ResultMessage(calls[0], content)];
      RecordedSteps(env, log, f);
      if Inspect(env, calls[0].name, content) == None {
        var (ran, log2) := RunTools(env, loop, calls[1..], messages', Recorded(log, f));
        RunToolsStep(env, loop, calls[1..], messages', Recorded(log, f));
        GatewayStepTrans(env, log, Recorded(log, f), log2, ErrorOf(ran));
      }
    }
  }

  lemma {:induction false} RunToolsResults(env: Env, loop: Loop, calls: seq<ToolCall>, messages: seq<Message>, log: Log)
    returns (contents: seq<string>)
    requires RunTools(env, loop, calls, messages, log).0.Ok?
    ensures |contents| == |calls|
    ensures RunTools(env, loop, calls, messages, log).0.value == messages + Results(calls, contents)
    ensures AllObtained(env, RunTools(env, loop, calls, messages, log).1, loop, calls, contents)
  {
    contents := [];
    if calls != [] {
      var content := loop.run(log, calls[0]);
      var log1 := Recorded(log, Fetched(calls[0].name, content, Some(calls[0])));
      var rest := RunToolsResults(env, loop, calls[1..], messages + [ResultMessage(calls[0], content)], log1);
      contents := [content] + rest;
      assert Results(calls, contents) == [ResultMessage(calls[0], content)] + Results(calls[1..], rest);
      FirstObtained(env, loop, calls, messages, log);
      ObtainedCons(env, RunTools(env, loop, calls, messages, log).1, loop, calls, contents);
    }
  }

  lemma FirstObtained(env: Env, loop: Loop, calls: seq<ToolCall>, messages: seq<Message>, log: Log)
    requires calls != [] && RunTools(env, loop, calls, messages, log).0.Ok?
    ensures Obtained(env, RunTools(env, loop, calls, messages, log).1, loop, calls[0], loop.run(log, calls[0]))
  {
    var content := loop.run(log, calls[0]);
    var f := Fetched(calls[0].name, content, Some(calls[0]));
    RecordedSteps(env, log, f);
    RunToolsStep(env, loop, calls[1..], messages + [ResultMessage(calls[0], content)], Recorded(log, f));
    assert Recorded(log, f).fetched[|log.fetched|] == f;
    assert GotAt(log, RunTools(env, loop, calls, messages, log).1, loop, calls[0], content);
  }

  lemma ObtainedCons(env: Env, log: Log, loop: Loop, calls: seq<ToolCall>, contents: seq<string>)
    requires |calls| == |contents| > 0 && Obtained(env, log, loop, calls[0], contents[0])
    requires AllObtained(env, log, loop, calls[1..], contents[1..])
    ensures AllObtained(env, log, loop, calls, contents)
  {
    forall k | 0 <= k < |calls| ensures Obtained(env, log, loop, calls[k], contents[k]) {
      if k > 0 { assert Obtained(env, log, loop, calls[1..][k - 1], contents[1..][k - 1]); }
    }
  }

  /** What a round leaves to send: the conversation and one complied round. */
  lemma AfterReplyAgain(env: Env, loop: Loop, messages: seq<Message>, i: nat, reply: Reply, log: Log) returns (r: Round)
    requires AfterReply(env, loop, messages, i, reply, log).Again?
    ensures var after := AfterReply(env, loop, messages, i, reply, log);
            && r.loop == loop && Complied(env, after.log, r) && r.calls == reply.turn.calls
            && after.messages == messages + RoundMessages(r)
  {
    var calls := reply.turn.calls;
    ResolvesOwn(loop, calls);
    var contents := RunToolsResults(env, loop, calls, messages + [CallsMessage(calls)], log);
    r := Round(loop, calls, contents);
    assert messages + RoundMessages(r) == messages + [CallsMessage(calls)] + Results(calls, contents);
  }

  lemma AfterReplyStep(env: Env, loop: Loop, messages: seq<Message>, i: nat, reply: Reply, log: Log)
    ensures match AfterReply(env, loop, messages, i, reply, log)
            case Again(_, log1) =>
              reply.Answer? && i < loop.maxCalls && GatewayStep(env, log, log1, None) && log1.claimed == log.claimed
            case Done(result, log1) =>
              || (result == reply && log1 == log)
              || (reply.Answer? && result.Failure? && GatewayStep(env, log, log1, Some(result.error))
                  && log1.claimed == log.claimed)
  {
    if reply.Answer? && i < loop.maxCalls && Resolves(loop, reply.turn.calls) {
      var calls := reply.turn.calls;
      RunToolsStep(env, loop, calls, messages + [CallsMessage(calls)], log);
      var (ran, log1) := RunTools(env, loop, calls, messages + [CallsMessage(calls)], log);
      assert GatewayStep(env, log, log1, ErrorOf(ran));
      if ran.Ok? { assert ErrorOf(ran) == None; }
    }
  }

  // ---- The plain form only adds to the log -----------------------------

  lemma {:induction false} CompleteExtends(env: Env, stack: seq<Loop>, req: Request, log: Log)
    ensures Extends(log, Complete(env, stack, req, log).1)
    decreases |stack|, if stack == [] then 0 else Last(stack).maxIterations + 1
  {
    if stack != [] {
      PrefetchStep(env, Last(stack), req.messages, log);
      var (block, log1) := Prefetch(env, Last(stack), req.messages, log);
      if block.Ok? { RoundsExtend(env, stack, req, Inject(req.messages, block.value), 0, log1); }
    }
  }

  lemma {:induction false} RoundsExtend(
    env: Env, stack: seq<Loop>, req: Request, messages: seq<Message>, i: nat, log: Log)
    requires stack != [] && i <= Last(stack).maxIterations
    ensures Extends(log, Rounds(env, stack, req, messages, i, log).1)
    decreases |stack|, Last(stack).maxIterations - i
  {
    var loop := Last(stack);
    if i < loop.maxIterations && !Gone(env, log) {
      var inner := RoundRequest(loop, req, messages, i);
      CompleteExtends(env, Init(stack), inner, log);
      var (reply, log1) := Complete(env, Init(stack), inner, log);
      AfterExtends(env, stack, req, messages, i, reply, log1);
    }
  }

  /** What the plain form does after a turn. */
  function AfterTurn(
    env: Env, stack: seq<Loop>, req: Request, messages: seq<Message>, i: nat, reply: Reply, log: Log): (Reply, Log)
    requires stack != [] && i < Last(stack).maxIterations
  {
    match AfterReply(env, Last(stack), messages, i, reply, log)
    case Done(result, log1) => (result, log1)
    case Again(messages', log1) => Rounds(env, stack, req, messages', i + 1, log1)
  }

  lemma {:induction false} AfterExtends(
    env: Env, stack: seq<Loop>, req: Request, messages: seq<Message>, i: nat, reply: Reply, log: Log)
    requires stack != [] && i < Last(stack).maxIterations
    ensures Extends(log, AfterTurn(env, stack, req, messages, i, reply, log).1)
    decreases |stack|, Last(stack).maxIterations - i, 0
  {
    AfterReplyStep(env, Last(stack), messages, i, reply, log);
    var after := AfterReply(env, Last(stack), messages, i, reply, log);
    if after.Again? { RoundsExtend(env, stack, req, after.messages, i + 1, after.log); }
  }

  // ---- What a forced final answer comes to -----------------------------

  /** The tools of a stack, in the order they are offered. */
  function StackTools(stack: seq<Loop>): seq<string> {
    if stack == [] then [] else Last(stack).tools + StackTools(Init(stack))
  }

  /** The choice a request made to a stack reaches the model with. */
  function ChoiceBelow(choice: Choice, stack: seq<Loop>, tools: seq<string>): Choice {
    if choice != ChoiceNone || stack == [] || tools == [] then choice else ChoiceAuto
  }

  ghost predicate CallsLeft(stack: seq<Loop>) {
    forall loop :: loop in stack ==> loop.maxCalls > 0
  }

  /** The first request a stack sends for a request made to it. */
  ghost predicate FirstSent(log: Log, later: Log, req: Request, stack: seq<Loop>) {
    |later.requests| > |log.requests| ==>
      var first := later.requests[|log.requests|];
      && first.tools == req.tools + StackTools(stack)
      && first.choice == ChoiceBelow(req.choice, stack, first.tools)
  }

  lemma FirstSentLater(log: Log, log1: Log, later: Log, req: Request, stack: seq<Loop>)
    requires FirstSent(log, log1, req, stack) && |log1.requests| > |log.requests| && Extends(log1, later)
    ensures FirstSent(log, later, req, stack)
  {
    assert later.requests[|log.requests|] == log1.requests[|log.requests|];
  }

  lemma {:induction false} FirstRequest(env: Env, stack: seq<Loop>, req: Request, log: Log)
    requires CallsLeft(stack)
    ensures var (reply, log1) := Complete(env, stack, req, log);
            FirstSent(log, log1, req, stack) && (reply.Answer? ==> |log1.requests| > |log.requests|)
    decreases |stack|, if stack == [] then 0 else Last(stack).maxIterations + 1
  {
    if stack == [] {
      assert req.tools + StackTools(stack) == req.tools;
    } else {
      var (block, log1) := Prefetch(env, Last(stack), req.messages, log);
      PrefetchStep(env, Last(stack), req.messages, log);
      assert Last(stack) in stack;
      if block.Ok? {
        var messages := Inject(req.messages, block.value);
        RoundsFirstRequest(env, stack, req, messages, 0, log1);
        if Last(stack).maxIterations > 0 {
          FirstRoundPasses(stack, req, messages, log1, Rounds(env, stack, req, messages, 0, log1).1);
        }
      }
    }
  }

  /** Through the first round of a loop, a request reaches the stack below. */
  lemma FirstRoundPasses(stack: seq<Loop>, req: Request, messages: seq<Message>, log: Log, later: Log)
    requires stack != [] && Last(stack).maxCalls > 0
    requires FirstSent(log, later, RoundRequest(Last(stack), req, messages, 0), Init(stack))
    ensures FirstSent(log, later, req, stack)
  {
    var inner := RoundRequest(Last(stack), req, messages, 0);
    assert inner.tools + StackTools(Init(stack)) == req.tools + StackTools(stack);
  }

  lemma {:induction false} RoundsFirstRequest(
    env: Env, stack: seq<Loop>, req: Request, messages: seq<Message>, i: nat, log: Log)
    requires stack != [] && i <= Last(stack).maxIterations && CallsLeft(Init(stack))
    ensures var (reply, log1) := Rounds(env, stack, req, messages, i, log);
            && (i == Last(stack).maxIterations ==> |log1.requests| == |log.requests| && reply.Failure?)
            && FirstSent(log, log1, RoundRequest(Last(stack), req, messages, i), Init(stack))
            && (reply.Answer? ==> |log1.requests| > |log.requests|)
    decreases |stack|, Last(stack).maxIterations - i
  {
    var loop := Last(stack);
    if i < loop.maxIterations && !Gone(env, log) {
      var inner := RoundRequest(loop, req, messages, i);
      FirstRequest(env, Init(stack), inner, log);
      var (reply, log1) := Complete(env, Init(stack), inner, log);
      AfterReplyStep(env, loop, messages, i, reply, log1);
      AfterExtends(env, stack, req, messages, i, reply, log1);
      if reply.Answer? {
        FirstSentLater(log, log1, AfterTurn(env, stack, req, messages, i, reply, log1).1, inner, Init(stack));
      }
    }
  }

  /** Forcing a final answer, a loop reaches the model with its choice exactly
      when no loop is below it or no tools are offered: any loop below with calls
      left puts the choice back to auto. */
  lemma ForcedChoiceReachesModelIff(env: Env, stack: seq<Loop>, req: Request, messages: seq<Message>, i: nat, log: Log)
    requires stack != [] && Last(stack).maxCalls <= i < Last(stack).maxIterations && CallsLeft(Init(stack))
    requires |Rounds(env, stack, req, messages, i, log).1.requests| > |log.requests|
    ensures var first := Rounds(env, stack, req, messages, i, log).1.requests[|log.requests|];
            && first.tools == req.tools + StackTools(stack)
            && (first.choice == ChoiceNone <==> |stack| == 1 || first.tools == [])
  {
    RoundsFirstRequest(env, stack, req, messages, i, log);
    assert req.tools + Last(stack).tools + StackTools(Init(stack)) == req.tools + StackTools(stack);
  }

  /** There are such runs: over a loop of its own, a loop that may call its tool
      once asks for a final answer, and the model is asked to choose freely. */
  lemma SomeForcedChoiceIsLost(outer: string, inner: string, run: (Log, ToolCall) -> string, req: Request)
    returns (env: Env, stack: seq<Loop>, messages: seq<Message>, log2: Log)
    requires outer != inner
    ensures stack == [NewLoop([inner], run, 0, 0, false), NewLoop([outer], run, 0, 1, false)]
    ensures Complete(env, stack, req, NoLog) == Rounds(env, stack, req, messages, 1, log2) && |log2.requests| == 1
    ensures var log := Complete(env, stack, req, NoLog).1;
            |log.requests| == 2 && log.requests[1].tools != [] && log.requests[1].choice == ChoiceAuto
  {
    var call := ToolCall("1", outer, "{}");
    var turn := Turn("", [call]);
    env := Env((log: Log) => Answer(if |log.requests| == 1 then turn else Turn("done", [])), log => Stream([]),
               [], [], [], text => true, log => false, (log, k) => false);
    stack := [NewLoop([inner], run, 0, 0, false), NewLoop([outer], run, 0, 1, false)];
    var first := RoundRequest(stack[1], req, req.messages, 0);
    var log1 := InnermostAnswers(env, stack[0], first, NoLog);
    assert Init(stack) == [stack[0]];
    var after := AfterReply(env, stack[1], req.messages, 0, Answer(turn), log1);
    OneCallPasses(env, stack[1], call, req.messages + [CallsMessage([call])], log1);
    messages, log2 := after.messages, after.log;
    var log3 := InnermostAnswers(env, stack[0], RoundRequest(stack[1], req, messages, 1), log2);
    RoundsFirstRequest(env, stack, req, messages, 1, log2);
  }

  lemma OneCallPasses(env: Env, loop: Loop, call: ToolCall, messages: seq<Message>, log: Log)
    requires env.inspectors == [] && !Gone(env, log)
    ensures var (ran, log1) := RunTools(env, loop, [call], messages, log);
            ran.Ok? && log1.requests == log.requests && !log1.left
  {
    var content := loop.run(log, call);
    var log1 := Recorded(log, Fetched(call.name, content, Some(call)));
    assert Inspect(env, call.name, content) == None;
    assert RunTools(env, loop, [call][1..], messages + [ResultMessage(call, content)], log1).1 == log1;
  }

  /** A loop over the model passes on a turn without calls of its own. */
  lemma InnermostAnswers(env: Env, loop: Loop, req: Request, log: Log) returns (log1: Log)
    requires !loop.prefetches && loop.maxIterations > 0 && loop.maxCalls > 0 && !Gone(env, log)
    requires forall l :: env.base(l).Answer? && !Resolves(loop, env.base(l).turn.calls)
    ensures log1 == Sent(log, RoundRequest(loop, req, req.messages, 0))
    ensures Complete(env, [loop], req, log) == (env.base(log1), log1)
  {
    var inner := RoundRequest(loop, req, req.messages, 0);
    log1 := Sent(log, inner);
    assert Init([loop]) == [];
    assert Complete(env, [], inner, log) == (env.base(log1), log1);
  }
}
