/** Tool loops stacked on a model: each resolves the tool calls it knows before
    its caller sees the turn (internal/pipeline/tool_loop_client.go,
    internal/pipeline/conversation.go:323-437, internal/pipeline/tool_inspector.go). */
module ToolLoop {
  import opened Prelude
  import opened StreamTurn

  const DefaultMaxIterations: nat := 8
  const DefaultMaxConsecutiveToolCalls: nat := 2

  datatype Role = System | User | Assistant | ToolCalls | ToolResult

  /** callId is set on tool results, calls on tool calls messages. */
  datatype Message = Message(
    role: Role, content: string, attachments: seq<string>, calls: seq<ToolCall>, callId: string)

  datatype Choice = ChoiceNone | ChoiceAuto | ChoiceOther(name: string)

  datatype Request = Request(messages: seq<Message>, tools: seq<string>, choice: Choice)

  datatype Turn = Turn(text: string, calls: seq<ToolCall>)

  datatype LoopError = Rejected(reason: string) | TooManyIterations | Cancelled | Upstream(text: string)

  datatype Reply = Answer(turn: Turn) | Failure(error: LoopError)

  /** A streaming call fails before any chunk, or gives its chunks. */
  datatype Streamed = Refused(error: LoopError) | Stream(chunks: seq<Chunk<LoopError>>)

  /** What one execution did: the requests the base model received, the texts
      fetched for it, whether the prefetch was claimed and what it injected, and
      whether the caller left while chunks were being sent. */
  datatype Log = Log(requests: seq<Request>, fetched: seq<Fetched>, claimed: bool, block: string, left: bool)

  const NoLog := Log([], [], false, "", false)

  /** A text fetched by the gateway, under the name it is inspected by; the call
      that asked for it when the model did. */
  datatype Fetched = Fetched(name: string, content: string, call: Option<ToolCall>)

  datatype Verdict = Pass | Block(reason: string) | Broken

  datatype Value = Value(title: string, content: string)

  /** The arguments of a prefetched call, mapped from the conversation. */
  datatype Arguments = Mapped(json: string) | Unmapped(why: string) | NotAnObject(error: string)

  datatype ConversationTool = ConversationTool(
    name: string,
    title: string,
    arguments: seq<Message> -> Arguments,
    call: (Log, string) -> string,
    wrap: string -> string)

  /** Everything the loops share: the base model in both forms, the inspectors,
      what is prefetched, whether the caller is gone by now, and whether it leaves
      once a number of chunks of a turn are sent. */
  datatype Env = Env(
    base: Log -> Reply,
    baseStream: Log -> Streamed,
    inspectors: seq<(string, string) -> Verdict>,
    values: seq<Value>,
    prefetched: seq<ConversationTool>,
    blank: string -> bool,
    gone: Log -> bool,
    leaves: (Log, nat) -> bool)

  /** The context of the execution is done. */
  predicate Gone(env: Env, log: Log) {
    log.left || env.gone(log)
  }

  /** A loop and its own tools: run gives a call's result, failures included. */
  datatype Loop = Loop(
    tools: seq<string>, run: (Log, ToolCall) -> string, maxIterations: nat, maxCalls: nat, prefetches: bool)

  /** Bounds that are not positive take their default. */
  function NewLoop(
    tools: seq<string>, run: (Log, ToolCall) -> string, maxIterations: int, maxCalls: int, prefetches: bool)
    : (loop: Loop)
    ensures loop.maxIterations > 0 && loop.maxCalls > 0
    ensures maxIterations > 0 ==> loop.maxIterations == maxIterations
    ensures maxCalls > 0 ==> loop.maxCalls == maxCalls
    ensures loop.tools == tools && loop.run == run && loop.prefetches == prefetches
  {
    Loop(tools, run,
         if maxIterations <= 0 then DefaultMaxIterations else maxIterations,
         if maxCalls <= 0 then DefaultMaxConsecutiveToolCalls else maxCalls,
         prefetches)
  }

  function Resolves(loop: Loop, calls: seq<ToolCall>): bool {
    calls != [] && forall c :: c in calls ==> c.name in loop.tools
  }

  /** The request of round i. */
  function RoundRequest(loop: Loop, req: Request, messages: seq<Message>, i: nat): Request {
    var tools := req.tools + loop.tools;
    Request(messages, tools,
            if i >= loop.maxCalls then ChoiceNone
            else if tools == [] || req.choice != ChoiceNone then req.choice
            else ChoiceAuto)
  }

  // ---- Inspection ------------------------------------------------------

  /** The first block, inspectors that fail being skipped. */
  function FirstBlock(inspectors: seq<(string, string) -> Verdict>, name: string, content: string): Option<string> {
    if inspectors == [] then None
    else
      var v := inspectors[0](name, content);
      if v.Block? then Some(v.reason) else FirstBlock(inspectors[1..], name, content)
  }

  function Inspect(env: Env, name: string, content: string): Option<string> {
    if content == "" then None else FirstBlock(env.inspectors, name, content)
  }

  // ---- Tool calls of a round -------------------------------------------

  function CallsMessage(calls: seq<ToolCall>): Message {
    Message(ToolCalls, "", [], calls, "")
  }

  function ResultMessage(call: ToolCall, content: string): Message {
    Message(ToolResult, content, [], [], call.id)
  }

  function Recorded(log: Log, f: Fetched): Log {
    log.(fetched := log.fetched + [f])
  }

  /** Runs the calls in order, appending a result for each, until the caller is
      gone or a result is blocked. */
  function RunTools(
    env: Env, loop: Loop, calls: seq<ToolCall>, messages: seq<Message>, log: Log)
    : (Result<seq<Message>, LoopError>, Log)
  {
    if calls == [] then (Ok(messages), log)
    else if Gone(env, log) then (Err(Cancelled), log)
    else
      var content := loop.run(log, calls[0]);
      var log1 := Recorded(log, Fetched(calls[0].name, content, Some(calls[0])));
      match Inspect(env, calls[0].name, content)
      case Some(reason) => (Err(Rejected(reason)), log1)
      case None => RunTools(env, loop, calls[1..], messages + [ResultMessage(calls[0], content)], log1)
  }

  // ---- The prefetched block --------------------------------------------

  function Titled(env: Env, title: string, content: string): string {
    if env.blank(title) then content else title + "\n" + content
  }

  /** The values nodes resolved, each inspected with its label. */
  function ValueBlocks(
    env: Env, values: seq<Value>, blocks: seq<string>, log: Log): (Result<seq<string>, LoopError>, Log)
  {
    if values == [] then (Ok(blocks), log)
    else if values[0].content == "" then ValueBlocks(env, values[1..], blocks, log)
    else
      var block := Titled(env, values[0].title, values[0].content);
      var log1 := Recorded(log, Fetched(values[0].title, block, None));
      match Inspect(env, values[0].title, block)
      case Some(reason) => (Err(Rejected(reason)), log1)
      case None => ValueBlocks(env, values[1..], blocks + [block], log1)
  }

  /** One conversation tool: its block, empty when it has nothing to inject. */
  function ToolBlock(
    env: Env, tool: ConversationTool, messages: seq<Message>, log: Log): (Result<string, LoopError>, Log)
  {
    match tool.arguments(messages)
    case Unmapped(why) => (Ok(Titled(env, tool.title, why)), log)
    case NotAnObject(error) => (Err(Upstream(error)), log)
    case Mapped(json) =>
      var content := tool.call(log, json);
      var log1 := Recorded(log, Fetched(tool.name, content, None));
      match Inspect(env, tool.name, content)
      case Some(reason) => (Err(Rejected(reason)), log1)
      case None => (Ok(if content == "" then "" else Titled(env, tool.title, tool.wrap(content))), log1)
  }

  function ToolBlocks(env: Env, tools: seq<ConversationTool>, messages: seq<Message>, blocks: seq<string>, log: Log)
    : (Result<seq<string>, LoopError>, Log)
  {
    if tools == [] then (Ok(blocks), log)
    else
      var (block, log1) := ToolBlock(env, tools[0], messages, log);
      if block.Err? then (Err(block.error), log1)
      else ToolBlocks(env, tools[1..], messages, if block.value == "" then blocks else blocks + [block.value], log1)
  }

  function Join(blocks: seq<string>): string {
    if blocks == [] then ""
    else if |blocks| == 1 then blocks[0]
    else blocks[0] + "\n\n" + Join(blocks[1..])
  }

  /** Claims the prefetch of the execution and runs it, once. */
  function Prefetch(env: Env, loop: Loop, messages: seq<Message>, log: Log): (Result<string, LoopError>, Log)
  {
    if !loop.prefetches || log.claimed then (Ok(""), log)
    else
      var (values, log1) := ValueBlocks(env, env.values, [], log.(claimed := true));
      if values.Err? then (Err(values.error), log1)
      else
        var (blocks, log2) := ToolBlocks(env, env.prefetched, messages, values.value, log1);
        if blocks.Err? then (Err(blocks.error), log2)
        else (Ok(Join(blocks.value)), log2.(block := Join(blocks.value)))
  }

  /** Merged into a trailing user turn, attachments kept; else a turn of its own. */
  function Inject(messages: seq<Message>, block: string): seq<Message> {
    var n := |messages|;
    if block == "" then messages
    else if n > 0 && messages[n - 1].role == User then
      messages[n - 1 := messages[n - 1].(content := messages[n - 1].content + "\n\n" + block)]
    else messages + [Message(User, block, [], [], "")]
  }

  // ---- The loop, plain form --------------------------------------------

  function Init<T>(s: seq<T>): seq<T>
    requires s != []
  { s[..|s| - 1] }

  function Last<T>(s: seq<T>): T
    requires s != []
  { s[|s| - 1] }

  function Sent(log: Log, req: Request): Log {
    log.(requests := log.requests + [req])
  }

  /** Answers a request through the stack, its last loop being the outermost. */
  function Complete(env: Env, stack: seq<Loop>, req: Request, log: Log): (Reply, Log)
    decreases |stack|, if stack == [] then 0 else Last(stack).maxIterations + 1
  {
    if stack == [] then (env.base(Sent(log, req)), Sent(log, req))
    else
      var (block, log1) := Prefetch(env, Last(stack), req.messages, log);
      if block.Err? then (Failure(block.error), log1)
      else Rounds(env, stack, req, Inject(req.messages, block.value), 0, log1)
  }

  function Rounds(env: Env, stack: seq<Loop>, req: Request, messages: seq<Message>, i: nat, log: Log): (Reply, Log)
    requires stack != [] && i <= Last(stack).maxIterations
    decreases |stack|, Last(stack).maxIterations - i
  {
    var loop := Last(stack);
    if i == loop.maxIterations then (Failure(TooManyIterations), log)
    else if Gone(env, log) then (Failure(Cancelled), log)
    else
      var (reply, log1) := Complete(env, Init(stack), RoundRequest(loop, req, messages, i), log);
      match AfterReply(env, loop, messages, i, reply, log1)
      case Done(result, log2) => (result, log2)
      case Again(messages', log2) => Rounds(env, stack, req, messages', i + 1, log2)
  }

  /** A round ends the loop, or leaves a longer conversation to send. */
  datatype Step<R> = Done(result: R, log: Log) | Again(messages: seq<Message>, log: Log)

  function AfterReply(env: Env, loop: Loop, messages: seq<Message>, i: nat, reply: Reply, log: Log): Step<Reply> {
    if reply.Failure? || i >= loop.maxCalls || !Resolves(loop, reply.turn.calls) then Done(reply, log)
    else
      var calls := reply.turn.calls;
      var (ran, log1) := RunTools(env, loop, calls, messages + [CallsMessage(calls)], log);
      if ran.Err? then Done(Failure(ran.error), log1) else Again(ran.value, log1)
  }

  // ---- The loop, streaming form ----------------------------------------

  /** How many chunks, from k on, are sent before the caller leaves. */
  function SentBefore(env: Env, log: Log, total: nat, k: nat): nat
    decreases total - k
  {
    if k >= total || env.leaves(log, k) then k else SentBefore(env, log, total, k + 1)
  }

  /** Nothing is sent, errors included, to a caller that is gone; one that leaves
      on the way gets what was sent until then. */
  function Emitted(env: Env, chunks: seq<Chunk<LoopError>>, log: Log): (Streamed, Log) {
    var n := SentBefore(env, log, |chunks|, 0);
    if Gone(env, log) then (Stream([]), log)
    else if n < |chunks| then (Stream(chunks[..n]), log.(left := true))
    else (Stream(chunks), log)
  }

  function CompleteStream(env: Env, stack: seq<Loop>, req: Request, log: Log): (Streamed, Log)
    decreases |stack|, if stack == [] then 0 else Last(stack).maxIterations + 1
  {
    if stack == [] then (env.baseStream(Sent(log, req)), Sent(log, req))
    else
      var (block, log1) := Prefetch(env, Last(stack), req.messages, log);
      if block.Err? then (Refused(block.error), log1)
      else RoundsStream(env, stack, req, Inject(req.messages, block.value), 0, log1)
  }

  function RoundsStream(
    env: Env, stack: seq<Loop>, req: Request, messages: seq<Message>, i: nat, log: Log): (Streamed, Log)
    requires stack != [] && i <= Last(stack).maxIterations
    decreases |stack|, Last(stack).maxIterations - i
  {
    var loop := Last(stack);
    if i == loop.maxIterations then Emitted(env, [ErrorChunk(TooManyIterations)], log)
    else if Gone(env, log) then (Stream([]), log)
    else
      var (streamed, log1) := CompleteStream(env, Init(stack), RoundRequest(loop, req, messages, i), log);
      match AfterStream(env, loop, messages, i, streamed, log1)
      case Done(result, log2) => (result, log2)
      case Again(messages', log2) => RoundsStream(env, stack, req, messages', i + 1, log2)
  }

  function DoneWith(emitted: (Streamed, Log)): Step<Streamed> {
    Done(emitted.0, emitted.1)
  }

  function AfterStream(
    env: Env, loop: Loop, messages: seq<Message>, i: nat, streamed: Streamed, log: Log): Step<Streamed>
  {
    if streamed.Refused? then DoneWith(Emitted(env, [ErrorChunk(streamed.error)], log))
    else
      var calls := Assemble(Deltas(streamed.chunks));
      if i >= loop.maxCalls || !Resolves(loop, calls) then DoneWith(Emitted(env, streamed.chunks, log))
      else AfterCalls(env, loop, messages, calls, log)
  }

  /** The calls of a buffered turn are run; a rejection is all that is told. */
  function AfterCalls(env: Env, loop: Loop, messages: seq<Message>, calls: seq<ToolCall>, log: Log): Step<Streamed> {
    var (ran, log1) := RunTools(env, loop, calls, messages + [CallsMessage(calls)], log);
    if ran.Err? then DoneWith(Emitted(env, if ran.error.Rejected? then [ErrorChunk(ran.error)] else [], log1))
    else Again(ran.value, log1)
  }
}
