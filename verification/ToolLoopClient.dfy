/** The tool loops as the gateway runs them: loops over the rounds, the calls
    and the inspectors, updating what one execution shares
    (internal/pipeline/tool_loop_client.go, internal/pipeline/conversation.go:118-124,
    323-361, internal/pipeline/tool_inspector.go:54-71). */
module ToolLoopClient {
  import opened Prelude
  import opened StreamTurn
  import opened ToolLoop

  /** What the loops of one execution share. */
  class Execution {
    var requests: seq<Request>
    var fetched: seq<Fetched>
    var claimed: bool
    var block: string
    var left: bool

    ghost function State(): Log
      reads this
    {
      Log(requests, fetched, claimed, block, left)
    }

    method Snapshot() returns (log: Log)
      ensures log == State()
    {
      log := Log(requests, fetched, claimed, block, left);
    }

    constructor ()
      ensures State() == NoLog
    {
      requests, fetched, claimed, block, left := [], [], false, "", false;
    }

    /** Claims the prefetch: true to its first caller only. */
    method TakeInjection() returns (first: bool)
      modifies this
      ensures first == !old(claimed)
      ensures State() == old(State()).(claimed := true)
    {
      first := !claimed;
      claimed := true;
    }

    method Record(f: Fetched)
      modifies this
      ensures State() == Recorded(old(State()), f)
    {
      fetched := fetched + [f];
    }
  }

  method InspectResult(env: Env, name: string, content: string) returns (blocked: Option<string>)
    ensures blocked == Inspect(env, name, content)
  {
    if content == "" { return None; }
    for k := 0 to |env.inspectors|
      invariant FirstBlock(env.inspectors, name, content) == FirstBlock(env.inspectors[k..], name, content)
    {
      var verdict := env.inspectors[k](name, content);
      if verdict.Block? { return Some(verdict.reason); }
      assert env.inspectors[k..][1..] == env.inspectors[k + 1..];
    }
    return None;
  }

  method RunCalls(env: Env, x: Execution, loop: Loop, calls: seq<ToolCall>, messages: seq<Message>)
    returns (ran: Result<seq<Message>, LoopError>)
    modifies x
    ensures (ran, x.State()) == RunTools(env, loop, calls, messages, old(x.State()))
  {
    var sofar := messages;
    for k := 0 to |calls|
      invariant RunTools(env, loop, calls, messages, old(x.State())) ==
          RunTools(env, loop, calls[k..], sofar, x.State())
    {
      assert calls[k..][0] == calls[k] && calls[k..][1..] == calls[k + 1..];
      var log := x.Snapshot();
      if Gone(env, log) { return Err(Cancelled); }
      var content := loop.run(log, calls[k]);
      x.Record(Fetched(calls[k].name, content, Some(calls[k])));
      var blocked := InspectResult(env, calls[k].name, content);
      if blocked.Some? { return Err(Rejected(blocked.value)); }
      sofar := sofar + [ResultMessage(calls[k], content)];
    }
    return Ok(sofar);
  }

  method ResolveValues(env: Env, x: Execution) returns (blocks: Result<seq<string>, LoopError>)
    modifies x
    ensures (blocks, x.State()) == ValueBlocks(env, env.values, [], old(x.State()))
  {
    var sofar := [];
    for k := 0 to |env.values|
      invariant ValueBlocks(env, env.values, [], old(x.State())) == ValueBlocks(env, env.values[k..], sofar, x.State())
    {
      var v := env.values[k];
      assert env.values[k..][0] == v && env.values[k..][1..] == env.values[k + 1..];
      if v.content != "" {
        var block := Titled(env, v.title, v.content);
        x.Record(Fetched(v.title, block, None));
        var blocked := InspectResult(env, v.title, block);
        if blocked.Some? { return Err(Rejected(blocked.value)); }
        sofar := sofar + [block];
      }
    }
    return Ok(sofar);
  }

  method RunConversationTool(env: Env, x: Execution, tool: ConversationTool, messages: seq<Message>)
    returns (block: Result<string, LoopError>)
    modifies x
    ensures (block, x.State()) == ToolBlock(env, tool, messages, old(x.State()))
  {
    match tool.arguments(messages) {
      case Unmapped(why) => return Ok(Titled(env, tool.title, why));
      case NotAnObject(error) => return Err(Upstream(error));
      case Mapped(json) =>
        var log := x.Snapshot();
        var content := tool.call(log, json);
        x.Record(Fetched(tool.name, content, None));
        var blocked := InspectResult(env, tool.name, content);
        if blocked.Some? { return Err(Rejected(blocked.value)); }
        if content == "" { return Ok(""); }
        return Ok(Titled(env, tool.title, tool.wrap(content)));
    }
  }

  method ResolveTools(env: Env, x: Execution, messages: seq<Message>, start: seq<string>)
    returns (blocks: Result<seq<string>, LoopError>)
    modifies x
    ensures (blocks, x.State()) == ToolBlocks(env, env.prefetched, messages, start, old(x.State()))
  {
    var sofar := start;
    for k := 0 to |env.prefetched|
      invariant ToolBlocks(env, env.prefetched, messages, start, old(x.State()))
             == ToolBlocks(env, env.prefetched[k..], messages, sofar, x.State())
    {
      assert env.prefetched[k..][0] == env.prefetched[k] && env.prefetched[k..][1..] == env.prefetched[k + 1..];
      var block := RunConversationTool(env, x, env.prefetched[k], messages);
      if block.Err? { return Err(block.error); }
      if block.value != "" { sofar := sofar + [block.value]; }
    }
    return Ok(sofar);
  }

  method PrefetchConversationTools(env: Env, x: Execution, loop: Loop, messages: seq<Message>)
    returns (block: Result<string, LoopError>)
    modifies x
    ensures (block, x.State()) == Prefetch(env, loop, messages, old(x.State()))
  {
    if !loop.prefetches { return Ok(""); }
    var first := x.TakeInjection();
    if !first { return Ok(""); }
    var values := ResolveValues(env, x);
    if values.Err? { return Err(values.error); }
    var blocks := ResolveTools(env, x, messages, values.value);
    if blocks.Err? { return Err(blocks.error); }
    x.block := Join(blocks.value);
    return Ok(x.block);
  }

  method ChatCompletion(env: Env, x: Execution, stack: seq<Loop>, req: Request) returns (reply: Reply)
    modifies x
    ensures (reply, x.State()) == Complete(env, stack, req, old(x.State()))
    decreases |stack|
  {
    if stack == [] {
      x.requests := x.requests + [req];
      var log := x.Snapshot();
      return env.base(log);
    }
    var loop := Last(stack);
    var block := PrefetchConversationTools(env, x, loop, req.messages);
    if block.Err? { return Failure(block.error); }
    var messages := Inject(req.messages, block.value);
    for i := 0 to loop.maxIterations
      invariant Rounds(env, stack, req, messages, i, x.State()) == Complete(env, stack, req, old(x.State()))
    {
      var log := x.Snapshot();
      if Gone(env, log) { return Failure(Cancelled); }
      reply := ChatCompletion(env, x, Init(stack), RoundRequest(loop, req, messages, i));
      if reply.Failure? || i >= loop.maxCalls || !Resolves(loop, reply.turn.calls) { return; }
      var calls := reply.turn.calls;
      var ran := RunCalls(env, x, loop, calls, messages + [CallsMessage(calls)]);
      if ran.Err? { return Failure(ran.error); }
      messages := ran.value;
    }
    return Failure(TooManyIterations);
  }

  /** Sends chunks one by one, looking each time whether the caller is there. */
  method Emit(env: Env, x: Execution, chunks: seq<Chunk<LoopError>>) returns (streamed: Streamed)
    modifies x
    ensures (streamed, x.State()) == Emitted(env, chunks, old(x.State()))
  {
    var log := x.Snapshot();
    if Gone(env, log) { return Stream([]); }
    var sent := [];
    for k := 0 to |chunks|
      invariant x.State() == old(x.State()) && sent == chunks[..k]
      invariant SentBefore(env, log, |chunks|, 0) == SentBefore(env, log, |chunks|, k)
    {
      if env.leaves(log, k) {
        x.left := true;
        return Stream(sent);
      }
      sent := sent + [chunks[k]];
    }
    assert sent == chunks;
    return Stream(sent);
  }

  method ChatCompletionStream(env: Env, x: Execution, stack: seq<Loop>, req: Request) returns (streamed: Streamed)
    modifies x
    ensures (streamed, x.State()) == CompleteStream(env, stack, req, old(x.State()))
    decreases |stack|
  {
    if stack == [] {
      x.requests := x.requests + [req];
      var log := x.Snapshot();
      return env.baseStream(log);
    }
    var loop := Last(stack);
    var block := PrefetchConversationTools(env, x, loop, req.messages);
    if block.Err? { return Refused(block.error); }
    var messages := Inject(req.messages, block.value);
    for i := 0 to loop.maxIterations
      invariant RoundsStream(env, stack, req, messages, i, x.State()) == CompleteStream(env, stack, req, old(x.State()))
    {
      var log := x.Snapshot();
      if Gone(env, log) { return Stream([]); }
      var source := ChatCompletionStream(env, x, Init(stack), RoundRequest(loop, req, messages, i));
      if source.Refused? {
        streamed := Emit(env, x, [ErrorChunk(source.error)]);
        return;
      }
      var chunks, calls := BufferTurn(source.chunks);
      if i >= loop.maxCalls || !Resolves(loop, calls) {
        streamed := Emit(env, x, chunks);
        return;
      }
      var ran := RunCalls(env, x, loop, calls, messages + [CallsMessage(calls)]);
      if ran.Err? {
        streamed := Emit(env, x, if ran.error.Rejected? then [ErrorChunk(ran.error)] else []);
        return;
      }
      messages := ran.value;
    }
    streamed := Emit(env, x, [ErrorChunk(TooManyIterations)]);
  }
}
