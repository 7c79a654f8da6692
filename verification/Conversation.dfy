/** What a stack of tool loops sends to the base model
    (internal/pipeline/tool_loop_client.go:160-222,
    internal/pipeline/conversation.go:118-124, 323-361). */
module Conversation {
  import opened Prelude
  import opened StreamTurn
  import opened ToolLoop
  import opened ToolLoopLaws

  // ---- Blocked results end the request ---------------------------------

  function ReplyError(reply: Reply): Option<LoopError> {
    if reply.Failure? then Some(reply.error) else None
  }

  /** The request is rejected exactly when a fetched text is blocked, for the
      reason given, and nothing is fetched after it. */
  lemma {:induction false} RejectedIffBlocked(env: Env, stack: seq<Loop>, req: Request, log: Log)
    requires forall l :: env.base(l).Failure? ==> !env.base(l).error.Rejected?
    requires AllCleared(env, log.fetched)
    ensures var (reply, log1) := Complete(env, stack, req, log);
            Policed(env, log1.fetched, ReplyError(reply))
    decreases |stack|, if stack == [] then 0 else Last(stack).maxIterations + 1
  {
    if stack != [] {
      var (block, log1) := Prefetch(env, Last(stack), req.messages, log);
      PrefetchStep(env, Last(stack), req.messages, log);
      if block.Ok? {
        RoundsPoliced(env, stack, req, Inject(req.messages, block.value), 0, log1);
      }
    }
  }

  lemma {:induction false} RoundsPoliced(
    env: Env, stack: seq<Loop>, req: Request, messages: seq<Message>, i: nat, log: Log)
    requires forall l :: env.base(l).Failure? ==> !env.base(l).error.Rejected?
    requires stack != [] && i <= Last(stack).maxIterations
    requires AllCleared(env, log.fetched)
    ensures var (reply, log1) := Rounds(env, stack, req, messages, i, log);
            Policed(env, log1.fetched, ReplyError(reply))
    decreases |stack|, Last(stack).maxIterations - i
  {
    var loop := Last(stack);
    if i < loop.maxIterations && !Gone(env, log) {
      var inner := RoundRequest(loop, req, messages, i);
      RejectedIffBlocked(env, Init(stack), inner, log);
      var (reply, log1) := Complete(env, Init(stack), inner, log);
      AfterReplyStep(env, loop, messages, i, reply, log1);
      var after := AfterReply(env, loop, messages, i, reply, log1);
      if after.Again? { RoundsPoliced(env, stack, req, after.messages, i + 1, after.log); }
    }
  }

  // ---- The shape of every request --------------------------------------

  function Flatten(rounds: seq<Round>): seq<Message>
    requires forall r :: r in rounds ==> |r.calls| == |r.contents|
  {
    if rounds == [] then [] else Flatten(Init(rounds)) + RoundMessages(Last(rounds))
  }

  /** messages are an opening followed by complied rounds. */
  ghost predicate Continues(env: Env, log: Log, opening: seq<Message>, messages: seq<Message>, rounds: seq<Round>) {
    && (forall r :: r in rounds ==> Complied(env, log, r))
    && messages == opening + Flatten(rounds)
  }

  /** The conversation a stack was given, the loops of the stack, and whether the
      prefetched block may still be injected. */
  datatype Given = Given(messages: seq<Message>, loops: seq<Loop>, injectable: bool)

  /** The given conversation, with the block on record once injected. */
  ghost predicate IsOpening(log: Log, given: Given, opening: seq<Message>) {
    opening == given.messages || (given.injectable && log.claimed && opening == Inject(given.messages, log.block))
  }

  ghost predicate WellFormed(env: Env, log: Log, given: Given, messages: seq<Message>) {
    exists opening, rounds ::
      && IsOpening(log, given, opening) && Continues(env, log, opening, messages, rounds)
      && RanBy(given.loops, rounds)
  }

  /** Every round was run by one of the loops. */
  ghost predicate RanBy(loops: seq<Loop>, rounds: seq<Round>) {
    forall r :: r in rounds ==> r.loop in loops
  }

  ghost predicate AllWellFormed(env: Env, log: Log, given: Given) {
    forall r :: r in log.requests ==> WellFormed(env, log, given, r.messages)
  }

  ghost predicate Prefetches(stack: seq<Loop>) {
    exists loop :: loop in stack && loop.prefetches
  }

  lemma CompliedLater(env: Env, log: Log, later: Log, r: Round)
    requires Complied(env, log, r) && Extends(log, later)
    ensures Complied(env, later, r)
  {
    forall k | 0 <= k < |r.calls| ensures Obtained(env, later, r.loop, r.calls[k], r.contents[k]) {
      ObtainedLater(env, log, later, r.loop, r.calls[k], r.contents[k]);
    }
  }

  lemma WellFormedLater(env: Env, log: Log, later: Log, given: Given, messages: seq<Message>)
    requires WellFormed(env, log, given, messages) && Extends(log, later)
    ensures WellFormed(env, later, given, messages)
  {
    var opening, rounds :| IsOpening(log, given, opening) && Continues(env, log, opening, messages, rounds)
        && RanBy(given.loops, rounds);
    forall r | r in rounds ensures Complied(env, later, r) {
      CompliedLater(env, log, later, r);
    }
    assert Continues(env, later, opening, messages, rounds);
  }

  lemma AllWellFormedLater(env: Env, log: Log, later: Log, given: Given)
    requires AllWellFormed(env, log, given) && Extends(log, later) && later.requests == log.requests
    ensures AllWellFormed(env, later, given)
  {
    forall r | r in later.requests ensures WellFormed(env, later, given, r.messages) {
      WellFormedLater(env, log, later, given, r.messages);
    }
  }

  lemma OneRoundMore(env: Env, log: Log, given: Given, messages: seq<Message>, r: Round)
    requires WellFormed(env, log, given, messages) && Complied(env, log, r) && r.loop in given.loops
    ensures WellFormed(env, log, given, messages + RoundMessages(r))
  {
    var opening, rounds :| IsOpening(log, given, opening) && Continues(env, log, opening, messages, rounds)
        && RanBy(given.loops, rounds);
    ContinuesMore(env, log, opening, messages, rounds, r);
    assert RanBy(given.loops, rounds + [r]);
  }

  lemma ContinuesMore(
    env: Env, log: Log, opening: seq<Message>, messages: seq<Message>, rounds: seq<Round>, r: Round)
    requires Continues(env, log, opening, messages, rounds) && Complied(env, log, r)
    ensures Continues(env, log, opening, messages + RoundMessages(r), rounds + [r])
  {
    var more := rounds + [r];
    assert Init(more) == rounds && Last(more) == r;
    Associative(opening, Flatten(rounds), RoundMessages(r));
  }

  /** The opening of a loop is well formed: it injects only into the original. */
  lemma OpeningWellFormed(env: Env, loop: Loop, given: Given, messages: seq<Message>, log: Log)
    requires WellFormed(env, log, given, messages)
    requires !log.claimed && loop.prefetches ==> messages == given.messages && given.injectable
    ensures var (block, log1) := Prefetch(env, loop, messages, log);
            block.Ok? ==> WellFormed(env, log1, given, Inject(messages, block.value))
  {
    PrefetchStep(env, loop, messages, log);
    var (block, log1) := Prefetch(env, loop, messages, log);
    if block.Ok? {
      if loop.prefetches && !log.claimed {
        assert Continues(env, log1, Inject(given.messages, log1.block), Inject(messages, block.value), []);
        assert RanBy(given.loops, []);
      } else {
        WellFormedLater(env, log, log1, given, messages);
      }
    }
  }

  lemma {:induction false} CompleteWellFormed(env: Env, stack: seq<Loop>, req: Request, log: Log, given: Given)
    requires WellFormed(env, log, given, req.messages) && AllWellFormed(env, log, given)
    requires !log.claimed && Prefetches(stack) ==> req.messages == given.messages && given.injectable
    requires forall l :: l in stack ==> l in given.loops
    ensures var (reply, log1) := Complete(env, stack, req, log);
            && Extends(log, log1) && AllWellFormed(env, log1, given)
            && (reply.Answer? && Prefetches(stack) ==> log1.claimed)
    decreases |stack|, if stack == [] then 0 else Last(stack).maxIterations + 1
  {
    if stack == [] {
      WellFormedLater(env, log, Sent(log, req), given, req.messages);
      forall r | r in log.requests ensures WellFormed(env, Sent(log, req), given, r.messages) {
        WellFormedLater(env, log, Sent(log, req), given, r.messages);
      }
    } else {
      var loop := Last(stack);
      assert loop in stack && (forall l :: l in stack <==> l in Init(stack) || l == loop);
      var (block, log1) := Prefetch(env, loop, req.messages, log);
      PrefetchStep(env, loop, req.messages, log);
      AllWellFormedLater(env, log, log1, given);
      OpeningWellFormed(env, loop, given, req.messages, log);
      if block.Ok? {
        RoundsWellFormed(env, stack, req, Inject(req.messages, block.value), 0, log1, given);
      }
    }
  }

  lemma {:induction false} RoundsWellFormed(
    env: Env, stack: seq<Loop>, req: Request, messages: seq<Message>, i: nat, log: Log, given: Given)
    requires stack != [] && i <= Last(stack).maxIterations
    requires WellFormed(env, log, given, messages) && AllWellFormed(env, log, given)
    requires Last(stack).prefetches ==> log.claimed
    requires !log.claimed && Prefetches(Init(stack)) ==> messages == given.messages && given.injectable
    requires forall l :: l in stack ==> l in given.loops
    ensures var (reply, log1) := Rounds(env, stack, req, messages, i, log);
            && Extends(log, log1) && AllWellFormed(env, log1, given)
            && (reply.Answer? && Prefetches(stack) ==> log1.claimed)
    decreases |stack|, Last(stack).maxIterations - i
  {
    var loop := Last(stack);
    assert forall l :: l in stack <==> l in Init(stack) || l == loop;
    if i < loop.maxIterations && !Gone(env, log) {
      var inner := RoundRequest(loop, req, messages, i);
      CompleteWellFormed(env, Init(stack), inner, log, given);
      var (reply, log1) := Complete(env, Init(stack), inner, log);
      AfterReplyStep(env, loop, messages, i, reply, log1);
      var after := AfterReply(env, loop, messages, i, reply, log1);
      AllWellFormedLater(env, log1, after.log, given);
      if after.Again? {
        var r := AfterReplyAgain(env, loop, messages, i, reply, log1);
        WellFormedLater(env, log, after.log, given, messages);
        OneRoundMore(env, after.log, given, messages, r);
        RoundsWellFormed(env, stack, req, after.messages, i + 1, after.log, given);
      }
    }
  }

  /** Every request of an execution is the original conversation, with the
      prefetched block injected at most once across the stack, followed by
      complete rounds: each holds calls of one loop of the stack, and the results
      that loop got for them, which no inspector blocked. */
  lemma RequestsAreWellFormed(env: Env, stack: seq<Loop>, req: Request, k: nat)
    requires k < |Complete(env, stack, req, NoLog).1.requests|
    ensures var log := Complete(env, stack, req, NoLog).1;
            WellFormed(env, log, Given(req.messages, stack, true), log.requests[k].messages)
  {
    var empty, given := NoLog, Given(req.messages, stack, true);
    assert Continues(env, empty, req.messages, req.messages, []) && RanBy(stack, []);
    CompleteWellFormed(env, stack, req, empty, given);
    var log := Complete(env, stack, req, empty).1;
    assert log.requests[k] in log.requests;
  }

  /** Under an outermost loop that prefetches, every request carries the block. */
  lemma OutermostPrefetchReachesEveryRequest(env: Env, stack: seq<Loop>, req: Request, k: nat)
    requires stack != [] && Last(stack).prefetches
    requires k < |Complete(env, stack, req, NoLog).1.requests|
    ensures var log := Complete(env, stack, req, NoLog).1;
            WellFormed(env, log, Given(Inject(req.messages, log.block), stack, false), log.requests[k].messages)
  {
    var empty := NoLog;
    PrefetchStep(env, Last(stack), req.messages, empty);
    var (block, log1) := Prefetch(env, Last(stack), req.messages, empty);
    assert block.Ok?;
    var opening := Inject(req.messages, log1.block);
    assert Continues(env, log1, opening, opening, []) && RanBy(stack, []);
    RoundsWellFormed(env, stack, req, opening, 0, log1, Given(opening, stack, false));
    var log := Complete(env, stack, req, empty).1;
    assert log.requests[k] in log.requests;
  }

  // ---- The injected block ----------------------------------------------

  ghost predicate Alternates(messages: seq<Message>) {
    forall i :: 0 < i < |messages| ==> !(messages[i - 1].role == User && messages[i].role == User)
  }

  /** Injecting keeps every message in its place, with its attachments and at
      least its text, ends on a user turn that ends on the block, and never
      makes two user turns follow each other. */
  lemma InjectionKeepsConversation(messages: seq<Message>, block: string)
    requires block != ""
    ensures var after := Inject(messages, block);
            && |messages| <= |after| <= |messages| + 1
            && (forall i :: 0 <= i < |messages| ==>
                  messages[i].content <= after[i].content && after[i] == messages[i].(content := after[i].content))
            && (forall i :: 0 <= i < |messages| - 1 ==> after[i] == messages[i])
            && after != [] && Last(after).role == User
            && Last(after).content == (if |after| == |messages| then Last(messages).content + "\n\n" else "") + block
            && (Alternates(messages) ==> Alternates(after))
  {
    InjectionEnds(messages, block);
    InjectionAlternates(messages, block);
  }

  lemma InjectionEnds(messages: seq<Message>, block: string)
    requires block != ""
    ensures var after := Inject(messages, block);
            && after != [] && |messages| <= |after| && Last(after).role == User
            && Last(after).content == (if |after| == |messages| then Last(messages).content + "\n\n" else "") + block
  {
  }

  lemma InjectionAlternates(messages: seq<Message>, block: string)
    requires block != ""
    ensures Alternates(messages) ==> Alternates(Inject(messages, block))
  {
    var after, n := Inject(messages, block), |messages|;
    if n > 0 && messages[n - 1].role == User {
      assert forall i :: 0 <= i < n ==> after[i].role == messages[i].role;
    }
  }

  // ---- What the block is made of ---------------------------------------

  /** A text under its title, if that says anything. */
  predicate Headed(env: Env, title: string, text: string, piece: string) {
    piece == if env.blank(title) then text else title + "\n" + text
  }

  /** The pieces are the values that have a text, in order, each under its title,
      fetched and cleared as such. */
  ghost predicate ValuesGive(env: Env, fetched: seq<Fetched>, values: seq<Value>, pieces: seq<string>)
    decreases |values|
  {
    if values == [] then pieces == []
    else if values[0].content == "" then ValuesGive(env, fetched, values[1..], pieces)
    else
      && pieces != [] && Headed(env, values[0].title, values[0].content, pieces[0])
      && Passed(env, fetched, Fetched(values[0].title, pieces[0], None))
      && ValuesGive(env, fetched, values[1..], pieces[1..])
  }

  /** The text was fetched, and no inspector blocked it. */
  ghost predicate Passed(env: Env, fetched: seq<Fetched>, f: Fetched) {
    f in fetched && Cleared(env, f)
  }

  /** What a conversation tool adds, nothing if empty: the reason it could not be
      called, or what the call gave, fetched and cleared, and wrapped. */
  ghost predicate ToolGives(
    env: Env, fetched: seq<Fetched>, messages: seq<Message>, tool: ConversationTool, piece: string)
  {
    match tool.arguments(messages)
    case Unmapped(why) => Headed(env, tool.title, why, piece)
    case NotAnObject(_) => false
    case Mapped(json) => exists l :: CallGives(env, l, fetched, tool, json, piece)
  }

  /** The execution standing at l, the tool was called. */
  ghost predicate CallGives(
    env: Env, l: Log, fetched: seq<Fetched>, tool: ConversationTool, json: string, piece: string)
  {
    var content := tool.call(l, json);
    && l.fetched <= fetched && Passed(env, fetched, Fetched(tool.name, content, None))
    && if content == "" then piece == "" else Headed(env, tool.title, tool.wrap(content), piece)
  }

  ghost predicate ToolsGive(
    env: Env, fetched: seq<Fetched>, messages: seq<Message>, tools: seq<ConversationTool>, pieces: seq<string>)
    decreases |tools|
  {
    if tools == [] then pieces == []
    else
      || (ToolGives(env, fetched, messages, tools[0], "") && ToolsGive(env, fetched, messages, tools[1..], pieces))
      || (pieces != [] && pieces[0] != "" && ToolGives(env, fetched, messages, tools[0], pieces[0])
          && ToolsGive(env, fetched, messages, tools[1..], pieces[1..]))
  }

  lemma {:induction false} ValuesLater(
    env: Env, fetched: seq<Fetched>, later: seq<Fetched>, values: seq<Value>, pieces: seq<string>)
    requires ValuesGive(env, fetched, values, pieces) && fetched <= later
    ensures ValuesGive(env, later, values, pieces)
    decreases |values|
  {
    if values != [] {
      ValuesLater(env, fetched, later, values[1..], if values[0].content == "" then pieces else pieces[1..]);
    }
  }

  lemma ToolLater(
    env: Env, fetched: seq<Fetched>, later: seq<Fetched>, messages: seq<Message>, tool: ConversationTool,
    piece: string)
    requires ToolGives(env, fetched, messages, tool, piece) && fetched <= later
    ensures ToolGives(env, later, messages, tool, piece)
  {
    if tool.arguments(messages).Mapped? {
      var json := tool.arguments(messages).json;
      var l :| CallGives(env, l, fetched, tool, json, piece);
      assert CallGives(env, l, later, tool, json, piece);
    }
  }

  lemma {:induction false} ValueBlocksGive(env: Env, values: seq<Value>, blocks: seq<string>, log: Log)
    returns (pieces: seq<string>)
    requires ValueBlocks(env, values, blocks, log).0.Ok?
    ensures ValueBlocks(env, values, blocks, log).0.value == blocks + pieces
    ensures ValuesGive(env, ValueBlocks(env, values, blocks, log).1.fetched, values, pieces)
  {
    pieces := [];
    if values != [] && values[0].content == "" {
      pieces := ValueBlocksGive(env, values[1..], blocks, log);
    } else if values != [] {
      var block := Titled(env, values[0].title, values[0].content);
      var f := Fetched(values[0].title, block, None);
      RecordedSteps(env, log, f);
      var rest := ValueBlocksGive(env, values[1..], blocks + [block], Recorded(log, f));
      ValueBlocksStep(env, values[1..], blocks + [block], Recorded(log, f));
      pieces := [block] + rest;
      assert f in Recorded(log, f).fetched;
    }
  }

  lemma ToolBlockGives(env: Env, tool: ConversationTool, messages: seq<Message>, log: Log)
    requires ToolBlock(env, tool, messages, log).0.Ok?
    ensures var (r, log1) := ToolBlock(env, tool, messages, log);
            ToolGives(env, log1.fetched, messages, tool, r.value)
  {
    var args := tool.arguments(messages);
    if args.Mapped? {
      RecordedSteps(env, log, Fetched(tool.name, tool.call(log, args.json), None));
      var (r, log1) := ToolBlock(env, tool, messages, log);
      assert CallGives(env, log, log1.fetched, tool, args.json, r.value);
    }
  }

  lemma {:induction false} ToolBlocksGive(
    env: Env, tools: seq<ConversationTool>, messages: seq<Message>, blocks: seq<string>, log: Log)
    returns (pieces: seq<string>)
    requires ToolBlocks(env, tools, messages, blocks, log).0.Ok?
    ensures ToolBlocks(env, tools, messages, blocks, log).0.value == blocks + pieces
    ensures ToolsGive(env, ToolBlocks(env, tools, messages, blocks, log).1.fetched, messages, tools, pieces)
  {
    pieces := [];
    if tools != [] {
      ToolBlockGives(env, tools[0], messages, log);
      var (block, log1) := ToolBlock(env, tools[0], messages, log);
      var blocks' := if block.value == "" then blocks else blocks + [block.value];
      var rest := ToolBlocksGive(env, tools[1..], messages, blocks', log1);
      ToolBlocksStep(env, tools[1..], messages, blocks', log1);
      var later := ToolBlocks(env, tools[1..], messages, blocks', log1).1;
      ToolLater(env, log1.fetched, later.fetched, messages, tools[0], block.value);
      pieces := if block.value == "" then rest else [block.value] + rest;
      ToolsGiveMore(env, later.fetched, messages, tools, block.value, rest);
    }
  }

  lemma ToolsGiveMore(env: Env, fetched: seq<Fetched>, messages: seq<Message>, tools: seq<ConversationTool>,
                      piece: string, rest: seq<string>)
    requires tools != [] && ToolGives(env, fetched, messages, tools[0], piece)
    requires ToolsGive(env, fetched, messages, tools[1..], rest)
    ensures ToolsGive(env, fetched, messages, tools, if piece == "" then rest else [piece] + rest)
  {
    if piece != "" { assert ([piece] + rest)[1..] == rest; }
  }

  /** The prefetched block is the text of every configured value, then what every
      conversation tool gave, in order, with an empty line between; whatever a
      server supplied in it was cleared by the inspectors. A prefetch already made
      gives nothing. */
  lemma PrefetchedBlockIsCleared(env: Env, loop: Loop, messages: seq<Message>, log: Log)
    returns (values: seq<string>, tools: seq<string>)
    requires Prefetch(env, loop, messages, log).0.Ok?
    ensures var (block, log1) := Prefetch(env, loop, messages, log);
            && block.value == Join(values + tools)
            && if !loop.prefetches || log.claimed then values + tools == []
               else
                 && ValuesGive(env, log1.fetched, env.values, values)
                 && ToolsGive(env, log1.fetched, messages, env.prefetched, tools)
  {
    values, tools := [], [];
    if loop.prefetches && !log.claimed {
      var log0 := log.(claimed := true);
      values := ValueBlocksGive(env, env.values, [], log0);
      var (blocks, log1) := ValueBlocks(env, env.values, [], log0);
      assert blocks.value == values;
      tools := ToolBlocksGive(env, env.prefetched, messages, blocks.value, log1);
      ToolBlocksStep(env, env.prefetched, messages, blocks.value, log1);
      var log2 := ToolBlocks(env, env.prefetched, messages, blocks.value, log1).1;
      ValuesLater(env, log1.fetched, log2.fetched, env.values, values);
    }
  }

  /** Join puts an empty line between the pieces, and nothing else. */
  lemma {:induction false} JoinLaws(a: seq<string>, b: seq<string>)
    ensures Join([]) == "" && forall x :: Join([x]) == x
    ensures a != [] && b != [] ==> Join(a + b) == Join(a) + "\n\n" + Join(b)
  {
    if |a| == 1 && b != [] {
      assert (a + b)[1..] == b;
    } else if |a| > 1 && b != [] {
      assert (a + b)[1..] == a[1..] + b;
      JoinLaws(a[1..], b);
    }
  }
}
