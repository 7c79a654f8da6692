# Verified model of the Xolo gateway's core

Xolo is an LLM gateway. Requests run through user-drawn pipeline graphs that
nest (virtual models, personal models, middlewares), through stacks of tool
loops, and through out-of-process plugins. This project models those parts in
Dafny and proves what they promise over every graph, store, run, stream,
interleaving or text.

Check it with `dafny verify dfyconfig.toml`.

| files | what they model |
|---|---|
| `Graphs`, `TopoSort` | graphs, and the priority topological sort as an imperative method and as a function |
| `ModelNames`, `Engine`, `EngineLoop` | the forward pass: functions returning the call tree of a run, and the loops over a mutable value store that compute them |
| `Runs`, `Nesting`, `Answers`, `Failures`, `Access`, `Policies`, `Dataflow`, `Fallback` | what every call tree keeps: termination and bounds, trace, what a run hands over and how it fails, authorization, block nodes, data flow, fallback candidates |
| `SavedGraphs` | the validator every saved graph goes through, and what it gives the requests that run it |
| `Passes` | following one request through a given graph, for the counterexamples |
| `BackwardPass`, `Billing` | the backward pass over the flattened trace, and the model it is told of |
| `StreamTurn`, `ToolLoop`, `ToolLoopLaws`, `StreamRefinement`, `Conversation`, `StreamLaws`, `Turns`, `ToolLoopClient` | stacked tool loops, plain and streaming |
| `WireForm` | what the host sends a plugin and what the plugin reads back |
| `Inventory`, `Exports`, `ExportLaws`, `ExportVerifier` | the adoption export: its records, its framing, its writer and its verifier |
| `Placeholders`, `Unmasking`, `Restoring` | masking placeholders before anonymization and putting the foreign ones back |
| `SessionPool`, `CatalogSource`, `ModelLoader` | concurrent state as interleaved atomic steps |
| `Estimator` | energy envelopes over the reals |
| `Prelude` | options, results and facts about sequences |

Code the model does not define (node executors, stores, access checks, JSON,
hashes, the base model, tools, inspectors, clocks, square root) enters as
fields of function type in `World`, `Env`, `Codec`, `Rules` or `Math` values
that every theorem quantifies over; the few facts used of them are explicit
predicates (`Lawful`, `Faithful`, `BaseAgrees`, ...).

## Findings

Properties that are false of the code they speak of, each with inputs that refute
it and the exact condition under which it holds:

- The engine alone does not run every block node of every graph. An edge to a node
  that does not exist adds an unknown ID to the schedule; the sort can then succeed
  although a block node on a cycle is never scheduled, and `RunForward` passes the
  request without it (`Policies.DanglingEdgeHidesBlock`). With unique IDs, a block
  node runs in a request that passes exactly when neither it nor anything that feeds
  it is on a cycle or has an unknown source (`Policies.BlockRanIffSchedulable`,
  `TopoSort.ScheduledIff`). This concerns stored graphs that never went through
  `ValidatePipelineGraph` (`internal/core/service/pipeline_graph.go:27-63`), which
  refuses them (`SavedGraphs.HiddenBlockIsRefused`) wherever the API or provisioning
  saves a graph. Over validated graphs a request that passes ran every block node at
  every depth (`SavedGraphs.ValidatedRequestsAreGuarded`).
- The outcome of a fallback node in a nested run is not carried up, so the
  backward pass is told of the first candidate whichever answered
  (`Billing.NestedFallbackBillsPrimary`; `Billing.FallbackIsMisbilled` is a family
  of requests). It is told of the right one exactly when the fallback node is in
  the graph itself or its first candidate answered.
- A graph that references a model of its organization whose local name holds a
  slash also delegates another organization's model: `acme/other/mistral` and
  `other/mistral` share a key (`Access.SlashCoversForeign`, and
  `Access.SlashDelegatesForeign` for the access check). Two names share a key exactly
  when they name one model, or when the local name of one, being of the request's
  organization, spells the other, which is not (`Access.KeysShareIff`).
- A stream that fails after tool call pieces is read as a complete turn, so a stack
  of loops runs tools where its plain form only reports the failure, exactly when
  the prefetch does not fail and some loop of the stack knows every tool the pieces
  name (`StreamRefinement.FailingStreamRunsToolsIff`; an instance is
  `StreamRefinement.SomeFailingStreamRunsTools`). What such a stream sends, and what
  ends it, keeps the laws of the plain form (`StreamLaws`).
- Forcing a final answer reaches the model only from the innermost loop of a
  stack, or when no tools are offered (`ToolLoopLaws.ForcedChoiceReachesModelIff`,
  and a run of two loops in `ToolLoopLaws.SomeForcedChoiceIsLost`), although the
  documentation of the loop says the next call is forced.
- An inert form written in a text before a foreign placeholder of the same name
  trades places with it (`Restoring.WrittenFormSwaps`, `Restoring.UnmaskRestoresIff`).
- Inputs that cannot be marshalled are dropped on the wire, all of them together
  (`WireForm.InputsRoundTrip` says exactly when they arrive). A number that is not
  finite, which a math node whose product is out of range gives, is such an input
  (`WireForm.NotFiniteLosesInputs`, `WireForm.SomeCodecLosesInputs`).
- A scope with a NUL in any component shares its pool key with another, and some
  interleaving hands it that one's connector (`SessionPool.SeparatorCollides`,
  `SessionPool.SeparatorMixesScopes`). A scope has a key of its own exactly when
  no component holds a NUL (`SessionPool.KeyIsOwnIff`).
- With low throughput below high, the middle energy can be above the high one
  (`Estimator.ReversedThroughputsBreakOrder`). `Estimator.EstimateIsOrderedIff`
  says exactly when the three are in order: always in the floor regime, which
  every preset is in under twenty billion parameters (so with the reversed
  throughputs of `cmd/seed/fixtures.go:643-644` too), and in the hybrid one under
  an inequality in the throughputs. Durations are in order exactly when the
  throughputs are (`Estimator.EstimateIsOrdered`).

## Model

| member | source | states |
|---|---|---|
| TopoSort.Sort | internal/pipeline/engine.go:359-408 | the loops return the specified order; on unique IDs and known edges they fail exactly on a cycle, and otherwise give a permutation that respects every edge and puts every non-terminal node without a terminal ancestor before every terminal one |
| TopoSort.SortFailsIffCyclic | internal/pipeline/engine.go:381-407 | on a well-formed graph the sort fails if and only if the graph has a cycle |
| TopoSort.SortedGraphIsScheduled | internal/pipeline/engine.go:359-408 | a successful order is a permutation of the nodes, edge-respecting, guards before terminals |
| TopoSort.SortCoversIffNoDanglingEdge | internal/pipeline/engine.go:366-369 | with unique IDs and known sources, a successful order is a permutation of the nodes exactly when every edge target is a node |
| TopoSort.ScheduledIff | internal/pipeline/engine.go:381-402 | with unique IDs, the sort schedules a vertex exactly when neither it nor any of its ancestors is unknown or its own ancestor |
| TopoSort.SortSucceedsIff | internal/pipeline/engine.go:404-407 | with unique IDs, the sort succeeds exactly when as many vertices can be scheduled as there are nodes |
| TopoSort.InvariantStep | internal/pipeline/engine.go:381-402 | one round of the queue keeps in-degrees equal to the edges still pending, the queue equal to the ready nodes, and the greedy order |
| TopoSort.RelaxSpec | internal/pipeline/engine.go:396-401 | relaxing successors lowers each degree by its multiplicity and queues exactly those that reach zero, once |
| TopoSort.InDegrees | internal/pipeline/engine.go:360-369 | the counting loops give every node and every edge target its number of incoming edges |
| TopoSort.Adjacency | internal/pipeline/engine.go:361-369 | the successor lists keep edge order and multiplicity |
| TopoSort.StartQueue | internal/pipeline/engine.go:371-378 | the first queue holds the nodes without incoming edges in graph order |
| TopoSort.PickNext | internal/pipeline/engine.go:386-393 | the pick is the first non-terminal of the queue, its head when there is none |
| TopoSort.RelaxAll | internal/pipeline/engine.go:396-401 | the in-place loop over successors computes the specified relaxation |
| ModelNames.ParseTextRoundTrip | internal/core/model/model_name.go:31-78 | a parsed name prints back as the text it was read from |
| ModelNames.ParseIff | internal/core/model/model_name.go:60-78 | the parser accepts exactly the names that have a reading (a bare name without slash; or an organization, then a team exactly when the next segment names one and a model follows, then the rest), and returns it |
| Engine.VisitingShrinks | internal/pipeline/model_executor.go:116-173 | entering a model not yet visited strictly lowers the measure that bounds nesting |
| Runs.RunForwardValid | internal/pipeline/engine.go:60-157 | every run of every graph is a call tree whose visits follow the schedule, read the store left by those before, and end as the engine ends; a nested run is that of the next middleware or of the stored model the name asked for designates, under its key and the secrets of its owner; a real model resolved is the one the name designates, no virtual model doing so; and a model node fails only for the reason stated |
| Answers.ForwardHandsOver | internal/pipeline/engine.go:83-157 | at every depth, a successful run hands over the client its last node resolved, wrapped in the decorators its executors answered with the last one outermost, the tools they answered, the nodes of the whole run with what the executors kept, and the last messages any of them answered; failures, rejections and outputs are those answered; and a nested run works on the body fed to its node, else its parent's |
| Answers.CandidatesAre | internal/pipeline/model_fallback_executor.go:36-45 | the candidates of a fallback node are the name fed to it, then the configured ones, empty names left out |
| Answers.NonEmptySplit | internal/pipeline/model_fallback_executor.go:41-45 | leaving out empty names keeps the others in order |
| Failures.FailureIsTold | internal/pipeline/engine.go:60-168 | any run, nested ones included, fails exactly as its last visit did, by failure, rejection or a client resolved before a block node; or, nothing having ended it, for want of a generator, a sink or something into each sink, of a schedule, of an executor for the next scheduled node, or of a node that resolves a client |
| Nesting.RunIsBounded | internal/pipeline/model_executor.go:41-187 | every run ends, enters at most models + middlewares + 1 graphs, no model twice and none already visited, and the middlewares entered are a prefix of the pending ones in order |
| Nesting.TraceIsPostOrder | internal/pipeline/engine.go:99-157 | the flattened trace is the post-order of the whole nested run and the final messages are its last non-empty rewrite, else the input |
| Nesting.OutcomeIsOwn | internal/pipeline/model_executor.go:204-216 | a successful run reports which model answered exactly when its own last node is a fallback node |
| Billing.NestedFallbackBillsPrimary | internal/pipeline/engine.go:207-219 | when a fallback node answered at any depth, the backward pass is told of the model that answered if and only if the node is in the graph itself or its first candidate resolved to that model; when nested, of the first candidate's model whatever answered |
| Billing.ModelIsPrimary | internal/pipeline/model_executor.go:204-216 | the model of a run that ends on a fallback node at any depth is what the first candidate resolved to there |
| Billing.NestedLosesOutcome | internal/pipeline/model_executor.go:209-215 | a run whose last node entered a graph reports no outcome |
| Billing.FallbackIsMisbilled | internal/pipeline/model_executor.go:204-216 | in every world that serves a virtual model with a fallback node, requests for it pass and are reported under the first candidate, whichever answered |
| Billing.SomeRequestIsMisbilled | internal/pipeline/model_executor.go:204-216 | for any two names there is a world in which the second answers and the first is reported |
| Access.RunIsAuthorized | internal/pipeline/access.go:30-88 | at every depth, every model entered or resolved is usable by the request or covered by a model name in the configuration of the innermost delegating graph: one that names the same model, whatever the team, or shares its spelling across organizations as the finding above says; delegation never accumulates and is empty in a personal model |
| Access.RunAuthorized | internal/pipeline/model_executor.go:104-187 | the same for any valid call tree under any delegation |
| Access.CheckedMayReach | internal/pipeline/access.go:30-47 | a name that passes the check is usable, or covered by a reference in force |
| Access.CheckedIffMayReach | internal/pipeline/access.go:30-47 | and every such name passes it |
| Access.KeysShareIff | internal/pipeline/access.go:77-90 | two names share a key if and only if they have the same organization, empty meaning the request's, and the same local name; or one is of the request's organization and its local name spells the other, which is not |
| Access.TeamIsDropped | internal/pipeline/access.go:99-107 | a bare name, the name under the organization, and the name under the request's team are one model's |
| Access.TeamIsOwn | internal/pipeline/access.go:99-107 | the only team a name carries is the request's, in its organization |
| Access.SlashCoversForeign | internal/pipeline/access.go:77-90 | for every other organization and local name, a reference to a model of the request's organization spelled like it shares its key |
| Access.SlashDelegatesForeign | internal/pipeline/access.go:62-68 | so a graph holding that reference is let through to the other organization's model in every world |
| Access.StaticRefsIff | internal/core/model/pipeline_graph.go:215-242 | the references of a graph are exactly the models its model, model_ref and fallback nodes are configured with, passthrough nodes aside |
| Fallback.Client.constructor | internal/pipeline/model_fallback_executor.go:57-66 | the client starts with its primary candidate resolved and none used |
| Fallback.Client.Candidate | internal/pipeline/model_fallback_executor.go:106-118 | candidate i is reached if and only if every candidate up to it resolves; what was resolved stays |
| Fallback.Client.ChatCompletion | internal/pipeline/model_fallback_executor.go:126-147 | the reply comes from the first candidate that answers among the leading resolvable ones, and is recorded as used; failure means each of those failed |
| Fallback.Resolvable | internal/pipeline/model_fallback_executor.go:106-118 | the candidates in reach are those before the first that does not resolve |
| Fallback.ResolvedIsAuthorized | internal/pipeline/model_fallback_executor.go:51-56 | a candidate the client resolves later passed the access check of the graph holding the node |
| Policies.SuccessMeansNotBlocked | internal/pipeline/engine.go:131-139 | if a request passes then, in every graph entered at any depth, the block nodes that ran on a false condition are exactly the scheduled ones; with unique IDs exactly those that no cycle and no unknown source feeds; with known edges all of them |
| Policies.BlockRanIffScheduled | internal/pipeline/engine.go:161-168 | in a successful run a block node let the request through if and only if it is the first of its ID and the sort scheduled it |
| Policies.BlockRanIffSchedulable | internal/pipeline/engine.go:161-168 | with unique IDs, in a successful run a block node let the request through if and only if neither it nor an ancestor is unknown or on a cycle |
| Policies.BlockStepPassed | internal/pipeline/block_executor.go:35-75 | a block node that does not reject read the condition false |
| Policies.TerminalRunsLast | internal/pipeline/engine.go:382-395 | when a run stops on a terminal node, every non-terminal node that no terminal feeds has run |
| Policies.VisitsAreSchedule | internal/pipeline/engine.go:83-98 | on a well-formed graph the visits are a prefix of the schedule |
| Policies.UnscheduledNeverRuns | internal/pipeline/engine.go:83-98 | a node the sort left out is visited by no run |
| Policies.DanglingEdgeHidesBlock | internal/pipeline/engine.go:366-369 | of the engine alone, on graphs the validator refuses: for all five distinct IDs, all worlds that serve the model named and all unchecked requests, a graph with one edge to an unknown node passes the request without its block node |
| Policies.SomeRequestPassesUnblocked | internal/pipeline/engine.go:366-369 | there are worlds in which that happens |
| SavedGraphs.Validate | internal/core/service/pipeline_graph.go:27-63 | a graph is accepted if and only if it is missing or holds what every saved graph holds: bounded sizes, valid nodes, unique node and edge IDs, edges between its nodes; an accepted graph is well formed |
| SavedGraphs.ValidateNodes | internal/core/service/pipeline_graph.go:34-46 | the loop over the nodes accepts exactly valid nodes with unique IDs and collects those IDs |
| SavedGraphs.ValidateEdges | internal/core/service/pipeline_graph.go:47-61 | the loop over the edges accepts exactly edges with valid, unique IDs and both ends among the nodes |
| SavedGraphs.ValidatedRequestsAreGuarded | internal/core/service/pipeline_graph.go:20-26 | when the graphs of the request, of its middlewares and of both stores are validated, in every graph entered at any depth the sort fails exactly on a cycle, and a request that passes went through every block node on a false condition |
| SavedGraphs.HiddenBlockIsRefused | internal/core/service/pipeline_graph.go:56-60 | the graphs whose block node the engine leaves out are refused |
| Dataflow.ForwardEvaluatesGraph | internal/pipeline/engine.go:83-118 | for nodes that depend only on their inputs, at every depth each executed node received exactly the values of the recursive evaluation of the graph, and after every visit the store holds exactly its outputs for the nodes that ran, whatever the schedule |
| Dataflow.InputsAgree | internal/pipeline/value_context.go:40-52 | the inputs read from the store equal those of the evaluation once every source is done |
| Dataflow.AncestorsShrink | internal/pipeline/engine.go:83-118 | on an acyclic graph a source has strictly fewer ancestors than its target, so evaluation is well founded |
| BackwardPass.Run | internal/pipeline/engine.go:199-275 | the reverse loop computes the specified pass, down to the first position found out of time and exactly to it |
| BackwardPass.PassIsExchanges | internal/pipeline/engine.go:220-274 | the pass calls the executors of the trace last node first, nodes without executor left out; each is given the last response and the last tool calls answered before it, else the model's; the pass returns the last response answered and reports the last tool calls answered, or none; failures and empty answers change nothing |
| BackwardPass.BackwardRestoresCalls | internal/pipeline/engine.go:189-274 | if each leaf's backward turns back the tool calls its forward showed the model, the pass turns back those the whole nested run showed, at any depth |
| BackwardPass.BackwardUndoesForward | internal/pipeline/engine.go:207-274 | if each leaf's backward undoes its own forward rewrite, the backward pass over the flattened trace undoes the composition at any nesting depth |
| BackwardPass.BackFromSplit | internal/pipeline/engine.go:220-272 | running back over a concatenated trace is running back over its parts in turn |
| EngineLoop.Forward | internal/pipeline/engine.go:60-157 | the loop over the mutable store computes the specified run |
| EngineLoop.Turn | internal/pipeline/engine.go:83-157 | one iteration ends the run or leaves the progress the specification gives |
| EngineLoop.PendingBlockNode | internal/pipeline/engine.go:161-168 | the scan finds the first remaining block node |
| EngineLoop.ExecuteModel | internal/pipeline/model_executor.go:41-81 | the model node's branches compute the specified step |
| EngineLoop.ExecuteByName | internal/pipeline/model_executor.go:104-187 | personal, organization and direct resolution compute the specified step |
| EngineLoop.ValueContext.constructor | internal/pipeline/value_context.go:16-18 | the store starts empty |
| EngineLoop.ValueContext.Set | internal/pipeline/value_context.go:21-27 | one port of one node changes, nothing else |
| EngineLoop.ValueContext.Get | internal/pipeline/value_context.go:29-36 | the value stored, or none |
| EngineLoop.ValueContext.Resolve | internal/pipeline/value_context.go:40-52 | the edges into a node give its inputs, the last edge into a port winning |
| EngineLoop.ValueContext.SetAll | internal/pipeline/engine.go:115-118 | outputs stored in any map order give the same store |
| StreamTurn.BufferTurn | internal/pipeline/tool_loop_client.go:358-396 | the buffering loop returns every chunk and the calls rebuilt from their pieces |
| StreamTurn.FragmentsAssemble | internal/pipeline/tool_loop_client.go:358-396 | however the calls of a turn are cut up and interleaved, they are rebuilt in order of first appearance with their arguments concatenated |
| ToolLoop.NewLoop | internal/pipeline/tool_loop_client.go:50-64 | the bounds of a loop are positive, those given if they are |
| StreamRefinement.StreamRefinesPlain | internal/pipeline/tool_loop_client.go:246-336 | for any stack whose base forms agree, both forms send the same requests, run the same tools and tell the caller the same; a caller that leaves while the answer is sent gets a prefix of it, and one that leaves while an inner turn is sent gets nothing of a streaming form that did no more than the plain one |
| StreamRefinement.GoneIsSilent | internal/pipeline/tool_loop_client.go:266-276 | a streaming loop whose caller is gone at the end, not having left halfway through the chunks, sent nothing |
| StreamRefinement.StreamEqualsPlain | internal/pipeline/tool_loop_client.go:246-336 | for any stack whose base forms agree and a caller who never leaves halfway, both forms send the same requests, run the same tools and, unless the caller is gone, end on the same answer or error |
| StreamRefinement.FailingStreamRunsToolsIff | internal/pipeline/tool_loop_client.go:296-311 | when the base model fails after any chunks and the caller stays, every stack of loops fails in the plain form, and its streaming form fetches the same as the plain one if and only if the prefetch for the request fails, or there are no calls, or no loop of the stack has all their names among its tools |
| StreamRefinement.SomeFailingStreamRunsTools | internal/pipeline/tool_loop_client.go:296-311 | one loop and one piece naming its tool: the plain form fails and runs nothing, the streaming form runs the tool |
| ToolLoopLaws.RequestsAreBounded | internal/pipeline/tool_loop_client.go:171-213 | a stack sends at most the product of min(maxIterations, maxCalls + 1) requests to the base model |
| ToolLoopLaws.TooManyNeedsTightLimit | internal/pipeline/tool_loop_client.go:171-213 | the iteration error needs a loop with maxIterations <= maxCalls |
| ToolLoopLaws.ForcedChoiceReachesModelIff | internal/pipeline/tool_loop_client.go:150-187 | in any run of any stack of loops that may call tools, as every constructed loop may, the request a loop forces a final answer with reaches the model with that choice if and only if no loop is below it or no tools are offered |
| ToolLoopLaws.SomeForcedChoiceIsLost | internal/pipeline/tool_loop_client.go:150-187 | two loops and a model that calls the outer one's tool once: the request forced from a fresh execution offers tools and leaves the choice to the model |
| ToolLoopLaws.FirstRequest | internal/pipeline/tool_loop_client.go:150-187 | the first request a stack sends offers the caller's tools and those of every loop, and has the caller's choice, none becoming auto when there are tools |
| ToolLoopLaws.FirstBlockNoneIff | internal/pipeline/tool_inspector.go:54-71 | a result passes if and only if no inspector that answered blocked it |
| ToolLoopLaws.FirstBlockSomeIff | internal/pipeline/tool_inspector.go:54-71 | a result is blocked for a reason if and only if that is the reason of the first inspector that blocks it |
| ToolLoopLaws.RunToolsResults | internal/pipeline/tool_loop_client.go:200-210 | a completed round appends one result per call in order, each being what the loop got for that call, as the execution stood, and cleared |
| ToolLoopLaws.RoundIsTold | internal/pipeline/tool_loop_client.go:200-210 | a round is a message with the calls, then one message per call in order with its result and its ID |
| Turns.TurnsAreHandled | internal/pipeline/tool_loop_client.go:160-214 | in any run of any stack, every turn of the model calls tools, all of them tools of one loop; or it is the last thing that happens and the caller gets it as it is; an answer is always the model's last turn |
| Turns.UnofferedTurnIsReturned | internal/pipeline/tool_loop_client.go:195-198 | a model whose turns hold a call no loop offers is asked at most once, and the caller gets that turn |
| Turns.ReturnedCallsAreSpent | internal/pipeline/tool_loop_client.go:171-198 | an answer that calls only tools of a loop of the stack comes after more requests than the loop may run calls |
| Turns.FetchedIsOffered | internal/pipeline/tool_loop_client.go:126-133 | every tool a stack runs for a call is offered by a loop of the stack |
| Turns.StreamFetchedIsOffered | internal/pipeline/tool_loop_client.go:302-330 | the same of the streaming form, whatever the base model streams |
| ToolLoopLaws.PrefetchStep | internal/pipeline/conversation.go:323-361 | the prefetch runs for the first claim only, sends nothing to the model, and stops at the first blocked text |
| Conversation.RequestsAreWellFormed | internal/pipeline/tool_loop_client.go:160-214 | every request of an execution is the original conversation, with the prefetched block injected at most once across the stack, followed by complete rounds: each holds calls of one loop of the stack, and what that loop got for them, cleared |
| Conversation.OutermostPrefetchReachesEveryRequest | internal/pipeline/conversation.go:118-124 | under an outermost loop that prefetches, every request carries the block |
| Conversation.InjectionKeepsConversation | internal/pipeline/tool_loop_client.go:85-114 | injecting a block keeps every message with its attachments and text, ends on a user turn that ends on the block, and never makes two user turns follow each other |
| Conversation.PrefetchedBlockIsCleared | internal/pipeline/conversation.go:323-413 | the injected block is every configured value with a text, then what every conversation tool gave, in order, each under its title; what a server supplied in it was fetched by that call and cleared by the inspectors |
| Conversation.JoinLaws | internal/pipeline/conversation.go:355-361 | the pieces are separated by an empty line and nothing else |
| Conversation.RejectedIffBlocked | internal/pipeline/tool_loop_client.go:201-222 | the execution is rejected exactly when a fetched text is blocked, with its reason, and nothing is fetched after it |
| StreamLaws.StreamRequestsAreWellFormed | internal/pipeline/tool_loop_client.go:246-336 | whatever the base model streams, every request of a streaming execution is the original conversation with the block injected at most once across the stack, followed by complete rounds of cleared results |
| StreamLaws.StreamRequestsAreBounded | internal/pipeline/tool_loop_client.go:280-332 | whatever the base model streams, a stack adds at most the product of its bounds to the requests sent |
| StreamLaws.StreamRejectedIffBlocked | internal/pipeline/tool_loop_client.go:256-332 | a streaming execution speaks of a rejection only when a fetched text is blocked; that text is then the last fetched, and its reason is all the caller is told, unless it is gone |
| ToolLoopClient.ChatCompletion | internal/pipeline/tool_loop_client.go:160-214 | the plain loop computes the specified reply and log |
| ToolLoopClient.ChatCompletionStream | internal/pipeline/tool_loop_client.go:246-336 | the streaming loop computes the specified stream and log |
| ToolLoopClient.InspectResult | internal/pipeline/tool_inspector.go:54-71 | the loop returns the first block, skipping inspectors that fail |
| ToolLoopClient.RunCalls | internal/pipeline/tool_loop_client.go:200-210 | the loop over the calls of a round computes the specified messages and log |
| ToolLoopClient.PrefetchConversationTools | internal/pipeline/conversation.go:323-361 | values then tools are resolved into the specified block, once per execution |
| ToolLoopClient.RunConversationTool | internal/pipeline/conversation.go:369-413 | one conversation tool gives the specified block, error or rejection |
| ToolLoopClient.Execution.TakeInjection | internal/pipeline/conversation.go:118-124 | the claim succeeds for its first caller only |
| ToolLoopClient.Emit | internal/pipeline/tool_loop_client.go:266-276 | chunks are sent until the caller leaves, and none to one already gone |
| WireForm.InputsRoundTrip | pkg/pluginsdk/request.go:40-60 | the plugin restores exactly the inputs that entered the node if and only if what travels can be marshalled, whatever the order of the port lists |
| WireForm.NotFiniteLosesInputs | internal/pipeline/value_context.go:55-63 | a port holding a number that is not finite makes the plugin read other inputs than those that entered the node |
| WireForm.SomeCodecLosesInputs | internal/pipeline/value_context.go:55-63 | there is a lawful codec under which, on any port, a flag arrives and a number that is not finite does not |
| WireForm.MessagesRoundTrip | pkg/pluginsdk/request.go:20-25 | the plugin reads the messages that entered the node, whenever there are any |
| WireForm.ForwardIsWireFaithful | internal/pipeline/executor.go:235-256 | from a start with the body's messages right or unknown, at every depth of every run a plugin reads the body fed to its node or the context's, the messages that entered its node, and its inputs exactly when what travels can be marshalled; what travels repeats neither body nor messages |
| WireForm.FedBodyHidesContext | internal/pipeline/executor.go:235-245 | when a body is fed to a node, two contexts that differ in their bodies only make the plugin read the same body, messages and inputs |
| WireForm.Split | internal/pipeline/value_context.go:71-87 | the loop separates the ports that repeat the body or the messages from the rest, in any map order |
| WireForm.BuildCall | internal/pipeline/plugin_executor.go:211-231 | the call carries the body fed to the node, or the context's, and leaves out exactly what the plugin can recompute |
| WireForm.ReadCall | pkg/pluginsdk/request.go:40-60 | the plugin side computes the specified inputs |
| WireForm.Fill | pkg/pluginsdk/request.go:50-58 | the loop fills each listed port and no other |
| Inventory.AcceptedIsClosed | internal/adoption/verify.go:183-308 | accepted records are closed under parents of the same tenant and organization, free of duplicates and in family order; each is of an announced family, has an etag and an object with the status its family needs, and fills the parts of its key its family has |
| Inventory.KeyedIff | internal/adoption/verify.go:212-308 | a key is accepted if and only if it fills the parts its family has, and only those, with what they have to hold |
| Inventory.HangsIff | internal/adoption/verify.go:244-308 | which families belong to an organization and which to a member |
| Inventory.FamiliesAreIndexed | internal/adoption/verify.go:183-193 | a family is known exactly when it is listed, and its index is its place in the list |
| Inventory.ShownStep | internal/adoption/verify.go:183-275 | adding a record keeps the flat maps telling exactly the records read |
| Inventory.TeamsStep | internal/adoption/verify.go:258-265 | once teams came, family order freezes the organizations they hang from |
| Inventory.MembershipFound | internal/adoption/verify.go:250-272 | the joined organization and member key is unambiguous: it stands for a membership record of that tenant |
| Inventory.IdInjective | internal/adoption/verify.go:203-211 | the duplicate key tells families and keys apart |
| Inventory.ConsistentIsAccepted | internal/adoption/verify.go:183-308 | every ordered, duplicate-free, closed inventory with one owner per organization, member and team is accepted |
| Exports.AcceptedIsPrefixFree | internal/adoption/verify.go:41-127 | no proper prefix and no proper extension of an accepted export is accepted |
| Exports.LinesOfWhole | internal/adoption/verify.go:119-127 | splitting after line breaks distributes over whole lines |
| ExportLaws.AcceptedHoldsClosedRecords | internal/adoption/verify.go:41-115 | an accepted export is a header of this version and contract with a source, a cursor and an ordered selection of the families, records and a trailer; its records are closed, complete and counted, its digest covers every line before the trailer, it has a tenant |
| ExportLaws.ConsistentExportAccepted | internal/adoption/adoption.go:63-100 | the export of a consistent non-empty inventory with lines within the limit is accepted with its total and per-family counts |
| ExportLaws.UnfinishedIsRefused | internal/adoption/adoption.go:61-87 | what is written before the trailer, cut anywhere, is refused |
| ExportLaws.CountsAreCardinalities | internal/adoption/verify.go:91-92 | the count of a family is the number of its records |
| ExportLaws.LinesConcat | internal/adoption/verify.go:119-127 | the lines read make up the data exactly |
| ExportVerifier.Verify | internal/adoption/verify.go:41-115 | the streaming verifier computes the specified verdict and summary |
| ExportVerifier.Reading.Line | internal/adoption/verify.go:51-94 | one line is read or refused as specified |
| ExportVerifier.InventoryState.Allow | internal/adoption/verify.go:164-181 | accepts exactly the ordered selections of known families that hold the common ones |
| ExportVerifier.InventoryState.Add | internal/adoption/verify.go:183-222 | accepts a record exactly when it is admissible, well keyed and has its parents, and then enters it |
| ExportVerifier.InventoryState.AddCommon | internal/adoption/verify.go:223-275 | the checks and entry of the common families |
| ExportVerifier.InventoryState.AddBusiness | internal/adoption/verify.go:280-308 | the checks of the business families, which change nothing |
| ExportVerifier.Export | internal/adoption/adoption.go:63-100 | succeeds exactly on a readable, writable, non-empty inventory; on failure the output is unfinished |
| Placeholders.MaskedHasNone | plugins/pseudonymizer/placeholder.go:89-103 | a masked text holds no placeholder |
| Placeholders.MaskPlaceholders | plugins/pseudonymizer/placeholder.go:89-103 | the scan makes every placeholder inert, counts the node's own and lists the foreign ones in order |
| Placeholders.UnmaskAll | plugins/pseudonymizer/placeholder.go:109-120 | the loop replaces first occurrences in order and counts the missing |
| Unmasking.TokensAreCanonical | plugins/pseudonymizer/placeholder.go:12 | every text reads as placeholders, inert forms and characters, and spells back |
| Unmasking.CanonicalSwitched | plugins/pseudonymizer/placeholder.go:48-50 | making placeholders inert or live creates and destroys no other one |
| Restoring.UnmaskRestoresIff | plugins/pseudonymizer/placeholder.go:82-120 | unmasking a masked text misses nothing, and restores it with only the node's own placeholders neutralized if and only if no inert form written in it stands before a foreign placeholder of that name |
| Restoring.UnmaskAnonymized | plugins/pseudonymizer/placeholder.go:105-120 | on any rewriting that keeps the inert forms in order, unmasking brings each back as the original had it, misses nothing and leaves the rest alone |
| Restoring.WrittenFormSwaps | plugins/pseudonymizer/placeholder.go:109-120 | for every foreign name, its inert form written before its placeholder defeats the restoration |
| Restoring.ReplaceIsToLive | plugins/pseudonymizer/placeholder.go:112-118 | the first textual occurrence of an inert form is the first inert token of that name |
| Restoring.UnmaskRestores | plugins/pseudonymizer/placeholder.go:109-120 | unmasking makes live as many first inert forms of a name as it was masked times, and changes nothing else |
| Restoring.NeutralizeIsQuiet | plugins/pseudonymizer/placeholder.go:56-69 | the scan over text rewrites exactly the chosen placeholders |
| SessionPool.PoolIsSafe | plugins/mcp-bridge/plugin.go:75-219 | after any interleaving the maps are inverse, a race loser is neither pooled nor handed out, and a request whose scope is NUL-free is only handed a connector built for that scope, whatever scopes the others ask for |
| SessionPool.SeparatorMixesScopes | plugins/mcp-bridge/plugin.go:75-137 | for every scope with a NUL some interleaving hands it a connector built for another |
| SessionPool.StepKeeps | plugins/mcp-bridge/plugin.go:75-137 | every atomic step keeps the pool's invariant |
| SessionPool.HandedAlive | plugins/mcp-bridge/plugin.go:93-137 | a request is handed a connector it found alive, one it published, or the one it lost to; a connector found retired leaves the pool |
| SessionPool.LosersAreClosed | plugins/mcp-bridge/plugin.go:122-129 | after any interleaving, every connector that lost its race is closed, or its builder is about to close it |
| SessionPool.KeyIsOwnIff | plugins/mcp-bridge/plugin.go:144-146 | a scope shares its key with no other if and only if no component holds a NUL |
| SessionPool.CleanKeyIsOwn | plugins/mcp-bridge/plugin.go:144-146 | a scope that has the key of a NUL-free one is that scope |
| SessionPool.SeparatorCollides | plugins/mcp-bridge/plugin.go:144-146 | a NUL in any of the five components gives another scope the same key |
| SessionPool.Pool.Lookup | plugins/mcp-bridge/plugin.go:85-91 | a connector found is the one registered under that key |
| SessionPool.Pool.Publish | plugins/mcp-bridge/plugin.go:114-137 | the key is served by the first to publish; a loser stays out of both maps |
| SessionPool.Pool.Forget | plugins/mcp-bridge/plugin.go:188-199 | the connector leaves both maps, others stay |
| SessionPool.Pool.TakeAll | plugins/mcp-bridge/plugin.go:206-219 | the pool is emptied and what it held is returned |
| CatalogSource.SourceIsSingleFlight | internal/catalog/source.go:58-116 | over every interleaving one fetch runs at most, each channel is closed exactly once when its fetch ends, no caller waits on a channel nobody closes, and what is served is the last release obtained, or the error of the last fetch |
| CatalogSource.StepKeeps | internal/catalog/source.go:58-116 | every step keeps that invariant and never loses a release; a fetch is started exactly by a refresh, or by a read that finds one due, of a remote source with none in flight |
| CatalogSource.Source.Catalog | internal/catalog/source.go:58-76 | answers from the current release and starts a fetch exactly when one is due and none runs |
| CatalogSource.Source.Refresh | internal/catalog/source.go:81-100 | the caller runs a new fetch or gets the channel of the one in flight |
| CatalogSource.Source.Finish | internal/catalog/source.go:102-116 | a failure keeps the release, a success replaces it and clears the error |
| ModelLoader.LoaderIsSingleFlight | plugins/pseudonymizer/model.go:242-273 | over every interleaving one load per key runs at a time, each channel is closed once, a failed load leaves its key free and a success keeps it |
| ModelLoader.ModelIsNeverLost | plugins/pseudonymizer/model.go:242-273 | a load that is over keeps its result, and a model stays its key's for good |
| ModelLoader.ResultIsGiven | plugins/pseudonymizer/model.go:256-273 | a load keeps its key, and what it comes to, model or error, is what its own end gave |
| ModelLoader.RemoveKeeps | plugins/pseudonymizer/model.go:259-263 | removing by key removes the failing load's own entry |
| ModelLoader.SlotsAreBounded | plugins/pseudonymizer/model.go:298-310 | at most maxDecisions readings hold a slot, and giving one back never waits |
| ModelLoader.Models.Get | plugins/pseudonymizer/model.go:242-254 | is the step of the state machine that asks for a key: a load is started exactly when the key has none |
| ModelLoader.Models.RemoveFailed | plugins/pseudonymizer/model.go:259-263 | is the step of the state machine that removes a failed load: the entry deleted is that load's own, nothing else changes |
| Estimator.EstimateIsOrderedIff | internal/estimator/cloud.go:182-243 | low <= high always; low <= mid <= high in energy if and only if there are no tokens, the floor is active, or the two throughputs satisfy an inequality in the preset, the parameters and the tokens |
| Estimator.EstimateIsOrdered | internal/estimator/cloud.go:182-243 | the energies are in order when the throughputs differ by no more than the powers do, so whenever the low one is the faster; the durations are in order if and only if it is |
| Estimator.SmallModelsAreOrdered | internal/estimator/cloud.go:217-227 | under twenty billion parameters the energies are in order for every preset and any throughputs |
| Estimator.FitIff | internal/estimator/cloud.go:228-233 | in the hybrid regime the middle is between the ends if and only if the throughputs fit |
| Estimator.TdpIsOrderedIff | internal/estimator/cloud.go:247-254 | the first method's estimates are in order if and only if the throughputs differ by no more than the powers do, whatever the tokens |
| Estimator.DurationIsWork | internal/estimator/cloud.go:304-324 | durations are inversely proportional to the throughput |
| Estimator.EstimateGrows | internal/estimator/cloud.go:182-243 | each of the three energies never falls when input or output tokens grow, whatever the throughputs |
| Estimator.PointUnits | internal/estimator/cloud.go:326-340 | the units of a point agree, and its shares per token make up the whole |
| Estimator.EstimateParts | internal/estimator/cloud.go:235-242 | the three points are for the tokens of the request, the middle takes the mean time, and with the floor active is the middle of the second method |
| Estimator.FloorLifts | internal/estimator/cloud.go:216-220 | the floor is active exactly when it lifts the low power |
| Estimator.WorkedExample | internal/estimator/cloud.go:247-324 | the four estimates and the time of one stated request |
| Estimator.AutoThroughputsOrdered | internal/estimator/cloud.go:193-198 | throughputs left to the heuristic are in order |
| Estimator.PresetsAreProper | internal/estimator/cloud.go:75-110 | the three presets meet the hypotheses |
| Estimator.ReversedThroughputsBreakOrder | internal/estimator/cloud.go:228-233 | a small provider, a hundred billion parameters and reversed throughputs put the middle out of the range |
| Estimator.DurationUp | internal/estimator/cloud.go:304-324 | more tokens or a lower throughput take at least as long |
| Estimator.MeanBetween | internal/estimator/cloud.go:342-347 | a geometric mean lies between any bounds of its two values |

## Left out

- JSON encoding, SHA-256, regular expression engines and UUID syntax: abstract functions with the facts named in `Lawful` and `Faithful`.
- HTTP, TLS, gRPC, subprocesses, wiring, configuration, metrics, log lines and events.
- Frontend, templates, UI handlers and translations.
- Logic nodes (compare, select, math, sample), catalog lookup, seed data, classifier scoring: single-branch behaviour.
- `internal/deletion`: the same envelope as the adoption export with fewer checks.
- `plugins/pseudonymizer/index_key.go`: replicas that draw a key at the same time may disagree, so no agreement is claimed.
- `plugins/mcp-bridge/oauth.go`: network calls with little local state.
- The prefix that marks personal models in the visited set is a constructor of the key type; ports with a fixed meaning are constructors of the port type.
- Wall-clock time: a caller being gone is a function of what the execution has done so far, its leaving during a turn a function of the chunks sent, a backward deadline a function of the position, a fetch being due a parameter.
- Inspectors are functions of the name and the text; one that fails does so for the same text every time.
- The syntax of pipeline IDs and the type and configuration checks of one node (internal/core/service/pipeline_graph.go:65-87) are abstract predicates of the validator.
- Error texts: refusals of an export are not told apart, other errors are constructors.
- Filling the arguments template of a conversation tool (internal/pipeline/conversation.go:179-272) is an abstract function of the messages.
- Embeddings and transcriptions of clients, and the streaming form of the fallback client.
- Floating point: the estimator is over the reals, square root and power being abstract with their laws; equivalences and carbon are not modelled.
- Connectors of a session pool are identities: their credentials, sessions and the retry after a retired connector appear only as steps that retire, forget or ask again.
