/** Rebuilding the tool calls of a streamed turn
    (internal/pipeline/tool_loop_client.go:351-402). */
module StreamTurn {
  import opened Prelude

  datatype ToolCall = ToolCall(id: string, name: string, args: string)

  /** A piece of a tool call; index says of which. */
  datatype Delta = Delta(index: int, id: string, name: string, args: string)

  /** A chunk of a stream: text and tool call pieces, or an error. */
  datatype Chunk<+E> = Content(text: string, deltas: seq<Delta>) | ErrorChunk(error: E)

  function Pieces<E>(c: Chunk<E>): seq<Delta> {
    if c.Content? then c.deltas else []
  }

  function Deltas<E>(chunks: seq<Chunk<E>>): seq<Delta> {
    if chunks == [] then [] else Deltas(chunks[..|chunks| - 1]) + Pieces(chunks[|chunks| - 1])
  }

  lemma DeltasStep<E>(chunks: seq<Chunk<E>>, i: nat)
    requires i < |chunks|
    ensures Deltas(chunks[..i + 1]) == Deltas(chunks[..i]) + Pieces(chunks[i])
  {
    assert chunks[..i + 1][..i] == chunks[..i];
  }

  // ---- Reference: what a sequence of pieces means ----------------------

  /** Indices in order of first appearance. */
  function Indices(ds: seq<Delta>): seq<int> {
    if ds == [] then []
    else
      var before := Indices(ds[..|ds| - 1]);
      var i := ds[|ds| - 1].index;
      if i in before then before else before + [i]
  }

  /** The pieces of one call, in order. */
  function PiecesOf(ds: seq<Delta>, index: int): seq<Delta> {
    if ds == [] then []
    else
      var d := ds[|ds| - 1];
      PiecesOf(ds[..|ds| - 1], index) + (if d.index == index then [d] else [])
  }

  /** One call from its pieces: arguments concatenated, the last non-empty ID
      and name kept. */
  function Joined(pieces: seq<Delta>): ToolCall {
    if pieces == [] then ToolCall("", "", "")
    else
      Extended(Joined(pieces[..|pieces| - 1]), pieces[|pieces| - 1])
  }

  function Extended(c: ToolCall, d: Delta): ToolCall {
    ToolCall(if d.id != "" then d.id else c.id, if d.name != "" then d.name else c.name, c.args + d.args)
  }

  function Assemble(ds: seq<Delta>): seq<ToolCall> {
    var order := Indices(ds);
    seq(|order|, k requires 0 <= k < |order| => CallOf(ds, order[k]))
  }

  // ---- The buffering loop ----------------------------------------------

  /** Drains a turn, filling partial calls as their pieces come. */
  method BufferTurn<E>(source: seq<Chunk<E>>) returns (chunks: seq<Chunk<E>>, calls: seq<ToolCall>)
    ensures chunks == source
    ensures calls == Assemble(Deltas(source))
  {
    chunks := [];
    var assembled: map<int, ToolCall> := map[];
    var order: seq<int> := [];
    for i := 0 to |source|
      invariant chunks == source[..i]
      invariant Partial(Deltas(source[..i]), assembled, order)
    {
      chunks := chunks + [source[i]];
      DeltasStep(source, i);
      assembled, order := AddPieces(Deltas(source[..i]), Pieces(source[i]), assembled, order);
    }
    assert source[..|source|] == source;
    calls := InOrder(Deltas(source), assembled, order);
  }

  /** The pieces of one chunk. */
  method AddPieces(ghost before: seq<Delta>, ds: seq<Delta>, assembled: map<int, ToolCall>, order: seq<int>)
    returns (assembled': map<int, ToolCall>, order': seq<int>)
    requires Partial(before, assembled, order)
    ensures Partial(before + ds, assembled', order')
  {
    assembled', order' := assembled, order;
    assert before + ds[..0] == before;
    for j := 0 to |ds|
      invariant Partial(before + ds[..j], assembled', order')
    {
      assert before + ds[..j + 1] == before + ds[..j] + [ds[j]];
      assembled', order' := AddPiece(before + ds[..j], ds[j], assembled', order');
    }
    assert ds[..|ds|] == ds;
  }

  method InOrder(ghost ds: seq<Delta>, assembled: map<int, ToolCall>, order: seq<int>) returns (calls: seq<ToolCall>)
    requires Partial(ds, assembled, order)
    ensures calls == Assemble(ds)
  {
    calls := [];
    for k := 0 to |order|
      invariant |order| == |Assemble(ds)| && calls == Assemble(ds)[..k]
    {
      NextCall(ds, assembled, order, k);
      calls := calls + [assembled[order[k]]];
    }
  }

  lemma NextCall(ds: seq<Delta>, assembled: map<int, ToolCall>, order: seq<int>, k: nat)
    requires Partial(ds, assembled, order) && k < |order|
    ensures order[k] in assembled && |Assemble(ds)| == |order|
    ensures Assemble(ds)[..k + 1] == Assemble(ds)[..k] + [assembled[order[k]]]
  {
    assert order[k] in Elements(order);
  }

  /** The call an index has so far. */
  function Current(assembled: map<int, ToolCall>, i: int): ToolCall {
    if i in assembled then assembled[i] else ToolCall("", "", "")
  }

  /** One piece more: a new index opens a call, other pieces fill theirs. */
  method AddPiece(ghost seen: seq<Delta>, d: Delta, assembled: map<int, ToolCall>, order: seq<int>)
    returns (assembled': map<int, ToolCall>, order': seq<int>)
    requires Partial(seen, assembled, order)
    ensures Partial(seen + [d], assembled', order')
  {
    var a := ToolCall("", "", "");
    order' := order;
    if d.index in assembled {
      a := assembled[d.index];
    } else {
      order' := order + [d.index];
    }
    if d.id != "" { a := a.(id := d.id); }
    if d.name != "" { a := a.(name := d.name); }
    a := a.(args := a.args + d.args);
    assert a == Extended(Current(assembled, d.index), d);
    assembled' := assembled[d.index := a];
    PartialStep(seen, d, assembled, order);
  }

  lemma PartialStep(seen: seq<Delta>, d: Delta, assembled: map<int, ToolCall>, order: seq<int>)
    requires Partial(seen, assembled, order)
    ensures Partial(seen + [d], assembled[d.index := Extended(Current(assembled, d.index), d)],
                    if d.index in assembled then order else order + [d.index])
  {
    IndicesStep(seen, d);
    CurrentIsSeen(seen, assembled, order, d.index);
    ShowsMore(seen, d, assembled);
    assert Elements(order + [d.index]) == Elements(order) + {d.index};
  }

  lemma ShowsMore(seen: seq<Delta>, d: Delta, assembled: map<int, ToolCall>)
    requires Shows(seen, assembled) && Current(assembled, d.index) == CallOf(seen, d.index)
    ensures Shows(seen + [d], assembled[d.index := Extended(Current(assembled, d.index), d)])
  {
    CallsStep(seen, d);
  }

  lemma CurrentIsSeen(seen: seq<Delta>, assembled: map<int, ToolCall>, order: seq<int>, i: int)
    requires Partial(seen, assembled, order)
    ensures Current(assembled, i) == CallOf(seen, i)
  {
    if i !in assembled { UnseenHasNoPieces(seen, i); }
  }

  /** The call the pieces of an index make up. */
  function CallOf(ds: seq<Delta>, i: int): ToolCall {
    Joined(PiecesOf(ds, i))
  }

  lemma CallsStep(ds: seq<Delta>, d: Delta)
    ensures CallOf(ds + [d], d.index) == Extended(CallOf(ds, d.index), d)
    ensures forall i :: i != d.index ==> CallOf(ds + [d], i) == CallOf(ds, i)
  {
    JoinedStep(ds, d);
  }

  /** The partial calls hold exactly the pieces seen. */
  ghost predicate Partial(ds: seq<Delta>, assembled: map<int, ToolCall>, order: seq<int>) {
    order == Indices(ds) && assembled.Keys == Elements(order) && Shows(ds, assembled)
  }

  ghost predicate Shows(ds: seq<Delta>, assembled: map<int, ToolCall>) {
    forall i {:trigger assembled[i]} :: i in assembled ==> assembled[i] == CallOf(ds, i)
  }

  lemma IndicesStep(ds: seq<Delta>, d: Delta)
    ensures Indices(ds + [d]) == if d.index in Indices(ds) then Indices(ds) else Indices(ds) + [d.index]
  {
    assert (ds + [d])[..|ds|] == ds;
  }

  lemma JoinedStep(ds: seq<Delta>, d: Delta)
    ensures Joined(PiecesOf(ds + [d], d.index)) == Extended(Joined(PiecesOf(ds, d.index)), d)
    ensures forall i :: i != d.index ==> PiecesOf(ds + [d], i) == PiecesOf(ds, i)
  {
    assert (ds + [d])[..|ds|] == ds;
    var p := PiecesOf(ds, d.index);
    assert (p + [d])[..|p|] == p;
    forall i | i != d.index ensures PiecesOf(ds + [d], i) == PiecesOf(ds, i) {
      assert PiecesOf(ds + [d], i) == PiecesOf(ds, i) + [];
    }
  }

  lemma {:induction false} UnseenHasNoPieces(ds: seq<Delta>, i: int)
    requires i !in Indices(ds)
    ensures PiecesOf(ds, i) == []
  {
    if ds != [] {
      var before := Indices(ds[..|ds| - 1]);
      assert i !in before;
      UnseenHasNoPieces(ds[..|ds| - 1], i);
    }
  }

  // ---- Fragmentation ---------------------------------------------------

  function Args(pieces: seq<Delta>): string {
    if pieces == [] then "" else Args(pieces[..|pieces| - 1]) + pieces[|pieces| - 1].args
  }

  /** pieces cut one call up: its arguments in order, its ID and name on some of
      them at least. */
  ghost predicate Cuts(pieces: seq<Delta>, call: ToolCall) {
    && Args(pieces) == call.args
    && (forall d :: d in pieces ==> d.id in {"", call.id} && d.name in {"", call.name})
    && (call.id != "" ==> exists d :: d in pieces && d.id == call.id)
    && (call.name != "" ==> exists d :: d in pieces && d.name == call.name)
  }

  /** ds interleaves, in any way, pieces of the calls, the calls being opened
      in order. */
  ghost predicate Fragments(ds: seq<Delta>, calls: seq<ToolCall>) {
    && |Indices(ds)| == |calls|
    && forall k :: 0 <= k < |calls| ==> Cuts(PiecesOf(ds, Indices(ds)[k]), calls[k])
  }

  lemma {:induction false} JoinedCuts(pieces: seq<Delta>, call: ToolCall)
    requires forall d :: d in pieces ==> d.id in {"", call.id} && d.name in {"", call.name}
    ensures Joined(pieces).args == Args(pieces)
    ensures Joined(pieces).id == if exists d :: d in pieces && d.id != "" then call.id else ""
    ensures Joined(pieces).name == if exists d :: d in pieces && d.name != "" then call.name else ""
  {
    if pieces != [] {
      var init, last := pieces[..|pieces| - 1], pieces[|pieces| - 1];
      assert forall d :: d in pieces <==> d in init || d == last;
      JoinedCuts(init, call);
    }
  }

  /** However the calls of a turn are cut up and interleaved, they are rebuilt. */
  lemma FragmentsAssemble(ds: seq<Delta>, calls: seq<ToolCall>)
    requires Fragments(ds, calls)
    ensures Assemble(ds) == calls
  {
    forall k | 0 <= k < |calls| ensures Joined(PiecesOf(ds, Indices(ds)[k])) == calls[k] {
      JoinedCuts(PiecesOf(ds, Indices(ds)[k]), calls[k]);
    }
  }
}
