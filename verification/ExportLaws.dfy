/** What an accepted export holds, and that exports of consistent inventories
    are accepted (internal/adoption/verify.go:41-127, internal/adoption/adoption.go:63-100). */
module ExportLaws {
  import opened Prelude
  import opened Inventory
  import opened Exports

  function Concat(lines: seq<Bytes>): Bytes {
    if lines == [] then [] else lines[0] + Concat(lines[1..])
  }

  lemma {:induction false} ConcatAppend(a: seq<Bytes>, b: seq<Bytes>)
    ensures Concat(a + b) == Concat(a) + Concat(b)
  {
    if a == [] {
      assert a + b == b;
    } else {
      assert (a + b)[1..] == a[1..] + b;
      ConcatAppend(a[1..], b);
    }
  }

  lemma ConcatLast(lines: seq<Bytes>, raw: Bytes)
    ensures Concat(lines + [raw]) == Concat(lines) + raw
  {
    ConcatAppend(lines, [raw]);
    assert Concat([raw]) == raw + Concat([]);
  }

  lemma {:induction false} LinesConcat(data: Bytes)
    ensures Concat(Lines(data)) == data
    decreases |data|
  {
    if data != [] { LinesConcat(data[LineLength(data)..]); }
  }

  function Counts(records: seq<Record>): map<Family, nat> {
    if records == [] then map[] else Counted(Counts(records[..|records| - 1]), records[|records| - 1].family)
  }

  /** How many records of a family there are. */
  ghost function Positions(records: seq<Record>, f: Family): set<nat> {
    set i: nat | i < |records| && records[i].family == f
  }

  function CountOf(families: map<Family, nat>, f: Family): nat {
    if f in families then families[f] else 0
  }

  lemma PositionsStep(records: seq<Record>, r: Record, f: Family)
    ensures |Positions(records + [r], f)| == |Positions(records, f)| + if r.family == f then 1 else 0
  {
    if r.family == f {
      assert Positions(records + [r], f) == Positions(records, f) + {|records|};
    } else {
      assert Positions(records + [r], f) == Positions(records, f);
    }
  }

  lemma {:induction false} CountsAreCardinalities(records: seq<Record>, f: Family)
    ensures CountOf(Counts(records), f) == |Positions(records, f)|
  {
    if records == [] {
      assert Positions(records, f) == {};
    } else {
      var init, r := records[..|records| - 1], records[|records| - 1];
      CountsAreCardinalities(init, f);
      PositionsStep(init, r, f);
      assert init + [r] == records;
    }
  }

  // ---- What is read ----------------------------------------------------

  predicate Fits(raw: Bytes) {
    Terminated(raw) && |raw| <= MaxLineSize
  }

  function Body(raw: Bytes): Bytes
    requires raw != []
  { raw[..|raw| - 1] }

  predicate IsHeader(c: Codec, raw: Bytes, h: Header) {
    Fits(raw) && c.header(Body(raw)) == Some(h) && Compatible(h)
  }

  predicate IsRecord(c: Codec, raw: Bytes, r: Record) {
    Fits(raw) && c.probe(Body(raw)) == Some(false) && c.record(Body(raw)) == Some(r)
  }

  predicate IsTrailer(c: Codec, raw: Bytes, t: Trailer) {
    Fits(raw) && c.probe(Body(raw)) == Some(true) && c.trailer(Body(raw)) == Some(t)
  }

  /** A header, then one line per record. */
  ghost predicate Holds(c: Codec, lines: seq<Bytes>, h: Header, records: seq<Record>) {
    && |lines| == |records| + 1
    && IsHeader(c, lines[0], h)
    && forall i :: 0 <= i < |records| ==> IsRecord(c, lines[i + 1], records[i])
  }

  ghost function ReadSoFar(c: Codec, lines: seq<Bytes>, h: Header, records: seq<Record>, s: State): Progress {
    Progress(|lines|, h.source, h.cursor, Concat(lines), s, None, |records|, Counts(records))
  }

  function Inventoried(c: Codec, h: Header, records: seq<Record>): Option<State> {
    AddAll(c.rules, InitialState(Elements(h.families)), records)
  }

  lemma HoldsPrefix(c: Codec, lines: seq<Bytes>, h: Header, records: seq<Record>)
    requires Holds(c, lines, h, records) && records != []
    ensures Holds(c, lines[..|lines| - 1], h, records[..|records| - 1])
    ensures IsRecord(c, lines[|lines| - 1], records[|records| - 1])
  {
    assert IsRecord(c, lines[|records| - 1 + 1], records[|records| - 1]);
  }

  lemma HeaderRead(c: Codec, raw: Bytes, h: Header)
    requires IsHeader(c, raw, h)
    ensures ReadAll(c, [raw]) == Some(ReadSoFar(c, [raw], h, [], InitialState(Elements(h.families))))
  {
    ReadStep(c, [], raw);
    assert [] + [raw] == [raw];
    assert Concat([raw]) == raw + Concat([]);
    assert Start.covered + raw == raw + [];
  }

  lemma RecordRead(c: Codec, lines: seq<Bytes>, h: Header, records: seq<Record>, s: State, raw: Bytes, r: Record)
    requires IsRecord(c, raw, r) && lines != [] && Added(c.rules, s, r).Some?
    ensures ReadLine(c, ReadSoFar(c, lines, h, records, s), raw)
         == Some(ReadSoFar(c, lines + [raw], h, records + [r], Added(c.rules, s, r).value))
  {
    LineIsRecord(c, ReadSoFar(c, lines, h, records, s), raw, r, Added(c.rules, s, r).value);
    SoFarMore(c, lines, h, records, s, raw, r, Added(c.rules, s, r).value);
  }

  function WithRecord(p: Progress, raw: Bytes, r: Record, s: State): Progress {
    p.(line := p.line + 1, covered := p.covered + raw, inventory := s, count := p.count + 1,
        families := Counted(p.families, r.family))
  }

  lemma LineIsRecord(c: Codec, p: Progress, raw: Bytes, r: Record, s: State)
    requires IsRecord(c, raw, r) && p.line > 0 && p.trailer.None? && Added(c.rules, p.inventory, r) == Some(s)
    ensures ReadLine(c, p, raw) == Some(WithRecord(p, raw, r, s))
  {
  }

  lemma SoFarMore(
    c: Codec, lines: seq<Bytes>, h: Header, records: seq<Record>, s: State, raw: Bytes, r: Record, s': State)
    ensures WithRecord(ReadSoFar(c, lines, h, records, s), raw, r, s') ==
            ReadSoFar(c, lines + [raw], h, records + [r], s')
  {
    ConcatLast(lines, raw);
    assert (records + [r])[..|records|] == records;
  }

  lemma InventoriedStep(c: Codec, h: Header, records: seq<Record>, r: Record)
    ensures Inventoried(c, h, records + [r])
         == (var s := Inventoried(c, h, records); if s.None? then None else Added(c.rules, s.value, r))
  {
    assert (records + [r])[..|records|] == records;
  }

  /** Lines that hold records are read as those records, when the state admits
      them all. */
  lemma {:induction false} HeldIsRead(c: Codec, lines: seq<Bytes>, h: Header, records: seq<Record>)
    requires Holds(c, lines, h, records) && Inventoried(c, h, records).Some?
    ensures ReadAll(c, lines) == Some(ReadSoFar(c, lines, h, records, Inventoried(c, h, records).value))
  {
    if records == [] {
      assert lines == [lines[0]];
      HeaderRead(c, lines[0], h);
    } else {
      var init, before := lines[..|lines| - 1], records[..|records| - 1];
      var raw, r := lines[|lines| - 1], records[|records| - 1];
      assert init + [raw] == lines && before + [r] == records;
      HoldsPrefix(c, lines, h, records);
      InventoriedStep(c, h, before, r);
      HeldIsRead(c, init, h, before);
      RecordRead(c, init, h, before, Inventoried(c, h, before).value, raw, r);
      ReadStep(c, init, raw);
    }
  }

  lemma HoldsMore(c: Codec, lines: seq<Bytes>, h: Header, records: seq<Record>, raw: Bytes, r: Record)
    requires Holds(c, lines, h, records) && IsRecord(c, raw, r)
    ensures Holds(c, lines + [raw], h, records + [r])
  {
  }

  /** A line that leaves no trailer, after others, is a record admitted. */
  lemma RecordHeld(c: Codec, p: Progress, raw: Bytes) returns (r: Record)
    requires p.line > 0 && ReadLine(c, p, raw).Some? && ReadLine(c, p, raw).value.trailer.None?
    ensures p.trailer.None? && IsRecord(c, raw, r) && Added(c.rules, p.inventory, r).Some?
  {
    r := c.record(Body(raw)).value;
  }

  /** The lines are read as a header and records, admitted one after the other. */
  ghost predicate ReadAs(c: Codec, lines: seq<Bytes>, h: Header, records: seq<Record>) {
    && Holds(c, lines, h, records) && Inventoried(c, h, records).Some?
    && ReadAll(c, lines) == Some(ReadSoFar(c, lines, h, records, Inventoried(c, h, records).value))
  }

  lemma FirstReadAs(c: Codec, raw: Bytes) returns (h: Header)
    requires ReadAll(c, [raw]).Some?
    ensures ReadAs(c, [raw], h, [])
  {
    ReadStep(c, [], raw);
    assert [] + [raw] == [raw];
    h := c.header(Body(raw)).value;
    HeaderRead(c, raw, h);
  }

  lemma OneMoreReadAs(c: Codec, lines: seq<Bytes>, h: Header, records: seq<Record>, raw: Bytes) returns (r: Record)
    requires ReadAs(c, lines, h, records)
    requires ReadAll(c, lines + [raw]).Some? && ReadAll(c, lines + [raw]).value.trailer.None?
    ensures ReadAs(c, lines + [raw], h, records + [r])
  {
    ReadStep(c, lines, raw);
    r := RecordHeld(c, ReadAll(c, lines).value, raw);
    HoldsMore(c, lines, h, records, raw, r);
    RecordRead(c, lines, h, records, Inventoried(c, h, records).value, raw, r);
    InventoriedStep(c, h, records, r);
  }

  lemma {:induction false} ReadIsHeld(c: Codec, lines: seq<Bytes>) returns (h: Header, records: seq<Record>)
    requires lines != [] && ReadAll(c, lines).Some? && ReadAll(c, lines).value.trailer.None?
    ensures ReadAs(c, lines, h, records)
  {
    var init, raw := lines[..|lines| - 1], lines[|lines| - 1];
    assert init + [raw] == lines;
    if init == [] {
      assert lines == [raw];
      h := FirstReadAs(c, raw);
      records := [];
    } else {
      ReadBefore(c, init, raw);
      h, records := ReadIsHeld(c, init);
      var r := OneMoreReadAs(c, init, h, records, raw);
      records := records + [r];
    }
  }

  lemma ReadBefore(c: Codec, lines: seq<Bytes>, raw: Bytes)
    requires lines != [] && ReadAll(c, lines + [raw]).Some?
    ensures ReadAll(c, lines).Some? && ReadAll(c, lines).value.trailer.None?
  {
    ReadStep(c, lines, raw);
  }

  lemma TrailerHeld(c: Codec, p: Progress, raw: Bytes)
    requires p.line > 0 && ReadLine(c, p, raw).Some? && ReadLine(c, p, raw).value.trailer.Some?
    ensures p.trailer.None?
    ensures var t := ReadLine(c, p, raw).value.trailer.value;
            IsTrailer(c, raw, t) && ReadLine(c, p, raw).value == p.(line := p.line + 1, trailer := Some(t))
  {
  }

  lemma {:induction false} NoFirstTrailer(c: Codec, lines: seq<Bytes>)
    requires ReadAll(c, lines).Some? && lines != []
    ensures ReadAll(c, lines).value.line > 0
    ensures |lines| == 1 ==> ReadAll(c, lines).value.trailer.None?
  {
    if |lines| == 1 { assert lines[..0] == []; }
  }

  /** Known families, each once and in order, the common ones among them. */
  ghost predicate Selection(families: seq<Family>) {
    && (forall f :: f in families ==> f in Families)
    && (forall f :: f in CommonFamilies ==> f in families)
    && (forall i, j :: 0 <= i < j < |families| ==> Index(families[i]) < Index(families[j]))
  }

  lemma AllowedIsSelection(families: seq<Family>)
    ensures Allowed(families) <==> Selection(families)
  {
    forall i | 0 <= i < |families| ensures Index(families[i]) >= 0 <==> families[i] in Families {
      FamiliesAreIndexed(families[i]);
    }
  }

  /** An accepted export is a header, records and a trailer, whose records are
      referentially closed, free of duplicates, as many as announced, and
      covered by the digest. */
  lemma AcceptedHoldsClosedRecords(c: Codec, data: Bytes) returns (h: Header, records: seq<Record>, t: Trailer)
    requires Lawful(c.rules) && Verified(c, data).Some?
    ensures var lines := Lines(data);
            && |lines| == |records| + 2
            && Holds(c, lines[..|lines| - 1], h, records)
            && IsTrailer(c, lines[|lines| - 1], t)
            && t.complete && t.count == |records|
            && t.sha256 == c.digest(Concat(lines[..|lines| - 1]))
    ensures Closed(records) && DuplicateFree(records) && Ordered(records) && AllKeyed(c.rules, records)
    ensures forall r :: r in records ==> Complete(c.rules, Elements(h.families), r)
    ensures h.version == Version && h.contract == Contract && h.source != "" && h.cursor != ""
    ensures Selection(h.families)
    ensures Verified(c, data) == Some(Summary(h.source, h.cursor, |records|, Counts(records)))
    ensures CountOf(Counts(records), Tenant) > 0
  {
    AcceptedEnds(c, data);
    var lines := Lines(data);
    var init, raw := lines[..|lines| - 1], lines[|lines| - 1];
    NoFirstTrailer(c, lines);
    NoFirstTrailer(c, init);
    TrailerHeld(c, ReadAll(c, init).value, raw);
    t := c.trailer(Body(raw)).value;
    h, records := ReadIsHeld(c, init);
    AcceptedIsClosed(c.rules, Elements(h.families), records);
    AllowedIsSelection(h.families);
  }

  // ---- What is written -------------------------------------------------

  function HeaderOf(source: string, cursor: string): Header {
    Header(Version, Contract, source, cursor, Families)
  }

  function HeaderLine(c: Codec, source: string, cursor: string): Bytes {
    c.writeHeader(HeaderOf(source, cursor)) + [Newline]
  }

  function RecordLine(c: Codec, r: Record): Bytes
    requires c.writeRecord(r).Some?
  {
    c.writeRecord(r).value + [Newline]
  }

  predicate Writable(c: Codec, items: seq<Record>) {
    forall r :: r in items ==> c.writeRecord(r).Some?
  }

  /** The lines before the trailer. */
  function WrittenLines(c: Codec, source: string, cursor: string, items: seq<Record>): seq<Bytes>
    requires Writable(c, items)
  {
    if items == [] then [HeaderLine(c, source, cursor)]
    else
      var r := items[|items| - 1];
      assert r in items;
      WrittenLines(c, source, cursor, items[..|items| - 1]) + [RecordLine(c, r)]
  }

  function TrailerLine(c: Codec, count: nat, covered: Bytes): Bytes {
    c.writeTrailer(Trailer(count, true, c.digest(covered))) + [Newline]
  }

  function Exported(c: Codec, source: string, cursor: string, items: seq<Record>): Bytes
    requires Writable(c, items)
  {
    var covered := Concat(WrittenLines(c, source, cursor, items));
    covered + TrailerLine(c, |items|, covered)
  }

  predicate OneLine(raw: Bytes) {
    Terminated(raw) && Newline !in raw[..|raw| - 1]
  }

  lemma WithNewline(body: Bytes)
    requires Newline !in body
    ensures OneLine(body + [Newline]) && Body(body + [Newline]) == body
  {
  }

  lemma LinesOfOne(raw: Bytes)
    requires OneLine(raw)
    ensures Lines(raw) == [raw]
  {
    var body := raw[..|raw| - 1];
    assert body + [Newline] == raw;
    IndexOfFirst(body, [Newline], Newline);
    assert raw[..|raw|] == raw && raw[|raw|..] == [];
  }

  lemma FirstLine(raw: Bytes, rest: Bytes)
    requires OneLine(raw)
    ensures Lines(raw + rest) == [raw] + Lines(rest)
  {
    LinesOfWhole(raw, rest);
    LinesOfOne(raw);
  }

  lemma {:induction false} LinesOfConcat(lines: seq<Bytes>)
    requires forall l :: l in lines ==> OneLine(l)
    ensures Lines(Concat(lines)) == lines
  {
    if lines != [] {
      assert lines[0] in lines;
      LinesOfConcat(lines[1..]);
      FirstLine(lines[0], Concat(lines[1..]));
    }
  }

  lemma {:induction false} WrittenOneLines(c: Codec, source: string, cursor: string, items: seq<Record>)
    requires Faithful(c) && Writable(c, items)
    ensures forall l :: l in WrittenLines(c, source, cursor, items) ==> OneLine(l)
  {
    if items == [] {
      WithNewline(c.writeHeader(HeaderOf(source, cursor)));
    } else {
      var r := items[|items| - 1];
      WrittenOneLines(c, source, cursor, items[..|items| - 1]);
      assert r in items && WrittenWell(c, r, c.writeRecord(r).value);
      WithNewline(c.writeRecord(r).value);
    }
  }

  lemma FamiliesAllowed()
    ensures Allowed(Families)
  {
    forall f | f in CommonFamilies ensures f in Families {
    }
  }

  function CompactedAll(c: Codec, items: seq<Record>): seq<Record> {
    if items == [] then [] else CompactedAll(c, items[..|items| - 1]) + [Compacted(c, items[|items| - 1])]
  }

  /** Lines within the limit. */
  predicate AllFit(lines: seq<Bytes>) {
    forall l :: l in lines ==> |l| <= MaxLineSize
  }

  lemma {:induction false} WrittenHolds(c: Codec, source: string, cursor: string, items: seq<Record>)
    requires Faithful(c) && Writable(c, items) && source != "" && cursor != ""
    requires AllFit(WrittenLines(c, source, cursor, items))
    ensures Holds(c, WrittenLines(c, source, cursor, items), HeaderOf(source, cursor), CompactedAll(c, items))
  {
    var lines := WrittenLines(c, source, cursor, items);
    if items == [] {
      FamiliesAllowed();
      WithNewline(c.writeHeader(HeaderOf(source, cursor)));
      assert lines[0] in lines;
    } else {
      var init, r := items[..|items| - 1], items[|items| - 1];
      assert r in items && WrittenWell(c, r, c.writeRecord(r).value);
      WithNewline(c.writeRecord(r).value);
      assert RecordLine(c, r) in lines;
      WrittenHolds(c, source, cursor, init);
      HoldsMore(c, WrittenLines(c, source, cursor, init), HeaderOf(source, cursor), CompactedAll(c, init),
          RecordLine(c, r), Compacted(c, r));
    }
  }

  /** Compacting changes neither what is admitted nor what is counted. */
  lemma {:induction false} CompactedAddsAlike(c: Codec, s: State, items: seq<Record>)
    requires Faithful(c)
    ensures AddAll(c.rules, s, CompactedAll(c, items)) == AddAll(c.rules, s, items)
  {
    if items != [] {
      var init, r := items[..|items| - 1], items[|items| - 1];
      CompactedAddsAlike(c, s, init);
      assert (CompactedAll(c, init) + [Compacted(c, r)])[..|CompactedAll(c, init)|] == CompactedAll(c, init);
      if AddAll(c.rules, s, init).Some? { CompactedAddsAs(c, AddAll(c.rules, s, init).value, r); }
    }
  }

  lemma CompactedAddsAs(c: Codec, s: State, r: Record)
    requires Faithful(c)
    ensures Added(c.rules, s, Compacted(c, r)) == Added(c.rules, s, r)
  {
  }

  lemma {:induction false} CompactedCountsAlike(c: Codec, items: seq<Record>)
    ensures Counts(CompactedAll(c, items)) == Counts(items) && |CompactedAll(c, items)| == |items|
  {
    if items != [] {
      var init, r := items[..|items| - 1], items[|items| - 1];
      CompactedCountsAlike(c, init);
      assert (CompactedAll(c, init) + [Compacted(c, r)])[..|CompactedAll(c, init)|] == CompactedAll(c, init);
    }
  }

  lemma ClosedHasTenant(records: seq<Record>)
    requires Closed(records) && records != []
    ensures CountOf(Counts(records), Tenant) > 0
  {
    CountsAreCardinalities(records, Tenant);
    var r := records[0];
    assert r in records && HasParents(records, r.family, r.key);
    KeyShown(records, 0);
    var k :| k in Keys(records, Tenant);
    var i := KeyWitness(records, Tenant, k);
    assert i in Positions(records, Tenant);
  }

  lemma ExportedLines(c: Codec, source: string, cursor: string, items: seq<Record>)
    requires Faithful(c) && Writable(c, items)
    ensures var lines := WrittenLines(c, source, cursor, items);
            Lines(Exported(c, source, cursor, items)) == lines + [TrailerLine(c, |items|, Concat(lines))]
  {
    var lines := WrittenLines(c, source, cursor, items);
    var last := TrailerLine(c, |items|, Concat(lines));
    WrittenOneLines(c, source, cursor, items);
    WithNewline(c.writeTrailer(Trailer(|items|, true, c.digest(Concat(lines)))));
    ConcatLast(lines, last);
    LinesOfConcat(lines + [last]);
  }

  lemma WrittenRead(c: Codec, source: string, cursor: string, items: seq<Record>) returns (p: Progress)
    requires Faithful(c) && Writable(c, items) && source != "" && cursor != ""
    requires Consistent(c.rules, Elements(Families), items)
    requires AllFit(WrittenLines(c, source, cursor, items))
    ensures var lines := WrittenLines(c, source, cursor, items);
            && ReadAll(c, lines) == Some(p)
            && p == Progress(|items| + 1, source, cursor, Concat(lines), p.inventory, None, |items|, Counts(items))
  {
    var lines := WrittenLines(c, source, cursor, items);
    WrittenHolds(c, source, cursor, items);
    CompactedAddsAlike(c, InitialState(Elements(Families)), items);
    CompactedCountsAlike(c, items);
    ConsistentIsAccepted(c.rules, Elements(Families), items);
    HeldIsRead(c, lines, HeaderOf(source, cursor), CompactedAll(c, items));
    p := ReadAll(c, lines).value;
  }

  lemma TrailerRead(c: Codec, p: Progress)
    requires Faithful(c) && p.line > 0 && p.trailer == None && CountOf(p.families, Tenant) > 0
    requires |TrailerLine(c, p.count, p.covered)| <= MaxLineSize
    ensures var after := ReadLine(c, p, TrailerLine(c, p.count, p.covered));
            after.Some? && Finished(c, after.value) == Some(Summary(p.source, p.cursor, p.count, p.families))
  {
    WithNewline(c.writeTrailer(Trailer(p.count, true, c.digest(p.covered))));
  }

  /** Every export of a consistent, non-empty inventory is accepted, with the
      right counts. */
  lemma ConsistentExportAccepted(c: Codec, source: string, cursor: string, items: seq<Record>)
    requires Faithful(c) && Writable(c, items) && source != "" && cursor != ""
    requires items != [] && Consistent(c.rules, Elements(Families), items)
    requires AllFit(Lines(Exported(c, source, cursor, items)))
    ensures Verified(c, Exported(c, source, cursor, items)) == Some(Summary(source, cursor, |items|, Counts(items)))
  {
    ExportedAllFit(c, source, cursor, items);
    var p := WrittenRead(c, source, cursor, items);
    ClosedHasTenant(items);
    ReadExportAccepted(c, source, cursor, items, p);
  }

  lemma ExportedAllFit(c: Codec, source: string, cursor: string, items: seq<Record>)
    requires Faithful(c) && Writable(c, items) && AllFit(Lines(Exported(c, source, cursor, items)))
    ensures var lines := WrittenLines(c, source, cursor, items);
            AllFit(lines) && |TrailerLine(c, |items|, Concat(lines))| <= MaxLineSize
  {
    ExportedLines(c, source, cursor, items);
    var lines := WrittenLines(c, source, cursor, items);
    ExportedFits(lines, TrailerLine(c, |items|, Concat(lines)));
  }

  /** An export whose lines are read as records with a tenant is accepted. */
  lemma ReadExportAccepted(c: Codec, source: string, cursor: string, items: seq<Record>, p: Progress)
    requires Faithful(c) && Writable(c, items) && AllFit(Lines(Exported(c, source, cursor, items)))
    requires ReadAll(c, WrittenLines(c, source, cursor, items)) == Some(p) && p.trailer == None && p.line > 0
    requires p.covered == Concat(WrittenLines(c, source, cursor, items)) && p.count == |items|
            && CountOf(p.families, Tenant) > 0
    ensures Verified(c, Exported(c, source, cursor, items)) == Some(Summary(p.source, p.cursor, p.count, p.families))
  {
    ExportedAllFit(c, source, cursor, items);
    ExportedLines(c, source, cursor, items);
    TrailerRead(c, p);
    VerifiedByParts(c, Exported(c, source, cursor, items), WrittenLines(c, source, cursor, items),
        TrailerLine(c, p.count, p.covered), p);
  }

  lemma VerifiedByParts(c: Codec, data: Bytes, lines: seq<Bytes>, last: Bytes, p: Progress)
    requires Lines(data) == lines + [last] && ReadAll(c, lines) == Some(p) && ReadLine(c, p, last).Some?
    ensures Verified(c, data) == Finished(c, ReadLine(c, p, last).value)
  {
    ReadStep(c, lines, last);
  }

  lemma ExportedFits(lines: seq<Bytes>, last: Bytes)
    requires AllFit(lines + [last])
    ensures AllFit(lines) && |last| <= MaxLineSize
  {
    assert last in lines + [last];
    forall l | l in lines ensures |l| <= MaxLineSize { assert l in lines + [last]; }
  }

  // ---- Unfinished exports ----------------------------------------------

  lemma {:induction false} LinesOfPrefix(lines: seq<Bytes>, data: Bytes)
    requires forall l :: l in lines ==> OneLine(l)
    requires data <= Concat(lines)
    ensures |Lines(data)| <= |lines|
    ensures forall j :: 0 <= j < |Lines(data)| && Terminated(Lines(data)[j]) ==> Lines(data)[j] == lines[j]
  {
    if data != [] {
      var l, rest := lines[0], Concat(lines[1..]);
      assert l in lines;
      if |l| <= |data| {
        assert data[..|l|] == l && data[|l|..] <= rest;
        assert data == l + data[|l|..];
        FirstLine(l, data[|l|..]);
        LinesOfPrefix(lines[1..], data[|l|..]);
      } else {
        assert forall i :: 0 <= i < |data| ==> data[i] == l[..|l| - 1][i];
        assert Newline !in data;
        IndexOfSpec(data, Newline);
        assert data[..|data|] == data && data[|data|..] == [];
        assert Lines(data) == [data] + Lines([]);
      }
    }
  }

  /** What an export writes before its trailer, cut anywhere, is refused. */
  lemma UnfinishedIsRefused(c: Codec, source: string, cursor: string, items: seq<Record>, data: Bytes)
    requires Faithful(c) && Writable(c, items)
    requires data <= Concat(WrittenLines(c, source, cursor, items))
    ensures Verified(c, data) == None
  {
    if Verified(c, data).Some? {
      AcceptedEnds(c, data);
      var n := |Lines(data)| - 1;
      LastIsTrailer(c, Lines(data));
      WrittenOneLines(c, source, cursor, items);
      LinesOfPrefix(WrittenLines(c, source, cursor, items), data);
      LineIsNoTrailer(c, source, cursor, items, n);
    }
  }

  /** Where reading left a trailer, the last line is one, and not the first. */
  lemma LastIsTrailer(c: Codec, lines: seq<Bytes>)
    requires ReadAll(c, lines).Some? && ReadAll(c, lines).value.trailer.Some?
    ensures |lines| > 1 && Terminated(lines[|lines| - 1]) && c.probe(Body(lines[|lines| - 1])) == Some(true)
  {
    NoFirstTrailer(c, lines);
    var init, raw := lines[..|lines| - 1], lines[|lines| - 1];
    NoFirstTrailer(c, init);
    TrailerHeld(c, ReadAll(c, init).value, raw);
  }

  lemma {:induction false} LineIsNoTrailer(c: Codec, source: string, cursor: string, items: seq<Record>, n: nat)
    requires Faithful(c) && Writable(c, items) && 0 < n < |WrittenLines(c, source, cursor, items)|
    ensures var l := WrittenLines(c, source, cursor, items)[n]; l != [] && c.probe(Body(l)) == Some(false)
  {
    var r := items[|items| - 1];
    assert r in items && WrittenWell(c, r, c.writeRecord(r).value);
    var init := items[..|items| - 1];
    if n < |WrittenLines(c, source, cursor, init)| {
      LineIsNoTrailer(c, source, cursor, init, n);
    } else {
      WithNewline(c.writeRecord(r).value);
    }
  }
}
