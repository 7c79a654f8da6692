/** The adoption export format: a header, one line per record, a trailer with
    the count and the digest of every line before it
    (internal/adoption/adoption.go:28-100, internal/adoption/verify.go:18-127). */
module Exports {
  import opened Prelude
  import opened Inventory

  newtype byte = x: int | 0 <= x < 256
  type Bytes = seq<byte>

  const Newline: byte := 10
  const MaxLineSize: nat := 1048576
  const Version := "xolo-adoption/1"
  const Contract := "0.1.0-draft.3"

  datatype Header = Header(version: string, contract: string, source: string, cursor: string, families: seq<Family>)

  datatype Trailer = Trailer(count: int, complete: bool, sha256: string)

  datatype Summary = Summary(source: string, cursor: string, count: nat, families: map<Family, nat>)

  /** JSON and SHA-256. probe says of a line past the first whether it is an
      object, and if so whether it has the trailer's field; compact is what
      encoding does to a representation. */
  datatype Codec = Codec(
    rules: Rules,
    header: Bytes -> Option<Header>,
    probe: Bytes -> Option<bool>,
    trailer: Bytes -> Option<Trailer>,
    record: Bytes -> Option<Record>,
    writeHeader: Header -> Bytes,
    writeTrailer: Trailer -> Bytes,
    writeRecord: Record -> Option<Bytes>,
    compact: string -> string,
    digest: Bytes -> string)

  function Compacted(c: Codec, r: Record): Record {
    r.(representation := c.compact(r.representation))
  }

  /** Encoding loses nothing, never writes a line break, and keeps the trailer
      apart from the records. */
  ghost predicate Faithful(c: Codec) {
    && Lawful(c.rules)
    && (forall h :: Newline !in c.writeHeader(h) && c.header(c.writeHeader(h)) == Some(h))
    && (forall t ::
          && Newline !in c.writeTrailer(t)
          && c.trailer(c.writeTrailer(t)) == Some(t)
          && c.probe(c.writeTrailer(t)) == Some(true))
    && (forall r :: c.writeRecord(r).Some? ==> WrittenWell(c, r, c.writeRecord(r).value))
    && (forall x ::
          && c.rules.isObject(c.compact(x)) == c.rules.isObject(x)
          && c.rules.hasStatus(c.compact(x)) == c.rules.hasStatus(x))
  }

  ghost predicate WrittenWell(c: Codec, r: Record, line: Bytes) {
    Newline !in line && c.probe(line) == Some(false) && c.record(line) == Some(Compacted(c, r))
  }

  // ---- Lines -----------------------------------------------------------

  /** Split after each line break, keeping it; a last line may lack one. */
  function Lines(data: Bytes): seq<Bytes> {
    if data == [] then []
    else
      var n := LineLength(data);
      [data[..n]] + Lines(data[n..])
  }

  function LineLength(data: Bytes): (n: nat)
    requires data != []
    ensures 0 < n <= |data|
  {
    var i := IndexOf(data, Newline);
    if i < |data| then i + 1 else i
  }

  predicate Terminated(raw: Bytes) {
    raw != [] && raw[|raw| - 1] == Newline
  }

  // ---- Verification ----------------------------------------------------

  /** An ordered selection of the families holding the common ones. */
  predicate Allowed(families: seq<Family>) {
    && (forall i :: 0 <= i < |families| ==> Index(families[i]) >= 0)
    && (forall i, j :: 0 <= i < j < |families| ==> Index(families[i]) < Index(families[j]))
    && (forall f :: f in CommonFamilies ==> f in families)
  }

  predicate Compatible(h: Header) {
    h.version == Version && h.contract == Contract && h.source != "" && h.cursor != "" && Allowed(h.families)
  }

  datatype Progress = Progress(
    line: nat,
    source: string,
    cursor: string,
    covered: Bytes,
    inventory: State,
    trailer: Option<Trailer>,
    count: nat,
    families: map<Family, nat>)

  const Start := Progress(0, "", "", [], InitialState({}), None, 0, map[])

  function Counted(families: map<Family, nat>, f: Family): map<Family, nat> {
    families[f := (if f in families then families[f] else 0) + 1]
  }

  function ReadHeader(c: Codec, p: Progress, raw: Bytes, body: Bytes): Option<Progress> {
    match c.header(body)
    case None => None
    case Some(h) =>
      if !Compatible(h) then None
      else Some(p.(line := 1, source := h.source, cursor := h.cursor, covered := p.covered + raw,
                   inventory := InitialState(Elements(h.families))))
  }

  function ReadRecord(c: Codec, p: Progress, raw: Bytes, body: Bytes): Option<Progress> {
    match c.record(body)
    case None => None
    case Some(r) =>
      match Added(c.rules, p.inventory, r)
      case None => None
      case Some(s) => Some(p.(line := p.line + 1, covered := p.covered + raw, inventory := s,
                              count := p.count + 1, families := Counted(p.families, r.family)))
  }

  function ReadLine(c: Codec, p: Progress, raw: Bytes): Option<Progress> {
    if |raw| > MaxLineSize || !Terminated(raw) || p.trailer.Some? then None
    else
      var body := raw[..|raw| - 1];
      if p.line == 0 then ReadHeader(c, p, raw, body)
      else
        match c.probe(body)
        case None => None
        case Some(true) =>
          (match c.trailer(body)
           case None => None
           case Some(t) => Some(p.(line := p.line + 1, trailer := Some(t))))
        case Some(false) => ReadRecord(c, p, raw, body)
  }

  function ReadAll(c: Codec, lines: seq<Bytes>): Option<Progress> {
    if lines == [] then Some(Start)
    else
      var p := ReadAll(c, lines[..|lines| - 1]);
      if p.None? then None else ReadLine(c, p.value, lines[|lines| - 1])
  }

  function Finished(c: Codec, p: Progress): Option<Summary> {
    if p.line == 0 || p.trailer.None? || !p.trailer.value.complete then None
    else if p.trailer.value.count != p.count || p.trailer.value.sha256 != c.digest(p.covered) then None
    else if Tenant !in p.families || p.families[Tenant] == 0 then None
    else Some(Summary(p.source, p.cursor, p.count, p.families))
  }

  function Verified(c: Codec, data: Bytes): Option<Summary> {
    var p := ReadAll(c, Lines(data));
    if p.None? then None else Finished(c, p.value)
  }

  // ---- Accepted exports are prefix-free --------------------------------

  lemma FirstBreak(p: Bytes, q: Bytes)
    requires Newline in p
    ensures LineLength(p + q) == LineLength(p)
  {
    IndexOfSpec(p, Newline);
    var n := IndexOf(p, Newline);
    IndexOfFirst(p[..n], p[n..] + q, Newline);
    assert p[..n] + (p[n..] + q) == p + q;
  }

  lemma {:induction false} LinesOfWhole(p: Bytes, q: Bytes)
    requires p == [] || Terminated(p)
    ensures Lines(p + q) == Lines(p) + Lines(q)
    decreases |p|
  {
    if p == [] {
      assert p + q == q;
    } else {
      var n := LineLength(p);
      FirstBreak(p, q);
      LinesOfWhole(p[n..], q);
      SplitAppend(p, q, n);
    }
  }

  lemma {:induction false} ReadPrefix(c: Codec, lines: seq<Bytes>, k: nat)
    requires k <= |lines| && ReadAll(c, lines).Some?
    ensures ReadAll(c, lines[..k]).Some?
  {
    if k == |lines| {
      assert lines[..k] == lines;
    } else {
      ReadPrefix(c, lines[..|lines| - 1], k);
      assert lines[..|lines| - 1][..k] == lines[..k];
    }
  }

  lemma {:induction false} LastLineEnds(data: Bytes)
    requires data != []
    ensures Lines(data) != []
    ensures Terminated(Lines(data)[|Lines(data)| - 1]) ==> Terminated(data)
    decreases |data|
  {
    var n := LineLength(data);
    if n < |data| { LastLineEnds(data[n..]); }
  }

  lemma ReadStep(c: Codec, lines: seq<Bytes>, raw: Bytes)
    ensures ReadAll(c, lines + [raw])
         == (var p := ReadAll(c, lines); if p.None? then None else ReadLine(c, p.value, raw))
  {
    assert (lines + [raw])[..|lines|] == lines;
  }

  lemma AcceptedEnds(c: Codec, data: Bytes)
    requires Verified(c, data).Some?
    ensures Terminated(data) && ReadAll(c, Lines(data)).value.trailer.Some?
  {
    LastLineEnds(data);
  }

  /** Every proper extension of an accepted export is refused, and every proper
      prefix. */
  lemma AcceptedIsPrefixFree(c: Codec, p: Bytes, q: Bytes)
    requires Verified(c, p).Some? && Verified(c, p + q).Some?
    ensures q == []
  {
    AcceptedEnds(c, p);
    LinesOfWhole(p, q);
    if q != [] {
      var l, m := Lines(p), Lines(q);
      ReadPrefix(c, l + m, |l| + 1);
      assert (l + m)[..|l| + 1] == l + [m[0]];
      ReadStep(c, l, m[0]);
    }
  }
}
