/** Masking the placeholders of a text before anonymizing it, and putting the
    foreign ones back (plugins/pseudonymizer/placeholder.go:12, 46-120). */
module Placeholders {
  import opened Prelude

  const Open: char := '\U{27E6}'
  const Close: char := '\U{27E7}'

  predicate NameChar(c: char) {
    'A' <= c <= 'Z' || 'a' <= c <= 'z' || '0' <= c <= '9' || c == '_'
  }

  predicate Name(w: string) {
    1 <= |w| <= 128 && forall c :: c in w ==> NameChar(c)
  }

  /** How many name characters t opens on. */
  function Run(t: string): (n: nat)
    ensures n <= |t|
  {
    if t != [] && NameChar(t[0]) then 1 + Run(t[1..]) else 0
  }

  function LiveText(w: string): string { [Open] + w + [Close] }

  /** The inert form of a placeholder. */
  function InertText(w: string): string { "[[" + w + "]]" }

  /** t opens on a placeholder: the pattern matches there. */
  predicate OpensLive(t: string) {
    && |t| > 0 && t[0] == Open
    && var n := Run(t[1..]); 1 <= n <= 128 && n + 1 < |t| && t[n + 1] == Close
  }

  /** t opens on an inert form. */
  predicate OpensInert(t: string) {
    && |t| > 1 && t[0] == '[' && t[1] == '['
    && var n := Run(t[2..]); 1 <= n <= 128 && n + 3 < |t| && t[n + 2] == ']' && t[n + 3] == ']'
  }

  /** The name of the placeholder t opens on, and what follows it. */
  function HeadName(t: string): string
    requires OpensLive(t)
  { t[1..Run(t[1..]) + 1] }

  function AfterHead(t: string): string
    requires OpensLive(t)
  { t[Run(t[1..]) + 2..] }

  predicate HasPlaceholder(t: string) {
    exists i :: 0 <= i < |t| && OpensLive(t[i..])
  }

  // ---- The rewriting of the source, on text ----------------------------

  /** Rewrites every placeholder chosen into its inert form, scanning for the
      leftmost match and going on after it. */
  function Neutralize(t: string, chosen: string -> bool): string {
    if t == [] then []
    else if OpensLive(t) then
      (if chosen(HeadName(t)) then InertText(HeadName(t)) else LiveText(HeadName(t))) + Neutralize(AfterHead(t), chosen)
    else [t[0]] + Neutralize(t[1..], chosen)
  }

  const Every: string -> bool := (w: string) => true

  function Foreign(own: string -> bool): string -> bool { (w: string) => !own(w) }

  /** The names of the placeholders chosen, in order. */
  function NamesOf(t: string, chosen: string -> bool): seq<string> {
    if t == [] then []
    else if OpensLive(t) then
      (if chosen(HeadName(t)) then [HeadName(t)] else []) + NamesOf(AfterHead(t), chosen)
    else NamesOf(t[1..], chosen)
  }

  predicate Contains(t: string, form: string) {
    form <= t || (t != [] && Contains(t[1..], form))
  }

  /** Replaces the first occurrence. */
  function Replace(t: string, form: string, with: string): string {
    if form <= t then with + t[|form|..]
    else if t == [] then []
    else [t[0]] + Replace(t[1..], form, with)
  }

  function Unmask(t: string, foreign: seq<string>): (string, nat)
    decreases |foreign|
  {
    if foreign == [] then (t, 0)
    else if !Contains(t, InertText(foreign[0])) then
      var (r, missing) := Unmask(t, foreign[1..]);
      (r, missing + 1)
    else Unmask(Replace(t, InertText(foreign[0]), LiveText(foreign[0])), foreign[1..])
  }

  // ---- The loops -------------------------------------------------------

  datatype Masked = Masked(text: string, neutralized: nat, foreign: seq<string>)

  /** What one match adds. */
  function Collect(m: Masked, w: string, own: string -> bool): Masked {
    if own(w) then Masked(m.text + InertText(w), m.neutralized + 1, m.foreign)
    else Masked(m.text + InertText(w), m.neutralized, m.foreign + [w])
  }

  /** m, then what the rest of the text gives, is what the whole text gives. */
  ghost predicate MaskedSoFar(m: Masked, rest: string, t: string, own: string -> bool) {
    && m.text + Neutralize(rest, Every) == Neutralize(t, Every)
    && m.neutralized + |NamesOf(rest, own)| == |NamesOf(t, own)|
    && m.foreign + NamesOf(rest, Foreign(own)) == NamesOf(t, Foreign(own))
  }

  lemma CollectStep(m: Masked, rest: string, t: string, own: string -> bool)
    requires MaskedSoFar(m, rest, t, own) && OpensLive(rest)
    ensures MaskedSoFar(Collect(m, HeadName(rest), own), AfterHead(rest), t, own)
  {
    var w, after := HeadName(rest), AfterHead(rest);
    Associative(m.text, InertText(w), Neutralize(after, Every));
    if !own(w) { Associative(m.foreign, [w], NamesOf(after, Foreign(own))); }
  }

  lemma CopyStep(m: Masked, rest: string, t: string, own: string -> bool)
    requires MaskedSoFar(m, rest, t, own) && rest != [] && !OpensLive(rest)
    ensures MaskedSoFar(m.(text := m.text + [rest[0]]), rest[1..], t, own)
  {
    Associative(m.text, [rest[0]], Neutralize(rest[1..], Every));
  }

  /** Makes every placeholder inert: own ones are counted, foreign ones kept. */
  method MaskPlaceholders(t: string, own: string -> bool) returns (m: Masked)
    ensures m.text == Neutralize(t, Every)
    ensures m.neutralized == |NamesOf(t, own)|
    ensures m.foreign == NamesOf(t, Foreign(own))
  {
    if Open !in t {
      NothingOpens(t, own);
      return Masked(t, 0, []);
    }
    m := Masked([], 0, []);
    var rest := t;
    while rest != []
      invariant MaskedSoFar(m, rest, t, own)
      decreases |rest|
    {
      if OpensLive(rest) {
        CollectStep(m, rest, t, own);
        m := Collect(m, HeadName(rest), own);
        rest := AfterHead(rest);
      } else {
        CopyStep(m, rest, t, own);
        m := m.(text := m.text + [rest[0]]);
        rest := rest[1..];
      }
    }
  }

  lemma {:induction false} NothingOpens(t: string, own: string -> bool)
    requires Open !in t
    ensures Neutralize(t, Every) == t && NamesOf(t, own) == [] && NamesOf(t, Foreign(own)) == []
  {
    if t != [] { NothingOpens(t[1..], own); }
  }

  method UnmaskAll(m: Masked, anonymized: string) returns (t: string, missing: nat)
    ensures (t, missing) == Unmask(anonymized, m.foreign)
  {
    t, missing := anonymized, 0;
    for k := 0 to |m.foreign|
      invariant var (r, more) := Unmask(t, m.foreign[k..]);
                Unmask(anonymized, m.foreign) == (r, missing + more)
    {
      assert m.foreign[k..][1..] == m.foreign[k + 1..];
      var form := InertText(m.foreign[k]);
      if !Contains(t, form) {
        missing := missing + 1;
      } else {
        t := Replace(t, form, LiveText(m.foreign[k]));
      }
    }
  }

  // ---- Masking leaves no placeholder -----------------------------------

  lemma {:induction false} RunKept(t: string)
    ensures Run(Neutralize(t, Every)) == Run(t)
    ensures var n := Run(t);
            (n < |t| && t[n] == Close) <==> (n < |Neutralize(t, Every)| && Neutralize(t, Every)[n] == Close)
  {
    if t != [] && !OpensLive(t) {
      RunKept(t[1..]);
      var u := Neutralize(t[1..], Every);
      assert Neutralize(t, Every)[1..] == u;
    }
  }

  lemma OpensAlike(c: char, a: string, b: string)
    requires Run(a) == Run(b)
    requires (Run(a) < |a| && a[Run(a)] == Close) <==> (Run(b) < |b| && b[Run(b)] == Close)
    ensures OpensLive([c] + a) <==> OpensLive([c] + b)
  {
    assert ([c] + a)[1..] == a && ([c] + b)[1..] == b;
  }

  lemma NoneBefore(p: string, rest: string)
    requires Open !in p && !HasPlaceholder(rest)
    ensures !HasPlaceholder(p + rest)
  {
    var u := p + rest;
    forall i | 0 <= i < |u| ensures !OpensLive(u[i..]) {
      if i < |p| { assert u[i..][0] == p[i]; } else { assert u[i..] == rest[i - |p|..]; }
    }
  }

  lemma NoneAtHead(c: char, rest: string)
    requires !OpensLive([c] + rest) && !HasPlaceholder(rest)
    ensures !HasPlaceholder([c] + rest)
  {
    var u := [c] + rest;
    assert u[0..] == u;
    forall i | 0 < i < |u| ensures !OpensLive(u[i..]) {
      assert u[i..] == rest[i - 1..];
    }
  }

  /** A masked text holds no placeholder. */
  lemma {:induction false} MaskedHasNone(t: string)
    ensures !HasPlaceholder(Neutralize(t, Every))
  {
    if t != [] && OpensLive(t) {
      MaskedHasNone(AfterHead(t));
      HeadIsName(t);
      NoneBefore(InertText(HeadName(t)), Neutralize(AfterHead(t), Every));
    } else if t != [] {
      var rest := Neutralize(t[1..], Every);
      MaskedHasNone(t[1..]);
      RunKept(t[1..]);
      assert t == [t[0]] + t[1..];
      OpensAlike(t[0], rest, t[1..]);
      NoneAtHead(t[0], rest);
    }
  }

  lemma {:induction false} RunIsName(t: string)
    ensures forall c :: c in t[..Run(t)] ==> NameChar(c)
    ensures Run(t) < |t| ==> !NameChar(t[Run(t)])
  {
    if t != [] && NameChar(t[0]) {
      RunIsName(t[1..]);
      assert t[..Run(t)] == [t[0]] + t[1..][..Run(t[1..])];
    }
  }

  lemma HeadIsName(t: string)
    requires OpensLive(t)
    ensures Name(HeadName(t)) && t == LiveText(HeadName(t)) + AfterHead(t)
  {
    RunIsName(t[1..]);
    assert HeadName(t) == t[1..][..Run(t[1..])];
  }
}
