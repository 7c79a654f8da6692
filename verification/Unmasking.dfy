/** When unmasking restores a masked text
    (plugins/pseudonymizer/placeholder.go:89-120). */
module Unmasking {
  import opened Prelude
  import opened Placeholders

  /** A text read as placeholders, inert forms, and characters. */
  datatype Token = Chr(c: char) | Live(name: string) | Inert(name: string)

  function Text(ts: seq<Token>): string {
    if ts == [] then [] else Spelled(ts[0]) + Text(ts[1..])
  }

  function Spelled(k: Token): string {
    match k
    case Chr(c) => [c]
    case Live(w) => LiveText(w)
    case Inert(w) => InertText(w)
  }

  /** The inert form t opens on, and what follows it. */
  function InertName(t: string): string
    requires OpensInert(t)
  { t[2..Run(t[2..]) + 2] }

  function AfterInert(t: string): string
    requires OpensInert(t)
  { t[Run(t[2..]) + 4..] }

  function Tokens(t: string): seq<Token> {
    if t == [] then []
    else if OpensLive(t) then [Live(HeadName(t))] + Tokens(AfterHead(t))
    else if OpensInert(t) then [Inert(InertName(t))] + Tokens(AfterInert(t))
    else [Chr(t[0])] + Tokens(t[1..])
  }

  lemma InertIsName(t: string)
    requires OpensInert(t)
    ensures Name(InertName(t)) && t == InertText(InertName(t)) + AfterInert(t)
  {
    RunIsName(t[2..]);
    assert InertName(t) == t[2..][..Run(t[2..])];
  }

  // ---- Canonical token sequences ---------------------------------------

  /** How many name characters ts opens on. */
  function TokenRun(ts: seq<Token>): (n: nat)
    ensures n <= |ts|
  {
    if ts != [] && ts[0].Chr? && NameChar(ts[0].c) then 1 + TokenRun(ts[1..]) else 0
  }

  predicate AllChars(ts: seq<Token>, n: nat) {
    n <= |ts| && forall i :: 0 <= i < n ==> ts[i].Chr?
  }

  predicate At(ts: seq<Token>, i: nat, c: char) {
    i < |ts| && ts[i] == Chr(c)
  }

  /** Characters that spell a placeholder, or an inert form. */
  predicate HidesLive(ts: seq<Token>) {
    At(ts, 0, Open) && var n := TokenRun(ts[1..]); 1 <= n <= 128 && At(ts, n + 1, Close)
  }

  predicate HidesInert(ts: seq<Token>) {
    && At(ts, 0, '[') && At(ts, 1, '[')
    && var n := TokenRun(ts[2..]); 1 <= n <= 128 && At(ts, n + 2, ']') && At(ts, n + 3, ']')
  }

  predicate Canonical(ts: seq<Token>) {
    ts == [] || (Proper(ts) && Canonical(ts[1..]))
  }

  predicate Proper(ts: seq<Token>)
    requires ts != []
  {
    if ts[0].Chr? then !HidesLive(ts) && !HidesInert(ts) else Name(ts[0].name)
  }

  lemma {:induction false} RunOfText(ts: seq<Token>)
    ensures Run(Text(ts)) == TokenRun(ts)
  {
    if ts != [] && ts[0].Chr? && NameChar(ts[0].c) {
      RunOfText(ts[1..]);
      assert Text(ts)[1..] == Text(ts[1..]);
    }
  }

  /** Past its leading characters, the text goes on as the tokens do. */
  lemma {:induction false} TextAfter(ts: seq<Token>, n: nat)
    requires AllChars(ts, n)
    ensures n <= |Text(ts)| && Text(ts)[n..] == Text(ts[n..])
  {
    if n > 0 {
      TextAfter(ts[1..], n - 1);
      assert Text(ts) == [ts[0].c] + Text(ts[1..]);
      assert Text(ts)[n..] == Text(ts[1..])[n - 1..];
      assert ts[1..][n - 1..] == ts[n..];
    }
  }

  lemma {:induction false} RunIsChars(ts: seq<Token>)
    ensures AllChars(ts, TokenRun(ts))
  {
    if ts != [] && ts[0].Chr? && NameChar(ts[0].c) { RunIsChars(ts[1..]); }
  }

  lemma CharsThenRun(ts: seq<Token>, k: nat)
    requires AllChars(ts, k)
    ensures AllChars(ts, k + TokenRun(ts[k..]))
  {
    RunIsChars(ts[k..]);
    forall i | k <= i < k + TokenRun(ts[k..]) ensures ts[i].Chr? { assert ts[i] == ts[k..][i - k]; }
  }

  /** A closing character can only come from itself. */
  lemma CharAt(ts: seq<Token>, n: nat, c: char)
    requires AllChars(ts, n)
    requires c != '[' && c != Open
    ensures At(ts, n, c) <==> n < |Text(ts)| && Text(ts)[n] == c
  {
    TextAfter(ts, n);
    if n < |ts| {
      assert Text(ts[n..]) == Spelled(ts[n]) + Text(ts[n + 1..]) by { assert ts[n..][1..] == ts[n + 1..]; }
      assert Text(ts)[n] == Text(ts)[n..][0] == Spelled(ts[n])[0];
    }
  }

  lemma HidesLiveIff(ts: seq<Token>)
    requires ts != [] && ts[0].Chr?
    ensures HidesLive(ts) <==> OpensLive(Text(ts))
  {
    var n := TokenRun(ts[1..]);
    assert Text(ts)[1..] == Text(ts[1..]);
    RunOfText(ts[1..]);
    CharsThenRun(ts, 1);
    CharAt(ts, n + 1, Close);
  }

  lemma TwoChars(ts: seq<Token>)
    requires |ts| > 1 && ts[0].Chr? && ts[1].Chr?
    ensures |Text(ts)| > 1 && Text(ts)[0] == ts[0].c && Text(ts)[1] == ts[1].c && Text(ts)[2..] == Text(ts[2..])
  {
    assert ts[1..][1..] == ts[2..];
    assert Text(ts) == [ts[0].c] + ([ts[1].c] + Text(ts[2..]));
  }

  lemma ClosedAt(ts: seq<Token>, m: nat)
    requires AllChars(ts, m)
    ensures (At(ts, m, ']') && At(ts, m + 1, ']'))
            <==> (m + 1 < |Text(ts)| && Text(ts)[m] == ']' && Text(ts)[m + 1] == ']')
  {
    CharAt(ts, m, ']');
    if At(ts, m, ']') { CharAt(ts, m + 1, ']'); }
  }

  lemma HidesInertIff(ts: seq<Token>)
    requires ts != [] && ts[0].Chr?
    ensures HidesInert(ts) <==> OpensInert(Text(ts))
  {
    if |ts| > 1 && ts[1].Chr? {
      TwoChars(ts);
      RunOfText(ts[2..]);
      CharsThenRun(ts, 2);
      ClosedAt(ts, TokenRun(ts[2..]) + 2);
    } else if |ts| > 1 {
      BracketedIsNoForm(ts[0].c, ts[1], Text(ts[2..]));
      assert ts[1..][1..] == ts[2..];
    }
  }

  lemma BracketedIsNoForm(c: char, k: Token, rest: string)
    requires !k.Chr?
    ensures !OpensInert([c] + (Spelled(k) + rest))
  {
    var t := [c] + (Spelled(k) + rest);
    assert t[1] == Spelled(k)[0];
    assert k.Inert? ==> t[2] == '[' && (t[2..] == [] || t[2..][0] == '[');
  }

  lemma {:induction false} RunOfName(w: string, rest: string)
    requires (forall c :: c in w ==> NameChar(c)) && (rest == [] || !NameChar(rest[0]))
    ensures Run(w + rest) == |w|
  {
    if w == [] {
      assert w + rest == rest;
    } else {
      assert (w + rest)[1..] == w[1..] + rest;
      RunOfName(w[1..], rest);
    }
  }

  lemma LiveOpens(w: string, rest: string)
    requires Name(w)
    ensures var t := LiveText(w) + rest; OpensLive(t) && HeadName(t) == w && AfterHead(t) == rest
  {
    var t := LiveText(w) + rest;
    assert t[1..] == w + ([Close] + rest);
    RunOfName(w, [Close] + rest);
  }

  lemma InertOpens(w: string, rest: string)
    requires Name(w)
    ensures var t := InertText(w) + rest; !OpensLive(t) && OpensInert(t) && InertName(t) == w && AfterInert(t) == rest
  {
    var t := InertText(w) + rest;
    assert t[2..] == w + ("]]" + rest);
    RunOfName(w, "]]" + rest);
  }

  /** Canonical tokens are those their text is read as. */
  lemma {:induction false} TokensOfText(ts: seq<Token>)
    requires Canonical(ts)
    ensures Tokens(Text(ts)) == ts
  {
    if ts != [] {
      TokensOfText(ts[1..]);
      match ts[0]
      case Chr(c) =>
        HidesLiveIff(ts);
        HidesInertIff(ts);
        assert Text(ts)[1..] == Text(ts[1..]);
      case Live(w) => LiveOpens(w, Text(ts[1..]));
      case Inert(w) => InertOpens(w, Text(ts[1..]));
    }
  }

  lemma {:induction false} TokensAreCanonical(t: string)
    ensures Text(Tokens(t)) == t && Canonical(Tokens(t))
  {
    if t != [] {
      var ts := Tokens(t);
      if OpensLive(t) {
        TokensAreCanonical(AfterHead(t));
        HeadIsName(t);
        assert ts[1..] == Tokens(AfterHead(t));
      } else if OpensInert(t) {
        TokensAreCanonical(AfterInert(t));
        InertIsName(t);
        assert ts[1..] == Tokens(AfterInert(t));
      } else {
        TokensAreCanonical(t[1..]);
        assert ts[1..] == Tokens(t[1..]);
        assert Text(ts) == t;
        HidesLiveIff(ts);
        HidesInertIff(ts);
      }
    }
  }

  // ---- Switching placeholders keeps the reading ------------------------

  /** The same tokens, placeholders being live or inert. */
  ghost predicate Switched(ts: seq<Token>, us: seq<Token>) {
    |ts| == |us| && forall i :: 0 <= i < |ts| ==> SwitchedAt(ts[i], us[i])
  }

  predicate SwitchedAt(k: Token, l: Token) {
    if k.Chr? || l.Chr? then k == l else k.name == l.name
  }

  lemma {:induction false} RunSwitched(ts: seq<Token>, us: seq<Token>)
    requires Switched(ts, us)
    ensures TokenRun(ts) == TokenRun(us)
  {
    if ts != [] {
      assert SwitchedAt(ts[0], us[0]);
      RunSwitched(ts[1..], us[1..]);
    }
  }

  lemma AtSwitched(ts: seq<Token>, us: seq<Token>, i: nat, c: char)
    requires Switched(ts, us)
    ensures At(ts, i, c) == At(us, i, c)
  {
    if i < |ts| { assert SwitchedAt(ts[i], us[i]); }
  }

  lemma HidesSwitched(ts: seq<Token>, us: seq<Token>)
    requires Switched(ts, us)
    ensures HidesLive(ts) == HidesLive(us) && HidesInert(ts) == HidesInert(us)
  {
    AtSwitched(ts, us, 0, Open);
    AtSwitched(ts, us, 0, '[');
    AtSwitched(ts, us, 1, '[');
    if |ts| > 0 {
      RunSwitched(ts[1..], us[1..]);
      AtSwitched(ts, us, TokenRun(ts[1..]) + 1, Close);
    }
    if |ts| > 1 {
      RunSwitched(ts[2..], us[2..]);
      AtSwitched(ts, us, TokenRun(ts[2..]) + 2, ']');
      AtSwitched(ts, us, TokenRun(ts[2..]) + 3, ']');
    }
  }

  lemma {:induction false} CanonicalSwitched(ts: seq<Token>, us: seq<Token>)
    requires Switched(ts, us) && Canonical(ts)
    ensures Canonical(us)
  {
    if ts != [] {
      assert SwitchedAt(ts[0], us[0]);
      HidesSwitched(ts, us);
      CanonicalSwitched(ts[1..], us[1..]);
    }
  }
}
