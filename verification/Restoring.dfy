/** Unmasking token by token, and exactly when it restores the text
    (plugins/pseudonymizer/placeholder.go:72-120). */
module Restoring {
  import opened Prelude
  import opened Placeholders
  import opened Unmasking

  // ---- Replacing the first inert form ----------------------------------

  function ToLive(ts: seq<Token>, w: string): seq<Token> {
    var p := IndexOf(ts, Inert(w));
    if p < |ts| then ts[p := Live(w)] else ts
  }

  /** form does not start within p. */
  ghost predicate StartsNot(p: string, rest: string, form: string) {
    forall i :: 0 <= i < |p| ==> !(form <= (p + rest)[i..])
  }

  lemma SkipOne(c: char, t: string, form: string, with: string)
    requires !(form <= [c] + t)
    ensures Contains([c] + t, form) == Contains(t, form)
    ensures Replace([c] + t, form, with) == [c] + Replace(t, form, with)
  {
    assert ([c] + t)[1..] == t;
  }

  lemma StartsNotStep(p: string, rest: string, form: string)
    requires p != [] && StartsNot(p, rest, form)
    ensures StartsNot(p[1..], rest, form) && !(form <= p + rest)
  {
    assert (p + rest)[0..] == p + rest;
    forall i | 0 <= i < |p[1..]| ensures !(form <= (p[1..] + rest)[i..]) {
      assert (p[1..] + rest)[i..] == (p + rest)[i + 1..];
    }
  }

  lemma {:induction false} Skip(p: string, rest: string, form: string, with: string)
    requires StartsNot(p, rest, form)
    ensures Contains(p + rest, form) == Contains(rest, form)
    ensures Replace(p + rest, form, with) == p + Replace(rest, form, with)
  {
    if p == [] {
      assert p + rest == rest;
    } else {
      StartsNotStep(p, rest, form);
      Skip(p[1..], rest, form, with);
      assert p + rest == [p[0]] + (p[1..] + rest);
      SkipOne(p[0], p[1..] + rest, form, with);
      assert [p[0]] + (p[1..] + Replace(rest, form, with)) == p + Replace(rest, form, with);
    }
  }

  /** A form starts on two brackets and a name character. */
  lemma FormHead(w: string, t: string)
    requires Name(w) && InertText(w) <= t
    ensures OpensInert(t) && InertName(t) == w && t[0] == '[' && t[1] == '[' && t[2] != '['
  {
    InertOpens(w, t[|InertText(w)|..]);
    assert t == InertText(w) + t[|InertText(w)|..];
    assert t[2] == w[0] && NameChar(w[0]);
  }

  /** No form of w starts inside a token that is not one. */
  lemma NoFormInside(ts: seq<Token>, w: string)
    requires Canonical(ts) && Name(w) && ts != [] && ts[0] != Inert(w)
    ensures StartsNot(Spelled(ts[0]), Text(ts[1..]), InertText(w))
  {
    var form, p, rest := InertText(w), Spelled(ts[0]), Text(ts[1..]);
    forall i | 0 <= i < |p| ensures !(form <= (p + rest)[i..]) {
      var u := (p + rest)[i..];
      if form <= u {
        FormHead(w, u);
        match ts[0]
        case Chr(c) => NoFormAtChar(ts, u);
        case Live(v) => NoBracketInLive(v, i);
        case Inert(v) => if i > 0 { InsideForm(v, rest, i); } else { InertOpens(v, rest); }
      }
    }
  }

  lemma NoFormAtChar(ts: seq<Token>, u: string)
    requires Canonical(ts) && ts != [] && ts[0].Chr? && u == Text(ts)[0..]
    ensures !OpensInert(u)
  {
    HidesInertIff(ts);
    assert u == Text(ts);
  }

  lemma NoBracketInLive(v: string, i: nat)
    requires Name(v) && i < |LiveText(v)|
    ensures LiveText(v)[i] != '['
  {
    if 0 < i < |v| + 1 { assert LiveText(v)[i] == v[i - 1] && NameChar(v[i - 1]); }
  }

  lemma InsideForm(v: string, rest: string, i: nat)
    requires Name(v) && 0 < i < |InertText(v)|
    ensures var u := (InertText(v) + rest)[i..]; |u| > 0 && (u[0] != '[' || (|u| > 1 && u[1] != '['))
  {
    var t := InertText(v) + rest;
    if i == 1 {
      assert t[2] == v[0] && NameChar(v[0]);
    } else if i < |v| + 2 {
      assert t[i] == v[i - 2] && NameChar(v[i - 2]);
    }
  }

  lemma {:induction false} ReplaceIsToLive(ts: seq<Token>, w: string)
    requires Canonical(ts) && Name(w)
    ensures Contains(Text(ts), InertText(w)) <==> Inert(w) in ts
    ensures Inert(w) in ts ==> Replace(Text(ts), InertText(w), LiveText(w)) == Text(ToLive(ts, w))
  {
    IndexOfSpec(ts, Inert(w));
    if ts != [] && ts[0] == Inert(w) {
      var form, rest := InertText(w), Text(ts[1..]);
      assert form + rest == Text(ts) && form <= form + rest && (form + rest)[|form|..] == rest;
      assert ToLive(ts, w)[1..] == ts[1..];
    } else if ts != [] {
      NoFormInside(ts, w);
      Skip(Spelled(ts[0]), Text(ts[1..]), InertText(w), LiveText(w));
      ReplaceIsToLive(ts[1..], w);
      if Inert(w) in ts {
        IndexOfSpec(ts[1..], Inert(w));
        assert ToLive(ts, w)[0] == ts[0] && ToLive(ts, w)[1..] == ToLive(ts[1..], w);
      }
    }
  }

  // ---- Unmasking on tokens ---------------------------------------------

  function UnmaskTokens(ts: seq<Token>, names: seq<string>): (seq<Token>, nat)
    decreases |names|
  {
    if names == [] then (ts, 0)
    else if Inert(names[0]) !in ts then
      var (r, missing) := UnmaskTokens(ts, names[1..]);
      (r, missing + 1)
    else UnmaskTokens(ToLive(ts, names[0]), names[1..])
  }

  lemma ToLiveSwitches(ts: seq<Token>, w: string)
    ensures Switched(ts, ToLive(ts, w))
  {
    IndexOfSpec(ts, Inert(w));
  }

  lemma {:induction false} UnmaskIsOnTokens(ts: seq<Token>, names: seq<string>)
    requires Canonical(ts) && forall w :: w in names ==> Name(w)
    ensures var (us, missing) := UnmaskTokens(ts, names);
            Unmask(Text(ts), names) == (Text(us), missing) && Canonical(us)
    decreases |names|
  {
    if names != [] {
      ReplaceIsToLive(ts, names[0]);
      if Inert(names[0]) !in ts {
        UnmaskIsOnTokens(ts, names[1..]);
      } else {
        ToLiveSwitches(ts, names[0]);
        CanonicalSwitched(ts, ToLive(ts, names[0]));
        UnmaskIsOnTokens(ToLive(ts, names[0]), names[1..]);
      }
    }
  }

  // ---- What unmasking changes ------------------------------------------

  /** The token unmasking leaves at i: live for as many first inert forms of a
      name as the name was masked. */
  function Restored(ts: seq<Token>, names: seq<string>, i: nat): Token
    requires i < |ts|
  {
    if ts[i].Inert? && multiset(ts[..i])[ts[i]] < multiset(names)[ts[i].name] then Live(ts[i].name) else ts[i]
  }

  lemma CountToLive(ts: seq<Token>, w: string, i: nat, v: string)
    requires i <= |ts| && Inert(w) in ts
    ensures var p := IndexOf(ts, Inert(w));
            && multiset(ToLive(ts, w)[..i])[Inert(v)] + (if v == w && p < i then 1 else 0) ==
                multiset(ts[..i])[Inert(v)]
            && multiset(ts[..p])[Inert(w)] == 0
            && p < |ts| && ts[p] == Inert(w)
  {
    IndexOfSpec(ts, Inert(w));
    var p := IndexOf(ts, Inert(w));
    if p < i {
      assert ToLive(ts, w)[..i] == ts[..i][p := Live(w)];
      assert ts[..i][p] == Inert(w);
    } else {
      assert ToLive(ts, w)[..i] == ts[..i];
    }
  }

  lemma NamesStep(names: seq<string>, w: string)
    requires names != []
    ensures multiset(names)[w] == multiset(names[1..])[w] + if names[0] == w then 1 else 0
  {
    assert names == [names[0]] + names[1..];
  }

  lemma {:induction false} UnmaskRestores(ts: seq<Token>, names: seq<string>, i: nat)
    requires i < |ts|
    ensures |UnmaskTokens(ts, names).0| == |ts| && UnmaskTokens(ts, names).0[i] == Restored(ts, names, i)
    decreases |names|
  {
    if names != [] {
      var w := names[0];
      if ts[i].Inert? { NamesStep(names, ts[i].name); }
      if Inert(w) !in ts {
        UnmaskRestores(ts, names[1..], i);
      } else {
        UnmaskRestores(ToLive(ts, w), names[1..], i);
        CountToLive(ts, w, i, if ts[i].Chr? then w else ts[i].name);
      }
    }
  }

  lemma {:induction false} NoneMissing(ts: seq<Token>, names: seq<string>)
    requires forall w :: multiset(names)[w] <= multiset(ts)[Inert(w)]
    ensures UnmaskTokens(ts, names).1 == 0
    decreases |names|
  {
    if names != [] {
      var w := names[0];
      assert multiset(names)[w] > 0;
      forall v ensures multiset(names[1..])[v] <= multiset(ToLive(ts, w))[Inert(v)] {
        NamesStep(names, v);
        CountToLive(ts, w, |ts|, v);
        assert ToLive(ts, w)[..|ts|] == ToLive(ts, w) && ts[..|ts|] == ts;
      }
      NoneMissing(ToLive(ts, w), names[1..]);
    }
  }

  // ---- The masked text and the text expected ---------------------------

  /** ts with the placeholders chosen made inert. */
  function Quiet(ts: seq<Token>, chosen: string -> bool): seq<Token> {
    seq(|ts|, i requires 0 <= i < |ts| => Quieted(ts[i], chosen))
  }

  function Quieted(k: Token, chosen: string -> bool): Token {
    if k.Live? && chosen(k.name) then Inert(k.name) else k
  }

  function LiveNames(ts: seq<Token>, chosen: string -> bool): seq<string> {
    if ts == [] then []
    else (if ts[0].Live? && chosen(ts[0].name) then [ts[0].name] else []) + LiveNames(ts[1..], chosen)
  }

  lemma {:induction false} NoPlaceholderAhead(p: string, rest: string, chosen: string -> bool)
    requires Open !in p
    ensures Neutralize(p + rest, chosen) == p + Neutralize(rest, chosen)
    ensures NamesOf(p + rest, chosen) == NamesOf(rest, chosen)
  {
    if p == [] {
      assert p + rest == rest;
    } else {
      assert p + rest == [p[0]] + (p[1..] + rest) && (p + rest)[1..] == p[1..] + rest;
      NoPlaceholderAhead(p[1..], rest, chosen);
      assert [p[0]] + (p[1..] + Neutralize(rest, chosen)) == p + Neutralize(rest, chosen);
    }
  }

  lemma QuietStep(ts: seq<Token>, chosen: string -> bool)
    requires ts != []
    ensures Text(Quiet(ts, chosen)) == Spelled(Quieted(ts[0], chosen)) + Text(Quiet(ts[1..], chosen))
  {
    assert Quiet(ts, chosen)[1..] == Quiet(ts[1..], chosen);
  }

  /** The scan over text does what the tokens say. */
  lemma NeutralizeIsQuiet(t: string, chosen: string -> bool)
    ensures Neutralize(t, chosen) == Text(Quiet(Tokens(t), chosen))
    ensures NamesOf(t, chosen) == LiveNames(Tokens(t), chosen)
  {
    TextIsQuiet(t, chosen);
    NamesAreLive(t, chosen);
  }

  lemma {:induction false} TextIsQuiet(t: string, chosen: string -> bool)
    ensures Neutralize(t, chosen) == Text(Quiet(Tokens(t), chosen))
  {
    if t != [] {
      QuietStep(Tokens(t), chosen);
      if OpensLive(t) {
        TextIsQuiet(AfterHead(t), chosen);
        assert Tokens(t)[1..] == Tokens(AfterHead(t));
      } else if OpensInert(t) {
        TextIsQuiet(AfterInert(t), chosen);
        assert Tokens(t)[1..] == Tokens(AfterInert(t));
        InertAhead(t, chosen);
      } else {
        TextIsQuiet(t[1..], chosen);
        assert Tokens(t)[1..] == Tokens(t[1..]);
      }
    }
  }

  lemma {:induction false} NamesAreLive(t: string, chosen: string -> bool)
    ensures NamesOf(t, chosen) == LiveNames(Tokens(t), chosen)
  {
    if t != [] {
      if OpensLive(t) {
        NamesAreLive(AfterHead(t), chosen);
        assert Tokens(t)[1..] == Tokens(AfterHead(t));
      } else if OpensInert(t) {
        NamesAreLive(AfterInert(t), chosen);
        assert Tokens(t)[1..] == Tokens(AfterInert(t));
        InertAhead(t, chosen);
        assert LiveNames(Tokens(t), chosen) == [] + LiveNames(Tokens(AfterInert(t)), chosen);
      } else {
        NamesAreLive(t[1..], chosen);
        assert Tokens(t)[1..] == Tokens(t[1..]);
        assert LiveNames(Tokens(t), chosen) == [] + LiveNames(Tokens(t[1..]), chosen);
      }
    }
  }

  /** The scan goes through an inert form as through any characters. */
  lemma InertAhead(t: string, chosen: string -> bool)
    requires OpensInert(t)
    ensures Neutralize(t, chosen) == InertText(InertName(t)) + Neutralize(AfterInert(t), chosen)
    ensures NamesOf(t, chosen) == NamesOf(AfterInert(t), chosen)
  {
    InertIsName(t);
    NoPlaceholderAhead(InertText(InertName(t)), AfterInert(t), chosen);
  }

  lemma {:induction false} LiveNamesCount(ts: seq<Token>, chosen: string -> bool, w: string)
    ensures multiset(LiveNames(ts, chosen))[w] == if chosen(w) then multiset(ts)[Live(w)] else 0
  {
    if ts != [] {
      LiveNamesCount(ts[1..], chosen, w);
      assert ts == [ts[0]] + ts[1..];
    }
  }

  lemma {:induction false} MaskedCount(ts: seq<Token>, w: string)
    ensures multiset(Quiet(ts, Every))[Inert(w)] == multiset(ts)[Live(w)] + multiset(ts)[Inert(w)]
  {
    if ts != [] {
      var init, k := ts[..|ts| - 1], ts[|ts| - 1];
      MaskedCount(init, w);
      assert ts == init + [k];
      assert Quiet(ts, Every) == Quiet(init, Every) + [Quieted(k, Every)];
    }
  }

  lemma CountBefore<T>(s: seq<T>, i: nat, j: nat, x: T)
    requires i <= j <= |s|
    ensures multiset(s[..i])[x] <= multiset(s[..j])[x] <= multiset(s)[x]
    ensures i < j && s[i] == x ==> multiset(s[..i])[x] < multiset(s[..j])[x]
    ensures (forall k :: i <= k < j ==> s[k] != x) ==> multiset(s[..i])[x] == multiset(s[..j])[x]
  {
    assert s[..j] == s[..i] + s[i..j];
    assert s == s[..j] + s[j..];
    if i < j { assert s[i..j][0] == s[i]; }
    if forall k :: i <= k < j ==> s[k] != x { assert x !in s[i..j]; }
  }

  // ---- When unmasking restores -----------------------------------------

  /** No inert form written in the text stands before a foreign placeholder of
      the same name. */
  ghost predicate Unambiguous(ts: seq<Token>, own: string -> bool) {
    forall i, j :: 0 <= i < j < |ts| && ts[i].Inert? && !own(ts[i].name) ==> ts[j] != Live(ts[i].name)
  }

  /** What unmasking makes of position i of a masked text. */
  lemma MaskedRestored(ts: seq<Token>, own: string -> bool, i: nat)
    requires i < |ts|
    ensures var names := LiveNames(ts, Foreign(own));
            Restored(Quiet(ts, Every), names, i)
            == if ts[i].Chr? then ts[i]
               else if !own(ts[i].name)
                   && multiset(ts[..i])[Live(ts[i].name)] + multiset(ts[..i])[Inert(ts[i].name)] <
                       multiset(ts)[Live(ts[i].name)]
               then Live(ts[i].name) else Inert(ts[i].name)
  {
    if !ts[i].Chr? {
      assert Quiet(ts, Every)[..i] == Quiet(ts[..i], Every);
      MaskedCount(ts[..i], ts[i].name);
      LiveNamesCount(ts, Foreign(own), ts[i].name);
    }
  }

  /** A foreign placeholder has only its likes before it, so it is among the
      first; a form written in the text has all of them before it. */
  lemma LiveIsAmongFirst(ts: seq<Token>, own: string -> bool, i: nat, w: string)
    requires Unambiguous(ts, own) && i < |ts| && ts[i] == Live(w) && !own(w)
    ensures multiset(ts[..i])[Live(w)] + multiset(ts[..i])[Inert(w)] < multiset(ts)[Live(w)]
  {
    assert Inert(w) !in ts[..i];
    CountBefore(ts, i, i + 1, Live(w));
  }

  lemma InertIsAfterAll(ts: seq<Token>, own: string -> bool, i: nat, w: string)
    requires Unambiguous(ts, own) && i < |ts| && ts[i] == Inert(w) && !own(w)
    ensures multiset(ts[..i])[Live(w)] == multiset(ts)[Live(w)]
  {
    CountBefore(ts, i, |ts|, Live(w));
    assert ts[..|ts|] == ts;
  }

  lemma UnambiguousRestores(ts: seq<Token>, own: string -> bool, i: nat)
    requires Unambiguous(ts, own) && i < |ts|
    ensures Restored(Quiet(ts, Every), LiveNames(ts, Foreign(own)), i) == Quieted(ts[i], own)
  {
    MaskedRestored(ts, own, i);
    if ts[i].Live? && !own(ts[i].name) { LiveIsAmongFirst(ts, own, i, ts[i].name); }
    if ts[i].Inert? && !own(ts[i].name) { InertIsAfterAll(ts, own, i, ts[i].name); }
  }

  lemma AmbiguousMisses(ts: seq<Token>, own: string -> bool, i: nat, j: nat)
    requires i < j < |ts| && ts[i].Inert? && !own(ts[i].name) && ts[j] == Live(ts[i].name)
    ensures var names := LiveNames(ts, Foreign(own));
            || Restored(Quiet(ts, Every), names, i) != Quieted(ts[i], own)
            || Restored(Quiet(ts, Every), names, j) != Quieted(ts[j], own)
  {
    var w := ts[i].name;
    MaskedRestored(ts, own, i);
    MaskedRestored(ts, own, j);
    CountBefore(ts, i, j, Live(w));
    CountBefore(ts, i, j, Inert(w));
  }

  lemma {:induction false} UnmaskLength(ts: seq<Token>, names: seq<string>)
    ensures |UnmaskTokens(ts, names).0| == |ts|
    decreases |names|
  {
    if names != [] {
      UnmaskLength(if Inert(names[0]) in ts then ToLive(ts, names[0]) else ts, names[1..]);
    }
  }

  /** Masking loses no foreign placeholder: each is found again. */
  lemma MaskedNoneMissing(ts: seq<Token>, own: string -> bool)
    ensures UnmaskTokens(Quiet(ts, Every), LiveNames(ts, Foreign(own))).1 == 0
  {
    var masked, names := Quiet(ts, Every), LiveNames(ts, Foreign(own));
    forall w ensures multiset(names)[w] <= multiset(masked)[Inert(w)] {
      LiveNamesCount(ts, Foreign(own), w);
      MaskedCount(ts, w);
    }
    NoneMissing(masked, names);
  }

  lemma MaskedUnmasks(ts: seq<Token>, own: string -> bool)
    ensures UnmaskTokens(Quiet(ts, Every), LiveNames(ts, Foreign(own))).0 == Quiet(ts, own) <==> Unambiguous(ts, own)
  {
    var masked, names := Quiet(ts, Every), LiveNames(ts, Foreign(own));
    var us := UnmaskTokens(masked, names).0;
    UnmaskLength(masked, names);
    if Unambiguous(ts, own) {
      forall i | 0 <= i < |ts| ensures us[i] == Quiet(ts, own)[i] {
        UnmaskRestores(masked, names, i);
        UnambiguousRestores(ts, own, i);
      }
    } else {
      var i, j :| 0 <= i < j < |ts| && ts[i].Inert? && !own(ts[i].name) && ts[j] == Live(ts[i].name);
      UnmaskRestores(masked, names, i);
      UnmaskRestores(masked, names, j);
      AmbiguousMisses(ts, own, i, j);
      assert Quiet(ts, own)[i] == Quieted(ts[i], own) && Quiet(ts, own)[j] == Quieted(ts[j], own);
    }
  }

  // ---- Main results ----------------------------------------------------

  lemma QuietSwitches(ts: seq<Token>, chosen: string -> bool)
    ensures Switched(ts, Quiet(ts, chosen))
  {
  }

  lemma {:induction false} LiveNamesAreNames(ts: seq<Token>, chosen: string -> bool)
    requires Canonical(ts)
    ensures forall w :: w in LiveNames(ts, chosen) ==> Name(w)
  {
    if ts != [] { LiveNamesAreNames(ts[1..], chosen); }
  }

  /** Unmasking the masked text, unchanged, finds every foreign placeholder, and
      gives the text with only this node's placeholders neutralized exactly when
      no inert form written in it stands before a foreign placeholder of the
      same name. */
  lemma UnmaskRestoresIff(t: string, own: string -> bool)
    ensures var (u, missing) := Unmask(Neutralize(t, Every), NamesOf(t, Foreign(own)));
            missing == 0 && (u == Neutralize(t, own) <==> Unambiguous(Tokens(t), own))
  {
    var ts := Tokens(t);
    var masked, names := Quiet(ts, Every), LiveNames(ts, Foreign(own));
    TokensAreCanonical(t);
    NeutralizeIsQuiet(t, Every);
    NeutralizeIsQuiet(t, own);
    NeutralizeIsQuiet(t, Foreign(own));
    QuietSwitches(ts, Every);
    CanonicalSwitched(ts, masked);
    LiveNamesAreNames(ts, Foreign(own));
    UnmaskIsOnTokens(masked, names);
    MaskedNoneMissing(ts, own);
    MaskedUnmasks(ts, own);
    SameTokens(UnmaskTokens(masked, names).0, ts, own);
  }

  lemma SameTokens(us: seq<Token>, ts: seq<Token>, own: string -> bool)
    requires Canonical(us) && Canonical(ts)
    ensures Text(us) == Text(Quiet(ts, own)) <==> us == Quiet(ts, own)
  {
    QuietSwitches(ts, own);
    CanonicalSwitched(ts, Quiet(ts, own));
    TokensOfText(us);
    TokensOfText(Quiet(ts, own));
  }

  /** The inert form of a foreign placeholder, written before it, takes its
      place: "[[w]]" then the placeholder come back the other way round. */
  lemma WrittenFormSwaps(w: string, own: string -> bool)
    requires Name(w) && !own(w)
    ensures var t := InertText(w) + LiveText(w);
            Unmask(Neutralize(t, Every), NamesOf(t, Foreign(own))).0 != Neutralize(t, own)
  {
    var t := InertText(w) + LiveText(w);
    InertOpens(w, LiveText(w));
    LiveOpens(w, []);
    assert LiveText(w) + [] == LiveText(w);
    var ts := Tokens(t);
    assert Tokens(LiveText(w)) == [Live(w)] + Tokens([]);
    assert ts == [Inert(w)] + Tokens(LiveText(w));
    assert ts[0] == Inert(w) && ts[1] == Live(w);
    UnmaskRestoresIff(t, own);
  }

  // ---- Texts the anonymizer rewrote ------------------------------------

  function InertNames(ts: seq<Token>): seq<string> {
    if ts == [] then []
    else
      var k := ts[|ts| - 1];
      InertNames(ts[..|ts| - 1]) + if k.Inert? then [k.name] else []
  }

  lemma {:induction false} InertNamesCount(ts: seq<Token>, w: string)
    ensures multiset(InertNames(ts))[w] == multiset(ts)[Inert(w)]
  {
    if ts != [] {
      InertNamesCount(ts[..|ts| - 1], w);
      assert ts == ts[..|ts| - 1] + [ts[|ts| - 1]];
    }
  }

  lemma {:induction false} InertNamesPrefix(ts: seq<Token>, i: nat)
    requires i <= |ts|
    ensures InertNames(ts[..i]) <= InertNames(ts)
    ensures i < |ts| && ts[i].Inert? ==> InertNames(ts[..i]) + [ts[i].name] <= InertNames(ts)
  {
    if i == |ts| {
      assert ts[..i] == ts;
    } else {
      var init := ts[..|ts| - 1];
      assert init[..i] == ts[..i];
      if i < |init| { InertNamesPrefix(init, i); } else { assert init == ts[..i]; }
    }
  }

  /** The inert form at i of ts has the rank of the one at j of us. */
  ghost predicate SameForm(ts: seq<Token>, i: int, us: seq<Token>, j: int) {
    && 0 <= i < |ts| && 0 <= j < |us| && ts[i].Inert? && us[j].Inert?
    && |InertNames(ts[..i])| == |InertNames(us[..j])|
  }

  /** An anonymizer may rewrite anything between the inert forms: each form it
      left, in order, comes back as it would have in the masked text. */
  lemma AnonymizedRestoresAlike(ts: seq<Token>, masked: seq<Token>, names: seq<string>, i: nat, j: nat)
    requires InertNames(ts) == InertNames(masked) && SameForm(ts, i, masked, j)
    ensures Restored(ts, names, i) == Restored(masked, names, j)
  {
    InertNamesPrefix(ts, i);
    InertNamesPrefix(masked, j);
    var n := |InertNames(ts[..i])|;
    assert InertNames(ts[..i]) == InertNames(ts)[..n] == InertNames(masked[..j]);
    assert ts[i].name == InertNames(ts)[n] == masked[j].name;
    InertNamesCount(ts[..i], ts[i].name);
    InertNamesCount(masked[..j], ts[i].name);
  }

  /** For any text with the inert forms of the masked one, in order: unmasking
      finds every foreign placeholder, brings each form back as the original
      had it, and leaves everything else alone. */
  lemma UnmaskAnonymized(t: string, own: string -> bool, a: string)
    requires Unambiguous(Tokens(t), own)
    requires InertNames(Tokens(a)) == InertNames(Quiet(Tokens(t), Every))
    ensures var ts, an, us := Tokens(t), Tokens(a), Tokens(Unmask(a, NamesOf(t, Foreign(own))).0);
            && Unmask(a, NamesOf(t, Foreign(own))).1 == 0
            && |us| == |an|
            && (forall i :: 0 <= i < |an| && !an[i].Inert? ==> us[i] == an[i])
            && (forall i, j :: SameForm(an, i, Quiet(ts, Every), j) ==> us[i] == Quieted(ts[j], own))
  {
    var ts, an := Tokens(t), Tokens(a);
    var masked, names := Quiet(ts, Every), LiveNames(ts, Foreign(own));
    TokensAreCanonical(t);
    TokensAreCanonical(a);
    NeutralizeIsQuiet(t, Foreign(own));
    LiveNamesAreNames(ts, Foreign(own));
    UnmaskIsOnTokens(an, names);
    var us := UnmaskTokens(an, names).0;
    TokensOfText(us);
    UnmaskLength(an, names);
    AnonymizedNoneMissing(ts, own, an);
    forall i | 0 <= i < |an| && !an[i].Inert? ensures us[i] == an[i] { UnmaskRestores(an, names, i); }
    forall i, j | SameForm(an, i, masked, j) ensures us[i] == Quieted(ts[j], own) {
      UnmaskRestores(an, names, i);
      AnonymizedRestoresAlike(an, masked, names, i, j);
      UnambiguousRestores(ts, own, j);
    }
  }

  lemma AnonymizedNoneMissing(ts: seq<Token>, own: string -> bool, an: seq<Token>)
    requires InertNames(an) == InertNames(Quiet(ts, Every))
    ensures UnmaskTokens(an, LiveNames(ts, Foreign(own))).1 == 0
  {
    var masked, names := Quiet(ts, Every), LiveNames(ts, Foreign(own));
    forall w ensures multiset(names)[w] <= multiset(an)[Inert(w)] {
      LiveNamesCount(ts, Foreign(own), w);
      MaskedCount(ts, w);
      InertNamesCount(an, w);
      InertNamesCount(masked, w);
    }
    NoneMissing(an, names);
  }
}
