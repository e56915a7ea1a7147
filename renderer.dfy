/**
 * The assistant-reply renderer of the QuantDesk chat panel: `renderInline`
 * cuts a line into plain and `**bold**` pieces with
 * `text.split(/(\*\*[^*]+\*\*)/)`, and `renderContent` classifies every line
 * of a reply, first rule that applies wins.
 */
module Renderer {
  import opened Text
  import opened Signals

  // ---------------------------------------------------------------------
  // The regular expression `\*\*[^*]+\*\*`
  // ---------------------------------------------------------------------

  /** Number of leading characters of `t` that are not `*` (what `[^*]+` can consume). */
  function StarFreeRun(t: string): (n: nat)
    ensures n <= |t|
    ensures forall i :: 0 <= i < n ==> t[i] != '*'
    ensures n < |t| ==> t[n] == '*'
  {
    if t != [] && t[0] != '*' then
      var n := StarFreeRun(t[1..]);
      assert forall i :: 1 <= i < n + 1 ==> t[i] == t[1..][i - 1];
      1 + n
    else 0
  }

  /** `p` is exactly one match of `\*\*[^*]+\*\*`. */
  predicate IsBoldToken(p: string) {
    |p| >= 5 && p[..2] == "**" && p[|p| - 2..] == "**" &&
    forall i :: 2 <= i < |p| - 2 ==> p[i] != '*'
  }

  /** Length of the match of `\*\*[^*]+\*\*` anchored at the start of `t`, if there is one. */
  function MatchLen(t: string): (r: Option<nat>)
    ensures r.Some? ==> r.value <= |t| && IsBoldToken(t[..r.value])
  {
    if StartsWith(t, "**") then
      var n := StarFreeRun(t[2..]);
      if n > 0 && OccursAt(t, "**", 2 + n) then
        MatchIsToken(t, n);
        Some(n + 4)
      else None
    else None
  }

  lemma MatchIsToken(t: string, n: nat)
    requires StartsWith(t, "**") && n == StarFreeRun(t[2..]) && n > 0 && OccursAt(t, "**", 2 + n)
    ensures IsBoldToken(t[..n + 4])
  {
    var p := t[..n + 4];
    forall i | 2 <= i < n + 2 ensures p[i] != '*' {
      assert p[i] == t[2..][i - 2];
    }
    assert p[..2] == t[..2];
    assert p[n + 2..] == t[2 + n..2 + n + 2];
  }

  /** A match found in a prefix of `t` is also the match at the start of `t`. */
  lemma MatchLenPrefix(t: string, k: nat)
    requires k <= |t| && MatchLen(t[..k]).Some?
    ensures MatchLen(t) == MatchLen(t[..k])
  {
    var u := t[..k];
    assert StartsWith(u, "**");
    var n := StarFreeRun(u[2..]);
    assert n > 0 && OccursAt(u, "**", 2 + n);
    assert StartsWith(t, "**") by { assert t[..2] == u[..2]; }
    assert u[2..] == t[2..][..k - 2];
    assert u[2..][n] == '*';
    RunPrefix(t[2..], k - 2);
    assert t[2 + n..2 + n + 2] == u[2 + n..2 + n + 2];
  }

  lemma {:induction false} RunPrefix(t: string, k: nat)
    requires k <= |t| && StarFreeRun(t[..k]) < k
    ensures StarFreeRun(t) == StarFreeRun(t[..k])
  {
    if t != [] && t[0] != '*' {
      assert t[..k][1..] == t[1..][..k - 1];
      RunPrefix(t[1..], k - 1);
    }
  }

  /** A match anchored at 0 is determined by the token it covers: the two descriptions agree. */
  lemma MatchLenIff(t: string, n: nat)
    ensures MatchLen(t) == Some(n) <==> (n <= |t| && IsBoldToken(t[..n]))
  {
    if n <= |t| && IsBoldToken(t[..n]) {
      var p := t[..n];
      assert StartsWith(t, "**") by { assert t[..2] == p[..2]; }
      var run := StarFreeRun(t[2..]);
      assert forall i :: 0 <= i < n - 4 ==> t[2..][i] == p[i + 2];
      assert t[2..][n - 4] == p[n - 2];
      assert run == n - 4;
      assert t[2 + run..2 + run + 2] == p[n - 2..];
    }
  }

  /** No match of the pattern starts in `s` at a position below `q`. */
  predicate NoMatchBefore(s: string, q: nat) {
    forall i {:trigger MatchLen(s[i..])} :: 0 <= i < q && i <= |s| ==> MatchLen(s[i..]).None?
  }

  /** Nothing matching at the head of `s` nor below `q` in its tail means nothing below `q + 1` in `s`. */
  lemma NoMatchShift(s: string, q: nat)
    requires s != [] && MatchLen(s).None? && NoMatchBefore(s[1..], q)
    ensures NoMatchBefore(s, q + 1)
  {
    forall i | 0 <= i < q + 1 && i <= |s| ensures MatchLen(s[i..]).None? {
      if i == 0 {
        assert s[i..] == s;
      } else {
        assert s[i..] == s[1..][i - 1..];
      }
    }
  }

  /** Leftmost position `q` at which the pattern matches in `s`, with the match length. */
  function FirstBold(s: string): (r: Option<(nat, nat)>)
    ensures r.Some? ==> r.value.0 + r.value.1 <= |s| && MatchLen(s[r.value.0..]) == Some(r.value.1)
    ensures r.Some? ==> NoMatchBefore(s, r.value.0)
    ensures r.None? ==> NoMatchBefore(s, |s| + 1)
  {
    match MatchLen(s)
    case Some(n) => assert s[0..] == s; Some((0, n))
    case None =>
      if s == [] then
        assert s[0..] == s; None
      else
        match FirstBold(s[1..])
        case None => NoMatchShift(s, |s|); None
        case Some((q, n)) =>
          NoMatchShift(s, q);
          assert s[q + 1..] == s[1..][q..];
          Some((q + 1, n))
  }

  /** Odd positions of a split hold the captured matches, even ones the text between them. */
  predicate Odd(k: nat) {
    k % 2 == 1
  }

  /** Two more pieces keep the parity. */
  lemma OddStep(k: nat)
    ensures Odd(k + 2) <==> Odd(k)
  {
  }

  function Concat(pieces: seq<string>): string {
    if pieces == [] then [] else pieces[0] + Concat(pieces[1..])
  }

  /**
   * `s.split(/(\*\*[^*]+\*\*)/)`: text before the leftmost match, the match
   * itself (the capture group), then the split of what follows the match.
   */
  function BoldSplit(s: string): (r: seq<string>)
    ensures Concat(r) == s
    decreases |s|
  {
    var fb := FirstBold(s);
    if fb.None? then [s]
    else
      var q, n := fb.value.0, fb.value.1;
      var rest := BoldSplit(s[q + n..]);
      BoldSplitStep(s, q, n, rest);
      [s[..q], s[q..q + n]] + rest
  }

  /** One step of the split puts the text back together. */
  lemma BoldSplitStep(s: string, q: nat, n: nat, rest: seq<string>)
    requires q + n <= |s|
    requires Concat(rest) == s[q + n..]
    ensures Concat([s[..q], s[q..q + n]] + rest) == s
  {
    var r := [s[..q], s[q..q + n]] + rest;
    assert r[1..] == [s[q..q + n]] + rest;
    assert r[1..][1..] == rest;
    assert Concat(r) == s[..q] + (s[q..q + n] + Concat(rest));
    assert s == s[..q] + (s[q..q + n] + s[q + n..]);
  }

  /** Every odd piece of the split is one `**X**` token, X non-empty and free of stars. */
  lemma {:induction false} BoldSplitTokens(s: string)
    ensures forall k :: 0 <= k < |BoldSplit(s)| && Odd(k) ==> IsBoldToken(BoldSplit(s)[k])
    decreases |s|
  {
    var r := BoldSplit(s);
    if FirstBold(s).Some? {
      var q, n := FirstBold(s).value.0, FirstBold(s).value.1;
      var rest := BoldSplit(s[q + n..]);
      BoldSplitUnfold(s);
      BoldSplitTokens(s[q + n..]);
      assert s[q..][..n] == s[q..q + n];
      TokensStep(s[..q], s[q..q + n], rest);
    } else {
      assert r == [s] && !Odd(0);
    }
  }

  /** Prefixing a text and a token keeps every odd piece a token. */
  lemma TokensStep(a: string, b: string, rest: seq<string>)
    requires IsBoldToken(b)
    requires forall k :: 0 <= k < |rest| && Odd(k) ==> IsBoldToken(rest[k])
    ensures forall k :: 0 <= k < |[a, b] + rest| && Odd(k) ==> IsBoldToken(([a, b] + rest)[k])
  {
    var r := [a, b] + rest;
    forall k | 0 <= k < |r| && Odd(k) ensures IsBoldToken(r[k]) {
      if k >= 2 {
        OddStep(k - 2);
        assert r[k] == rest[k - 2];
      }
    }
  }

  /** No match of the pattern starts anywhere in `p`. */
  predicate NoBoldIn(p: string) {
    forall i {:trigger MatchLen(p[i..])} :: 0 <= i <= |p| ==> MatchLen(p[i..]).None?
  }

  /** No match starts inside an even (plain) piece, counting what follows it. */
  predicate LeftmostPieces(r: seq<string>) {
    forall k, i {:trigger MatchLen(Concat(r[k..])[i..])} ::
      0 <= k < |r| && !Odd(k) && 0 <= i < |r[k]| ==> MatchLen(Concat(r[k..])[i..]).None?
  }

  /**
   * The split is leftmost: no match starts inside an even (plain) piece, even
   * when the rest of the line is taken into account.
   */
  lemma BoldSplitLeftmost(s: string, k: nat, i: nat)
    requires k < |BoldSplit(s)| && !Odd(k)
    requires i < |BoldSplit(s)[k]|
    ensures MatchLen(Concat(BoldSplit(s)[k..])[i..]).None?
  {
    SplitIsLeftmost(s);
  }

  lemma {:induction false} SplitIsLeftmost(s: string)
    ensures LeftmostPieces(BoldSplit(s))
    decreases |s|
  {
    var r := BoldSplit(s);
    if FirstBold(s).None? {
      NoMatchLeftmost(s);
    } else {
      var q, n := FirstBold(s).value.0, FirstBold(s).value.1;
      var rest := BoldSplit(s[q + n..]);
      BoldSplitUnfold(s);
      SplitIsLeftmost(s[q + n..]);
      ConsPieces(s, s[..q], s[q..q + n], rest);
    }
  }

  /** A line with no match at all is split into itself, which is leftmost. */
  lemma NoMatchLeftmost(s: string)
    requires NoMatchBefore(s, |s| + 1)
    ensures LeftmostPieces([s])
  {
    var r := [s];
    forall k, i | 0 <= k < |r| && !Odd(k) && 0 <= i < |r[k]| ensures MatchLen(Concat(r[k..])[i..]).None? {
      assert r[k..] == r && Concat(r) == s;
    }
  }

  /** Prefixing a text and a match keeps the pieces leftmost when nothing matches inside the text. */
  lemma ConsPieces(s: string, a: string, b: string, rest: seq<string>)
    requires Concat([a, b] + rest) == s
    requires NoMatchBefore(s, |a|)
    requires LeftmostPieces(rest)
    ensures LeftmostPieces([a, b] + rest)
  {
    var r := [a, b] + rest;
    forall k, i | 0 <= k < |r| && !Odd(k) && 0 <= i < |r[k]| ensures MatchLen(Concat(r[k..])[i..]).None? {
      if k == 0 {
        assert r[k..] == r && r[1..] == [b] + rest;
        assert Concat(r) == a + Concat([b] + rest);
      } else {
        OddStep(k - 2);
        assert r[k..] == rest[k - 2..] && r[k] == rest[k - 2];
      }
    }
  }

  lemma BoldSplitUnfold(s: string)
    requires FirstBold(s).Some?
    ensures var q, n := FirstBold(s).value.0, FirstBold(s).value.1;
      BoldSplit(s) == [s[..q], s[q..q + n]] + BoldSplit(s[q + n..])
  {
  }

  /** In particular every plain piece is free of bold tokens. */
  lemma BoldSplitPlainPieces(s: string, k: nat)
    requires k < |BoldSplit(s)| && !Odd(k)
    ensures NoBoldIn(BoldSplit(s)[k])
  {
    var r := BoldSplit(s);
    var t := Concat(r[k..]);
    assert r[k..] == [r[k]] + r[k + 1..];
    assert t == r[k] + Concat(r[k + 1..]);
    assert t[..|r[k]|] == r[k];
    forall i | 0 <= i < |r[k]| ensures MatchLen(t[i..]).None? {
      BoldSplitLeftmost(s, k, i);
    }
    PlainPieceNoBold(t, |r[k]|);
  }

  /** The text before the leftmost match contains no match of its own. */
  lemma PlainPieceNoBold(s: string, q: nat)
    requires q <= |s|
    requires forall i {:trigger MatchLen(s[i..])} :: 0 <= i < q ==> MatchLen(s[i..]).None?
    ensures NoBoldIn(s[..q])
  {
    forall i | 0 <= i <= q ensures MatchLen(s[..q][i..]).None? {
      if i < q && MatchLen(s[..q][i..]).Some? {
        assert s[..q][i..] == s[i..][..q - i];
        MatchLenPrefix(s[i..], q - i);
      }
    }
  }

  /** The split always has an odd number of pieces: text, match, text, ..., text. */
  lemma {:induction false} BoldSplitOddCount(s: string)
    ensures Odd(|BoldSplit(s)|)
    decreases |s|
  {
    var fb := FirstBold(s);
    if fb.Some? {
      var q, n := fb.value.0, fb.value.1;
      var rest := BoldSplit(s[q + n..]);
      BoldSplitUnfold(s);
      BoldSplitOddCount(s[q + n..]);
      assert |BoldSplit(s)| == |rest| + 2;
      OddStep(|rest|);
    }
  }

  // ---------------------------------------------------------------------
  // renderInline
  // ---------------------------------------------------------------------

  datatype Span = Plain(text: string) | Strong(text: string)

  /** `p.slice(2, -2)`: empty when fewer than four characters. */
  function SliceInner(p: string): string {
    if |p| >= 4 then p[2..|p| - 2] else []
  }

  /** `p.startsWith("**") ? <strong>{p.slice(2,-2)}</strong> : p` */
  function InlineSpan(p: string): Span {
    if StartsWith(p, "**") then Strong(SliceInner(p)) else Plain(p)
  }

  function RenderInline(line: string): seq<Span> {
    var pieces := BoldSplit(line);
    seq(|pieces|, k requires 0 <= k < |pieces| => InlineSpan(pieces[k]))
  }

  /** Every captured match is shown as strong text: its inner text, non-empty and free of stars. */
  lemma InlineMatchesAreStrong(line: string, k: nat)
    requires k < |BoldSplit(line)| && Odd(k)
    ensures var x := RenderInline(line)[k];
      x.Strong? && x.text != [] && '*' !in x.text &&
      BoldSplit(line)[k] == "**" + x.text + "**"
  {
    var p := BoldSplit(line)[k];
    BoldSplitToken(line, k);
    TokenShape(p);
    assert RenderInline(line)[k] == InlineSpan(p);
  }

  /** The odd piece at `k` is a token. */
  lemma BoldSplitToken(line: string, k: nat)
    requires k < |BoldSplit(line)| && Odd(k)
    ensures IsBoldToken(BoldSplit(line)[k])
  {
    BoldSplitTokens(line);
  }

  /** A token is its inner text, non-empty and star-free, between two `**` markers. */
  lemma TokenShape(p: string)
    requires IsBoldToken(p)
    ensures StartsWith(p, "**") && SliceInner(p) == p[2..|p| - 2]
    ensures p == "**" + p[2..|p| - 2] + "**" && p[2..|p| - 2] != [] && '*' !in p[2..|p| - 2]
  {
    assert p == p[..2] + p[2..|p| - 2] + p[|p| - 2..];
    var inner := p[2..|p| - 2];
    forall i | 0 <= i < |inner| ensures inner[i] != '*' {
      assert inner[i] == p[i + 2];
    }
  }

  /** Text of a span with its emphasis written back as `**` markers. */
  function Markup(spans: seq<Span>): string {
    if spans == [] then []
    else (match spans[0] case Plain(t) => t case Strong(t) => "**" + t + "**") + Markup(spans[1..])
  }

  /**
   * Round trip: when no plain piece happens to begin with `**`, writing the
   * markers back around the strong spans reconstructs the line.
   */
  lemma InlineRoundTrip(line: string)
    requires forall k :: 0 <= k < |BoldSplit(line)| && !Odd(k) ==> !StartsWith(BoldSplit(line)[k], "**")
    ensures Markup(RenderInline(line)) == line
  {
    var pieces := BoldSplit(line);
    var spans := RenderInline(line);
    forall k | 0 <= k < |pieces|
      ensures (spans[k].Plain? && spans[k].text == pieces[k]) ||
              (spans[k].Strong? && pieces[k] == "**" + spans[k].text + "**")
    {
      if Odd(k) {
        InlineMatchesAreStrong(line, k);
      } else {
        assert spans[k] == InlineSpan(pieces[k]);
      }
    }
    MarkupPieces(pieces, spans);
  }

  lemma {:induction false} MarkupPieces(pieces: seq<string>, spans: seq<Span>)
    requires |spans| == |pieces|
    requires forall k :: 0 <= k < |pieces| ==>
      (spans[k].Plain? && spans[k].text == pieces[k]) ||
      (spans[k].Strong? && pieces[k] == "**" + spans[k].text + "**")
    ensures Markup(spans) == Concat(pieces)
  {
    if pieces != [] {
      MarkupPieces(pieces[1..], spans[1..]);
    }
  }

  lemma InlineRoundTripPieces(line: string)
    ensures var pieces := BoldSplit(line); var spans := RenderInline(line);
      forall k :: 0 <= k < |pieces| && !Odd(k) && !StartsWith(pieces[k], "**") ==> spans[k] == Plain(pieces[k])
  {
  }

  /** A line with an unclosed `**` has no match: it is one piece. */
  lemma UnclosedMarkerNoMatch()
    ensures BoldSplit("**foo") == ["**foo"]
  {
    var s := "**foo";
    forall i | 0 <= i <= |s| ensures MatchLen(s[i..]).None? {
      UnclosedAt(i);
    }
    assert NoMatchBefore(s, |s| + 1);
  }

  /** No suffix of `**foo` starts with a match. */
  lemma UnclosedAt(i: nat)
    requires i <= 5
    ensures MatchLen("**foo"[i..]).None?
  {
    var s := "**foo";
    if i == 0 {
      assert s[0..] == s;
      assert s[2..] == "foo";
      assert !OccursAt(s, "**", 5);
    } else {
      assert !StartsWith(s[i..], "**") by {
        if i < 4 { assert s[i..][1] == s[i + 1]; }
      }
    }
  }

  /** An unmatched leading `**` is still shown as strong text, cut two characters at each end. */
  lemma UnmatchedLeadingMarker()
    ensures RenderInline("**foo") == [Strong("f")]
  {
    var s := "**foo";
    UnclosedMarkerNoMatch();
    assert StartsWith(s, "**") by { assert s[..2] == "**"; }
    assert |s| == 5 && SliceInner(s) == s[2..3];
    assert s[2..3] == "f";
    assert InlineSpan(s) == Strong("f");
    assert |RenderInline(s)| == 1 && RenderInline(s)[0] == InlineSpan(s);
  }

  // ---------------------------------------------------------------------
  // BUY / HOLD / SELL callouts
  // ---------------------------------------------------------------------

  /** The alternative of `/STRONG BUY|STRONG SELL|BUY|HOLD|SELL/i` that matches at the start of `t`, tried in that order. */
  function SignalAt(t: string): Option<Signal> {
    if StartsWithIgnoreCase(t, "STRONG BUY") then Some(StrongBuy)
    else if StartsWithIgnoreCase(t, "STRONG SELL") then Some(StrongSell)
    else if StartsWithIgnoreCase(t, "BUY") then Some(Buy)
    else if StartsWithIgnoreCase(t, "HOLD") then Some(Hold)
    else if StartsWithIgnoreCase(t, "SELL") then Some(Sell)
    else None
  }

  /**
   * At one position at most one alternative can match, so the order in which
   * the regular expression lists them does not matter.
   */
  lemma SignalAtIff(t: string, g: Signal)
    ensures SignalAt(t) == Some(g) <==> StartsWithIgnoreCase(t, SignalName(g))
  {
    if StartsWithIgnoreCase(t, SignalName(g)) {
      var h := SignalAt(t).value;
      assert StartsWithIgnoreCase(t, SignalName(h));
      AlternativesDisjoint(t, g, h);
    }
  }

  lemma AlternativesDisjoint(t: string, g: Signal, h: Signal)
    requires StartsWithIgnoreCase(t, SignalName(g)) && StartsWithIgnoreCase(t, SignalName(h))
    ensures g == h
  {
    var a, b := SignalName(g), SignalName(h);
    assert UpperChar(a[0]) == UpperChar(t[0]) == UpperChar(b[0]);
    assert UpperChar(a[1]) == UpperChar(t[1]) == UpperChar(b[1]);
    if |a| >= 8 && |b| >= 8 {
      assert UpperChar(a[7]) == UpperChar(t[7]) == UpperChar(b[7]);
    }
  }

  /** No signal word starts in `s` at a position below `q`. */
  predicate NoSignalBefore(s: string, q: nat) {
    forall i {:trigger SignalAt(s[i..])} :: 0 <= i < q && i <= |s| ==> SignalAt(s[i..]).None?
  }

  /** No signal at the head of `s` nor below `q` in its tail means none below `q + 1` in `s`. */
  lemma NoSignalShift(s: string, q: nat)
    requires s != [] && SignalAt(s).None? && NoSignalBefore(s[1..], q)
    ensures NoSignalBefore(s, q + 1)
  {
    forall i | 0 <= i < q + 1 && i <= |s| ensures SignalAt(s[i..]).None? {
      if i == 0 {
        assert s[i..] == s;
      } else {
        assert s[i..] == s[1..][i - 1..];
      }
    }
  }

  /** `line.match(/STRONG BUY|STRONG SELL|BUY|HOLD|SELL/i)`: leftmost position and the signal found there. */
  function FirstSignal(s: string): (r: Option<(nat, Signal)>)
    ensures r.Some? ==> r.value.0 <= |s| && SignalAt(s[r.value.0..]) == Some(r.value.1)
    ensures r.Some? ==> NoSignalBefore(s, r.value.0)
    ensures r.None? ==> NoSignalBefore(s, |s| + 1)
  {
    match SignalAt(s)
    case Some(g) => assert s[0..] == s; Some((0, g))
    case None =>
      if s == [] then
        assert s[0..] == s; None
      else
        match FirstSignal(s[1..])
        case None => NoSignalShift(s, |s|); None
        case Some((q, g)) =>
          NoSignalShift(s, q);
          assert s[q + 1..] == s[1..][q..];
          Some((q + 1, g))
  }

  /** `\*\*NAME\*\*` (case-insensitive) at the start of `t`. */
  predicate WrappedAt(t: string, name: string) {
    StartsWith(t, "**") && StartsWithIgnoreCase(t[2..], name) && StartsWith(t[2 + |name|..], "**")
  }

  /** `/\*\*(BUY|HOLD|SELL|STRONG BUY|STRONG SELL)\*\*\/i` matches at the start of `t`. */
  predicate WrappedSignalAt(t: string) {
    WrappedAt(t, "BUY") || WrappedAt(t, "HOLD") || WrappedAt(t, "SELL") ||
    WrappedAt(t, "STRONG BUY") || WrappedAt(t, "STRONG SELL")
  }

  predicate HasWrappedSignal(line: string) {
    exists i | 0 <= i <= |line| :: WrappedSignalAt(line[i..])
  }

  /**
   * A line that passes the callout test always has a reported signal, found
   * no later than the wrapped token.
   */
  lemma WrappedGivesSignal(line: string, i: nat)
    requires i <= |line| && WrappedSignalAt(line[i..])
    ensures FirstSignal(line).Some? && FirstSignal(line).value.0 <= i + 2
  {
    var t := line[i..];
    assert t[2..] == line[i + 2..];
    var u := line[i + 2..];
    var g :=
      if WrappedAt(t, "BUY") then Buy else if WrappedAt(t, "HOLD") then Hold
      else if WrappedAt(t, "SELL") then Sell else if WrappedAt(t, "STRONG BUY") then StrongBuy
      else StrongSell;
    assert StartsWithIgnoreCase(u, SignalName(g));
    SignalAtIff(u, g);
  }

  lemma HasWrappedGivesSignal(line: string)
    requires HasWrappedSignal(line)
    ensures FirstSignal(line).Some?
  {
    var i :| 0 <= i <= |line| && WrappedSignalAt(line[i..]);
    WrappedGivesSignal(line, i);
  }

  const CalloutGreen := "#26D97F"
  const CalloutGold := "#F0C040"
  const CalloutRed := "#FF4D6A"

  /** `signal?.includes("BUY") ? green : signal === "HOLD" ? gold : red` */
  function CalloutColour(signal: string): string {
    if Contains(signal, "BUY") then CalloutGreen
    else if signal == "HOLD" then CalloutGold
    else CalloutRed
  }

  /** Green for the two BUY signals, gold for HOLD, red for the two SELL signals. */
  lemma CalloutColourBySignal(g: Signal)
    ensures CalloutColour(SignalName(g)) ==
      (if g == Buy || g == StrongBuy then CalloutGreen else if g == Hold then CalloutGold else CalloutRed)
  {
    NameHasBuy(g);
  }

  // ---------------------------------------------------------------------
  // Table rows
  // ---------------------------------------------------------------------

  /** Characters of `[-:\s]`. */
  predicate SeparatorChar(c: char) {
    c == '-' || c == ':' || JsSpace(c)
  }

  /** `c.trim() && !c.match(/^[-:\s]+$/)` */
  predicate KeepCell(c: string) {
    Trim(c, JsSpace) != [] && !(|c| > 0 && forall i :: 0 <= i < |c| ==> SeparatorChar(c[i]))
  }

  /** A piece is kept exactly when it has a character other than `-`, `:` and white space. */
  lemma KeepCellIff(c: string)
    ensures KeepCell(c) <==> exists i | 0 <= i < |c| :: !SeparatorChar(c[i])
  {
    TrimEmptyIff(c, JsSpace);
  }

  /** `xs.filter(keep)`: the elements that pass, in their order. */
  function Filter<T>(keep: T -> bool, xs: seq<T>): (r: seq<T>)
    ensures |r| <= |xs|
  {
    if xs == [] then []
    else (if keep(xs[0]) then [xs[0]] else []) + Filter(keep, xs[1..])
  }

  /** Every element that survives the filter passes it and comes from the input. */
  lemma {:induction false} FilterSound<T>(keep: T -> bool, xs: seq<T>)
    ensures forall x :: x in Filter(keep, xs) ==> keep(x) && x in xs
  {
    if xs != [] {
      FilterSound(keep, xs[1..]);
      assert forall x :: x in xs[1..] ==> x in xs;
    }
  }

  /** The filter keeps the order of its input: it distributes over concatenation. */
  lemma {:induction false} FilterAppend<T>(keep: T -> bool, a: seq<T>, b: seq<T>)
    ensures Filter(keep, a + b) == Filter(keep, a) + Filter(keep, b)
  {
    if a == [] {
      assert a + b == b;
    } else {
      FilterAppend(keep, a[1..], b);
      FilterCons(keep, a, b);
    }
  }

  /** One step of FilterAppend: the first element is decided on its own. */
  lemma FilterCons<T>(keep: T -> bool, a: seq<T>, b: seq<T>)
    requires a != [] && Filter(keep, a[1..] + b) == Filter(keep, a[1..]) + Filter(keep, b)
    ensures Filter(keep, a + b) == Filter(keep, a) + Filter(keep, b)
  {
    var head := if keep(a[0]) then [a[0]] else [];
    assert (a + b)[0] == a[0] && (a + b)[1..] == a[1..] + b;
    FilterUnfold(keep, a + b);
    FilterUnfold(keep, a);
    AppendAssoc(head, Filter(keep, a[1..]), Filter(keep, b));
  }

  /** Proof helper: one unfolding of Filter. */
  lemma FilterUnfold<T>(keep: T -> bool, xs: seq<T>)
    requires xs != []
    ensures Filter(keep, xs) == (if keep(xs[0]) then [xs[0]] else []) + Filter(keep, xs[1..])
  {
  }

  /** `pieces.filter(c => c.trim() && !c.match(/^[-:\s]+$/))` */
  function KeptCells(pieces: seq<string>): (r: seq<string>)
    ensures |r| <= |pieces|
  {
    Filter(KeepCell, pieces)
  }

  /** The kept cells are pieces of the line, each of them keepable. */
  lemma KeptCellsSound(pieces: seq<string>)
    ensures forall c :: c in KeptCells(pieces) ==> KeepCell(c) && c in pieces
  {
    FilterSound(KeepCell, pieces);
  }

  /** The table filter keeps the order of the pieces: it distributes over concatenation. */
  lemma KeptCellsAppend(a: seq<string>, b: seq<string>)
    ensures KeptCells(a + b) == KeptCells(a) + KeptCells(b)
  {
    FilterAppend(KeepCell, a, b);
  }

  /** A single piece is kept exactly when it is keepable. */
  lemma KeptCellsOne(c: string)
    ensures KeptCells([c]) == if KeepCell(c) then [c] else []
  {
    assert [c][1..] == [];
  }

  /** `cell.trim().replace(/\*\*\/g, "")` */
  function ShowCell(c: string): string {
    StripMarkers(Trim(c, JsSpace))
  }

  function TableCells(line: string): seq<string> {
    var kept := KeptCells(Split(line, '|'));
    seq(|kept|, k requires 0 <= k < |kept| => ShowCell(kept[k]))
  }

  /** Shown cells never contain the column bar or a `**` marker. */
  lemma TableCellsClean(line: string, k: nat)
    requires k < |TableCells(line)|
    ensures '|' !in TableCells(line)[k] && NoMarker(TableCells(line)[k])
  {
    var kept := KeptCells(Split(line, '|'));
    var c := kept[k];
    KeptCellsSound(Split(line, '|'));
    assert c in kept;
    assert '|' !in c;
    TrimIsInfix(c, JsSpace);
    var t := Trim(c, JsSpace);
    var i: nat :| i <= |c| && OccursAt(c, t, i);
    assert forall j :: 0 <= j < |t| ==> t[j] == c[i + j];
    assert '|' !in t;
  }

  // ---------------------------------------------------------------------
  // renderContent
  // ---------------------------------------------------------------------

  datatype Block =
    | Heading(level: nat, text: string)
    | Divider
    | TableRow(cells: seq<string>)
    | ListItem(spans: seq<Span>)
    | Callout(signal: Signal, colour: string, text: string)
    | Blank
    | Paragraph(spans: seq<Span>)

  /** `/^[-*] /` */
  predicate IsBullet(line: string) {
    |line| >= 2 && (line[0] == '-' || line[0] == '*') && line[1] == ' '
  }

  /** The element rendered for one line; `None` is the `null` a table line without cells yields. */
  function RenderLine(line: string): (r: Option<Block>)
    ensures r.None? ==> StartsWith(line, "|") && TableCells(line) == []
    ensures StartsWith(line, "|") ==>
      r == (if TableCells(line) == [] then None else Some(TableRow(TableCells(line))))
    ensures r.Some? && r.value.Heading? ==> 1 <= r.value.level <= 3
  {
    if StartsWith(line, "# ") then Some(Heading(1, line[2..]))
    else if StartsWith(line, "## ") then Some(Heading(2, line[3..]))
    else if StartsWith(line, "### ") then Some(Heading(3, line[4..]))
    else if StartsWith(line, "---") then Some(Divider)
    else if StartsWith(line, "|") then
      var cells := TableCells(line);
      if cells == [] then None else Some(TableRow(cells))
    else if IsBullet(line) then Some(ListItem(RenderInline(line[2..])))
    else if HasWrappedSignal(line) then
      HasWrappedGivesSignal(line);
      var g := FirstSignal(line).value.1;
      Some(Callout(g, CalloutColour(SignalName(g)), StripMarkers(line)))
    else if Trim(line, JsSpace) == [] then Some(Blank)
    else Some(Paragraph(RenderInline(line)))
  }

  /** `text.split("\n").map(...)`: one entry per line, in order. */
  function RenderContent(text: string): (r: seq<Option<Block>>)
    ensures |r| == |Split(text, '\n')| >= 1
    ensures forall i :: 0 <= i < |r| && r[i].None? ==> StartsWith(Split(text, '\n')[i], "|")
  {
    var lines := Split(text, '\n');
    seq(|lines|, i requires 0 <= i < |lines| => RenderLine(lines[i]))
  }

  /** Rendering is line by line: a reply made of given lines renders to their renderings. */
  lemma RenderContentOfLines(lines: seq<string>)
    requires |lines| >= 1
    requires forall k :: 0 <= k < |lines| ==> '\n' !in lines[k]
    ensures var r := RenderContent(Join(lines, '\n'));
      |r| == |lines| && forall k :: 0 <= k < |lines| ==> r[k] == RenderLine(lines[k])
  {
    SplitJoin(lines, '\n');
  }

  /**
   * The rules of `renderContent` in the order they are tried: each applies
   * to a line that no earlier rule took. The table rule is RenderLine's own
   * contract and the callout rule is CalloutIff.
   */
  lemma RenderLineOrder(line: string)
    ensures StartsWith(line, "# ") ==> RenderLine(line) == Some(Heading(1, line[2..]))
    ensures (!StartsWith(line, "# ") && StartsWith(line, "## ")) ==>
      RenderLine(line) == Some(Heading(2, line[3..]))
    ensures (!StartsWith(line, "# ") && !StartsWith(line, "## ") && StartsWith(line, "### ")) ==>
      RenderLine(line) == Some(Heading(3, line[4..]))
    ensures (!StartsWith(line, "# ") && !StartsWith(line, "## ") && !StartsWith(line, "### ") &&
             StartsWith(line, "---")) ==>
      RenderLine(line) == Some(Divider)
    ensures (!StartsWith(line, "# ") && !StartsWith(line, "## ") && !StartsWith(line, "### ") &&
             !StartsWith(line, "---") && !StartsWith(line, "|") && IsBullet(line)) ==>
      RenderLine(line) == Some(ListItem(RenderInline(line[2..])))
    ensures (!StartsWith(line, "# ") && !StartsWith(line, "## ") && !StartsWith(line, "### ") &&
             !StartsWith(line, "---") && !StartsWith(line, "|") && !IsBullet(line) &&
             !HasWrappedSignal(line)) ==>
      RenderLine(line) == if Trim(line, JsSpace) == [] then Some(Blank) else Some(Paragraph(RenderInline(line)))
  {
  }

  /**
   * A callout is produced exactly when no earlier rule applies and a signal
   * token wrapped in `**` occurs; its signal is the leftmost token anywhere in
   * the line and its text is the line without markers.
   */
  lemma CalloutIff(line: string)
    ensures (RenderLine(line).Some? && RenderLine(line).value.Callout?) <==>
      (!StartsWith(line, "# ") && !StartsWith(line, "## ") && !StartsWith(line, "### ") &&
       !StartsWith(line, "---") && !StartsWith(line, "|") && !IsBullet(line) && HasWrappedSignal(line))
    ensures RenderLine(line).Some? && RenderLine(line).value.Callout? ==>
      var b := RenderLine(line).value;
      (exists p | 0 <= p <= |line| ::
         StartsWithIgnoreCase(line[p..], SignalName(b.signal)) &&
         forall j :: 0 <= j < p ==> SignalAt(line[j..]).None?) &&
      b.text == StripMarkers(line) && NoMarker(b.text)
  {
    if RenderLine(line).Some? && RenderLine(line).value.Callout? {
      HasWrappedGivesSignal(line);
      var p := FirstSignal(line).value.0;
      SignalAtIff(line[p..], RenderLine(line).value.signal);
    }
  }
}
