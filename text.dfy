/**
 * String helpers shared by the front end and the back end models:
 * splitting on one separator character (JavaScript `String.split` with a
 * one-character string and Python `str.split(",")` agree on it), trimming,
 * ASCII upper-casing and the global removal of the `**` emphasis marker,
 * plus the trailing-window slice both languages share.
 */
module Text {

  datatype Option<+T> = None | Some(value: T)

  /** Characters that JavaScript's `trim()` and regex `\s` treat as white space (ASCII part). */
  predicate JsSpace(c: char) {
    c == ' ' || c == '\t' || c == '\n' || c == '\r' || c == '\U{000B}' || c == '\U{000C}'
  }

  /** Characters that Python's `str.strip()` treats as white space (ASCII part). */
  predicate PySpace(c: char) {
    JsSpace(c) || c == '\U{001C}' || c == '\U{001D}' || c == '\U{001E}' || c == '\U{001F}'
  }

  predicate StartsWith(s: string, p: string) {
    |p| <= |s| && s[..|p|] == p
  }

  predicate EndsWith(s: string, p: string) {
    |p| <= |s| && s[|s| - |p|..] == p
  }

  /** `t` occurs in `s` at position `i`. */
  predicate OccursAt(s: string, t: string, i: nat) {
    i + |t| <= |s| && s[i..i + |t|] == t
  }

  predicate Contains(s: string, t: string) {
    exists i: nat | i <= |s| :: OccursAt(s, t, i)
  }

  /** `t` occurs in `a + t + b` right after `a`. */
  lemma InfixOccurs(a: string, t: string, b: string)
    ensures OccursAt(a + t + b, t, |a|) && Contains(a + t + b, t)
  {
    var i: nat := |a|;
    assert (a + t + b)[i..i + |t|] == t;
    assert i <= |a + t + b| && OccursAt(a + t + b, t, i);
  }

  /** Removes leading characters satisfying `space`. */
  function TrimStart(s: string, space: char -> bool): (r: string)
    ensures |r| <= |s| && r == s[|s| - |r|..]
    ensures r == [] || !space(r[0])
    ensures forall i :: 0 <= i < |s| - |r| ==> space(s[i])
  {
    if |s| > 0 && space(s[0]) then
      var r := TrimStart(s[1..], space);
      assert s[1..][|s| - 1 - |r|..] == s[|s| - |r|..];
      r
    else s
  }

  /** Removes trailing characters satisfying `space`. */
  function TrimEnd(s: string, space: char -> bool): (r: string)
    ensures |r| <= |s| && r == s[..|r|]
    ensures r == [] || !space(r[|r| - 1])
    ensures forall i :: |r| <= i < |s| ==> space(s[i])
  {
    if |s| > 0 && space(s[|s| - 1]) then
      var r := TrimEnd(s[..|s| - 1], space);
      assert s[..|s| - 1][..|r|] == s[..|r|];
      r
    else s
  }

  function Trim(s: string, space: char -> bool): string {
    TrimEnd(TrimStart(s, space), space)
  }

  /** Text with no space at either end trims to itself. */
  lemma TrimFixed(s: string, space: char -> bool)
    requires s != [] && !space(s[0]) && !space(s[|s| - 1])
    ensures Trim(s, space) == s
  {
    assert TrimStart(s, space) == s;
  }

  /** A string trims to nothing exactly when every character in it is white space. */
  lemma TrimEmptyIff(s: string, space: char -> bool)
    ensures Trim(s, space) == [] <==> forall i :: 0 <= i < |s| ==> space(s[i])
  {
    var l := TrimStart(s, space);
    if l != [] {
      assert l[0] == s[|s| - |l|] && !space(l[0]);
    }
  }

  /** Trimmed text starts and ends with a non-space character and lies inside `s`. */
  lemma TrimIsInfix(s: string, space: char -> bool)
    ensures var t := Trim(s, space);
      (t == [] || (!space(t[0]) && !space(t[|t| - 1]))) &&
      exists i: nat | i <= |s| :: OccursAt(s, t, i)
  {
    var l := TrimStart(s, space);
    var t := TrimEnd(l, space);
    var i := |s| - |l|;
    assert s[i..i + |t|] == t;
    assert OccursAt(s, t, i);
  }

  function UpperChar(c: char): (u: char)
    ensures 'a' <= c <= 'z' ==> 'A' <= u <= 'Z'
    ensures !('a' <= c <= 'z') ==> u == c
  {
    if 'a' <= c <= 'z' then (c as int - 32) as char else c
  }

  /** ASCII upper-casing (`.upper()` / `.toUpperCase()` restricted to ASCII). */
  function Upper(s: string): (r: string)
    ensures |r| == |s|
    ensures forall i :: 0 <= i < |s| ==> r[i] == UpperChar(s[i])
  {
    if s == [] then [] else [UpperChar(s[0])] + Upper(s[1..])
  }

  /** Upper-casing twice is upper-casing once. */
  lemma UpperIdempotent(s: string)
    ensures Upper(Upper(s)) == Upper(s)
  {
  }

  /** `s` begins with `p` when both are compared case-insensitively (ASCII folding). */
  predicate StartsWithIgnoreCase(s: string, p: string) {
    |p| <= |s| && forall i :: 0 <= i < |p| ==> UpperChar(s[i]) == UpperChar(p[i])
  }

  /** `s.split(sep)`: the maximal pieces between occurrences of `sep`. */
  function Split(s: string, sep: char): (r: seq<string>)
    ensures |r| >= 1
    ensures forall k :: 0 <= k < |r| ==> sep !in r[k]
    ensures sep !in s ==> r == [s]
  {
    if s == [] then [[]]
    else if s[0] == sep then [[]] + Split(s[1..], sep)
    else
      var rest := Split(s[1..], sep);
      assert s == [s[0]] + s[1..];
      [[s[0]] + rest[0]] + rest[1..]
  }

  /** `sep.join(pieces)`. */
  function Join(pieces: seq<string>, sep: char): string
    requires |pieces| >= 1
  {
    if |pieces| == 1 then pieces[0] else pieces[0] + [sep] + Join(pieces[1..], sep)
  }

  /** Joining the pieces of a split gives the original string back. */
  lemma {:induction false} JoinSplit(s: string, sep: char)
    ensures Join(Split(s, sep), sep) == s
  {
    if s != [] {
      JoinSplit(s[1..], sep);
      if s[0] == sep {
        JoinEmptyHead(Split(s[1..], sep), sep);
      } else {
        JoinLongerHead(s[0], Split(s[1..], sep), sep);
      }
      assert s == [s[0]] + s[1..];
    }
  }

  /** An empty first piece contributes only the separator that follows it. */
  lemma JoinEmptyHead(rest: seq<string>, sep: char)
    requires |rest| >= 1
    ensures Join([[]] + rest, sep) == [sep] + Join(rest, sep)
  {
    assert ([[]] + rest)[1..] == rest;
  }

  /** A character put in front of the first piece is put in front of the join. */
  lemma JoinLongerHead(c: char, rest: seq<string>, sep: char)
    requires |rest| >= 1
    ensures Join([[c] + rest[0]] + rest[1..], sep) == [c] + Join(rest, sep)
  {
    var r := [[c] + rest[0]] + rest[1..];
    if |rest| > 1 {
      assert r[1..] == rest[1..];
      assert Join(r, sep) == ([c] + rest[0]) + [sep] + Join(rest[1..], sep);
      assert Join(rest, sep) == rest[0] + [sep] + Join(rest[1..], sep);
    }
  }

  /** Splitting a join of separator-free pieces gives the pieces back. */
  lemma {:induction false} SplitJoin(pieces: seq<string>, sep: char)
    requires |pieces| >= 1
    requires forall k :: 0 <= k < |pieces| ==> sep !in pieces[k]
    ensures Split(Join(pieces, sep), sep) == pieces
  {
    if |pieces| == 1 {
    } else {
      SplitJoin(pieces[1..], sep);
      SplitPrefix(pieces[0], Join(pieces[1..], sep), sep);
      assert pieces == [pieces[0]] + pieces[1..];
    }
  }

  /** A separator-free head followed by a separator starts a new piece. */
  lemma {:induction false} SplitPrefix(head: string, tail: string, sep: char)
    requires sep !in head
    ensures Split(head + [sep] + tail, sep) == [head] + Split(tail, sep)
  {
    if head == [] {
      assert head + [sep] + tail == [sep] + tail;
    } else {
      SplitPrefix(head[1..], tail, sep);
      assert (head + [sep] + tail)[1..] == head[1..] + [sep] + tail;
      assert head == [head[0]] + head[1..];
    }
  }

  /** `s.replace(/\*\*\/g, "")`: every `**` removed, scanning left to right. */
  function StripMarkers(s: string): (r: string)
    ensures |r| <= |s|
    ensures |s| > 0 && s[0] != '*' ==> |r| > 0 && r[0] == s[0]
    ensures NoMarker(r)
    ensures forall i :: 0 <= i < |r| ==> r[i] in s
  {
    if |s| >= 2 && s[0] == '*' && s[1] == '*' then StripMarkers(s[2..])
    else if s == [] then []
    else [s[0]] + StripMarkers(s[1..])
  }

  /** No two adjacent stars. */
  predicate NoMarker(s: string) {
    forall i :: 0 <= i < |s| - 1 ==> !(s[i] == '*' && s[i + 1] == '*')
  }

  /** Removing markers from text that has none changes nothing, so stripping is idempotent. */
  lemma {:induction false} StripMarkersNoMarker(s: string)
    requires NoMarker(s)
    ensures StripMarkers(s) == s
  {
    if s != [] {
      assert NoMarker(s[1..]) by {
        forall i | 0 <= i < |s[1..]| - 1 ensures !(s[1..][i] == '*' && s[1..][i + 1] == '*') {
          assert s[1..][i] == s[i + 1] && s[1..][i + 1] == s[i + 2];
        }
      }
      StripMarkersNoMarker(s[1..]);
    }
  }

  /** The characters of `s` other than `*`, in order. */
  function NonStars(s: string): (r: string)
    ensures '*' !in r
  {
    if s == [] then [] else (if s[0] == '*' then [] else [s[0]]) + NonStars(s[1..])
  }

  /** Proof helper: one unfolding of NonStars on a concatenation. */
  lemma NonStarsCons(c: char, s: string)
    ensures NonStars([c] + s) == (if c == '*' then [] else [c]) + NonStars(s)
  {
    assert ([c] + s)[1..] == s;
  }

  /** Stripping removes only stars: every other character survives, in order. */
  lemma {:induction false} StripMarkersKeepsText(s: string)
    ensures NonStars(StripMarkers(s)) == NonStars(s)
  {
    if |s| >= 2 && s[0] == '*' && s[1] == '*' {
      StripMarkersKeepsText(s[2..]);
      assert s[1..][1..] == s[2..];
    } else if s != [] {
      StripMarkersKeepsText(s[1..]);
      NonStarsCons(s[0], StripMarkers(s[1..]));
    }
  }

  /** Proof helper: the head and the tail of a concatenation whose left part is non-empty. */
  lemma ConsAppend<T>(a: seq<T>, b: seq<T>)
    requires a != []
    ensures (a + b)[0] == a[0] && (a + b)[1..] == a[1..] + b
  {
  }

  /** Proof helper: appending is associative. */
  lemma AppendAssoc<T>(x: seq<T>, y: seq<T>, z: seq<T>)
    ensures x + (y + z) == (x + y) + z
  {
  }

  lemma StripMarkersIdempotent(s: string)
    ensures StripMarkers(StripMarkers(s)) == StripMarkers(s)
  {
    StripMarkersNoMarker(StripMarkers(s));
  }

  /** `xs.slice(-n)` / `xs[-n:]`: the last `n` elements, or all of them when there are fewer. */
  function LastN<T>(xs: seq<T>, n: nat): (r: seq<T>)
    ensures |r| == if |xs| < n then |xs| else n
    ensures forall k :: 0 <= k < |r| ==> r[k] == xs[|xs| - |r| + k]
  {
    if |xs| <= n then xs else xs[|xs| - n..]
  }

  /** The window always ends where the transcript ends: appending one message slides it by one. */
  lemma {:induction false} LastNSlides<T>(xs: seq<T>, x: T, n: nat)
    requires n > 0
    ensures LastN(xs + [x], n) == (if |xs| < n then LastN(xs, n) else LastN(xs, n)[1..]) + [x]
  {
    var ys := xs + [x];
    if |xs| < n {
      assert LastN(ys, n) == ys;
    } else {
      assert ys[|ys| - n..] == xs[|xs| - n..][1..] + [x];
    }
  }

  /** Python's truthiness test on an optional string: present and non-empty. */
  predicate Truthy(o: Option<string>) {
    o.Some? && o.value != []
  }

  /** Decimal digits of a natural number (Python `str(n)` / f-string on an int). */
  function NatToString(n: nat): (r: string)
    ensures |r| >= 1
    ensures forall i :: 0 <= i < |r| ==> '0' <= r[i] <= '9'
  {
    if n < 10 then [DigitChar(n)] else NatToString(n / 10) + [DigitChar(n % 10)]
  }

  function DigitChar(d: nat): (c: char)
    requires d < 10
    ensures '0' <= c <= '9'
  {
    ('0' as int + d) as char
  }

  /** Reading the digits back gives the number: the rendering is faithful. */
  function DigitsValue(s: string): int
  {
    if s == [] then 0 else DigitsValue(s[..|s| - 1]) * 10 + (s[|s| - 1] as int - '0' as int)
  }

  lemma {:induction false} NatToStringValue(n: nat)
    ensures DigitsValue(NatToString(n)) == n
  {
    if n >= 10 {
      NatToStringValue(n / 10);
      var s := NatToString(n);
      assert s[..|s| - 1] == NatToString(n / 10);
    }
  }
}
