// The fragment of regular expressions the injection signatures use, matched the way
// a backtracking engine matches it: alternatives left to right, optional and
// repeated parts longest first.
module Regex {

  datatype Regex =
    | Lit(text: string)          // these characters, ignoring case
    | Space                      // \s
    | Spaces                     // \s*
    | Then(first: Regex, second: Regex)
    | Maybe(body: Regex)         // ?
    | Either(left: Regex, right: Regex)

  // Whitespace of Unicode text patterns.
  predicate IsSpace(c: char) {
    || '\t' <= c <= '\r' || '\U{1c}' <= c <= ' ' || c == '\U{85}' || c == '\U{a0}' || c == '\U{1680}'
    || '\U{2000}' <= c <= '\U{200a}' || c == '\U{2028}' || c == '\U{2029}' || c == '\U{202f}'
    || c == '\U{205f}' || c == '\U{3000}'
  }

  // Case folding as it affects ASCII letters: the two cases, the dotted and dotless
  // i, the long s and the Kelvin sign.
  function Fold(c: char): char {
    if 'A' <= c <= 'Z' then (c as int + 32) as char
    else if c == '\U{130}' || c == '\U{131}' then 'i'
    else if c == '\U{17f}' then 's'
    else if c == '\U{212a}' then 'k'
    else c
  }

  predicate SameText(s: string, t: string) {
    |s| == |t| && forall i | 0 <= i < |s| :: Fold(s[i]) == Fold(t[i])
  }

  // Every word contains a whitespace character or '<' (so no word is empty).
  predicate Marked(r: Regex) {
    match r
    case Lit(s) => '<' in s
    case Space => true
    case Spaces => false
    case Then(a, b) => Marked(a) || Marked(b)
    case Maybe(_) => false
    case Either(a, b) => Marked(a) && Marked(b)
  }

  // No word contains a square bracket.
  predicate Plain(r: Regex) {
    match r
    case Lit(s) => forall i | 0 <= i < |s| :: Fold(s[i]) != '[' && Fold(s[i]) != ']'
    case Space => true
    case Spaces => true
    case Then(a, b) => Plain(a) && Plain(b)
    case Maybe(a) => Plain(a)
    case Either(a, b) => Plain(a) && Plain(b)
  }

  /* ---------- the language ---------- */

  ghost predicate Word(r: Regex, w: string) {
    match r
    case Lit(s) => SameText(s, w)
    case Space => |w| == 1 && IsSpace(w[0])
    case Spaces => forall c | c in w :: IsSpace(c)
    case Then(a, b) => exists k | 0 <= k <= |w| :: Word(a, w[..k]) && Word(b, w[k..])
    case Maybe(a) => w == "" || Word(a, w)
    case Either(a, b) => Word(a, w) || Word(b, w)
  }

  predicate Marker(c: char) {
    IsSpace(c) || c == '<'
  }

  lemma {:induction false} PlainWord(r: Regex, w: string)
    requires Plain(r) && Word(r, w)
    ensures '[' !in w && ']' !in w
  {
    match r {
      case Lit(_) =>
      case Space =>
      case Spaces =>
      case Then(a, b) =>
        var k :| 0 <= k <= |w| && Word(a, w[..k]) && Word(b, w[k..]);
        PlainWord(a, w[..k]);
        PlainWord(b, w[k..]);
        assert w == w[..k] + w[k..];
      case Maybe(a) => if w != "" { PlainWord(a, w); }
      case Either(a, b) => if Word(a, w) { PlainWord(a, w); } else { PlainWord(b, w); }
    }
  }

  lemma {:induction false} MarkedWord(r: Regex, w: string)
    requires Marked(r) && Word(r, w)
    ensures exists c | c in w :: Marker(c)
  {
    match r {
      case Lit(s) =>
        var i :| 0 <= i < |s| && s[i] == '<';
        assert Fold(w[i]) == Fold(s[i]) == '<' && w[i] in w;
      case Space => assert w[0] in w && Marker(w[0]);
      case Then(a, b) =>
        var k :| 0 <= k <= |w| && Word(a, w[..k]) && Word(b, w[k..]);
        assert w == w[..k] + w[k..];
        if Marked(a) {
          MarkedWord(a, w[..k]);
          var c :| c in w[..k] && Marker(c);
          assert c in w;
        } else {
          MarkedWord(b, w[k..]);
          var c :| c in w[k..] && Marker(c);
          assert c in w;
        }
      case Either(a, b) => if Word(a, w) { MarkedWord(a, w); } else { MarkedWord(b, w); }
    }
  }

  /* ---------- the matcher ---------- */

  // Where matches of r that start at i may end, in the order the engine tries them.
  function Ends(r: Regex, s: string, i: nat): (ends: seq<nat>)
    requires i <= |s|
    ensures forall e | e in ends :: i <= e <= |s|
    decreases r, 0
  {
    match r
    case Lit(t) => if i + |t| <= |s| && SameText(t, s[i..i + |t|]) then [i + |t|] else []
    case Space => if i < |s| && IsSpace(s[i]) then [i + 1] else []
    case Spaces => SpaceEnds(s, i)
    case Then(a, b) => Continue(b, s, i, Ends(a, s, i))
    case Maybe(a) => Ends(a, s, i) + [i]
    case Either(a, b) => Ends(a, s, i) + Ends(b, s, i)
  }

  function SpaceEnds(s: string, i: nat): (ends: seq<nat>)
    requires i <= |s|
    ensures forall e | e in ends :: i <= e <= |s|
    decreases |s| - i
  {
    (if i < |s| && IsSpace(s[i]) then SpaceEnds(s, i + 1) else []) + [i]
  }

  // Matches b from each end of the part before it, in order.
  function Continue(b: Regex, s: string, i: nat, starts: seq<nat>): (ends: seq<nat>)
    requires forall k | k in starts :: i <= k <= |s|
    ensures forall e | e in ends :: i <= e <= |s|
    decreases b, |starts| + 1
  {
    if starts == [] then []
    else
      assert starts[0] in starts && forall k | k in starts[1..] :: k in starts;
      Ends(b, s, starts[0]) + Continue(b, s, i, starts[1..])
  }

  lemma {:induction false} SpaceEndsExact(s: string, i: nat, e: nat)
    requires i <= e <= |s|
    ensures e in SpaceEnds(s, i) <==> forall c | c in s[i..e] :: IsSpace(c)
    decreases |s| - i
  {
    if i < e {
      assert s[i..e] == [s[i]] + s[i + 1..e];
      SpaceEndsExact(s, i + 1, e);
    }
  }

  lemma {:induction false} ContinueExact(b: Regex, s: string, i: nat, starts: seq<nat>, e: nat)
    requires forall k | k in starts :: i <= k <= |s|
    ensures e in Continue(b, s, i, starts) <==> exists k | k in starts :: e in Ends(b, s, k)
    decreases |starts|
  {
    if starts != [] {
      assert starts == [starts[0]] + starts[1..];
      assert starts[0] in starts && forall k | k in starts[1..] :: k in starts;
      ContinueExact(b, s, i, starts[1..], e);
    }
  }

  lemma Slices(s: string, i: nat, n: nat, e: nat)
    requires i + n <= e <= |s|
    ensures s[i..e][..n] == s[i..i + n] && s[i..e][n..] == s[i + n..e]
  {
  }

  lemma JoinWord(a: Regex, b: Regex, s: string, i: nat, k: nat, e: nat)
    requires i <= k <= e <= |s| && Word(a, s[i..k]) && Word(b, s[k..e])
    ensures Word(Then(a, b), s[i..e])
  {
    Slices(s, i, k - i, e);
  }

  lemma {:induction false} EndsSound(r: Regex, s: string, i: nat, e: nat)
    requires i <= |s| && e in Ends(r, s, i)
    ensures i <= e <= |s| && Word(r, s[i..e])
    decreases r
  {
    match r {
      case Lit(_) =>
      case Space =>
      case Spaces => SpaceEndsExact(s, i, e);
      case Then(a, b) =>
        ContinueExact(b, s, i, Ends(a, s, i), e);
        var k :| k in Ends(a, s, i) && e in Ends(b, s, k);
        EndsSound(a, s, i, k);
        EndsSound(b, s, k, e);
        JoinWord(a, b, s, i, k, e);
      case Maybe(a) => if e in Ends(a, s, i) { EndsSound(a, s, i, e); }
      case Either(a, b) => if e in Ends(a, s, i) { EndsSound(a, s, i, e); } else { EndsSound(b, s, i, e); }
    }
  }

  lemma SplitWord(a: Regex, b: Regex, s: string, i: nat, e: nat) returns (k: nat)
    requires i <= e <= |s| && Word(Then(a, b), s[i..e])
    ensures i <= k <= e && Word(a, s[i..k]) && Word(b, s[k..e])
  {
    var n: nat :| n <= e - i && Word(a, s[i..e][..n]) && Word(b, s[i..e][n..]);
    Slices(s, i, n, e);
    k := i + n;
  }

  lemma {:induction false} EndsComplete(r: Regex, s: string, i: nat, e: nat)
    requires i <= e <= |s| && Word(r, s[i..e])
    ensures e in Ends(r, s, i)
    decreases r
  {
    match r {
      case Lit(_) =>
      case Space =>
      case Spaces => SpaceEndsExact(s, i, e);
      case Then(a, b) =>
        var k := SplitWord(a, b, s, i, e);
        EndsComplete(a, s, i, k);
        EndsComplete(b, s, k, e);
        ContinueExact(b, s, i, Ends(a, s, i), e);
      case Maybe(a) => if s[i..e] != "" { EndsComplete(a, s, i, e); }
      case Either(a, b) =>
        if Word(a, s[i..e]) { EndsComplete(a, s, i, e); } else { EndsComplete(b, s, i, e); }
    }
  }

  // The matcher reaches e from i exactly when the text between them is a word: a
  // match depends on nothing outside itself.
  lemma EndsExact(r: Regex, s: string, i: nat, e: nat)
    requires i <= e <= |s|
    ensures e in Ends(r, s, i) <==> Word(r, s[i..e])
  {
    if e in Ends(r, s, i) {
      EndsSound(r, s, i, e);
    }
    if Word(r, s[i..e]) {
      EndsComplete(r, s, i, e);
    }
  }

  lemma MarkedAdvances(r: Regex, s: string, i: nat, e: nat)
    requires Marked(r) && i <= |s| && e in Ends(r, s, i)
    ensures i < e <= |s|
  {
    EndsExact(r, s, i, e);
    MarkedWord(r, s[i..e]);
  }

  /* ---------- searching and replacing ---------- */

  ghost predicate OccursAt(r: Regex, s: string, i: nat, j: nat) {
    i <= j <= |s| && Word(r, s[i..j])
  }

  // Some word of r occurs in s.
  ghost predicate Occurs(r: Regex, s: string) {
    exists i: nat, j: nat :: OccursAt(r, s, i, j)
  }

  // re.search.
  predicate Search(r: Regex, s: string) {
    exists i | 0 <= i <= |s| :: Ends(r, s, i) != []
  }

  lemma SearchExact(r: Regex, s: string)
    ensures Search(r, s) <==> Occurs(r, s)
  {
    if Search(r, s) {
      var i :| 0 <= i <= |s| && Ends(r, s, i) != [];
      var e := Ends(r, s, i)[0];
      assert e in Ends(r, s, i);
      EndsExact(r, s, i, e);
      assert OccursAt(r, s, i, e);
    }
    if Occurs(r, s) {
      var i: nat, j: nat :| OccursAt(r, s, i, j);
      EndsExact(r, s, i, j);
    }
  }

  // re.sub from position i on: leftmost matches, first choice of the engine, resuming
  // where the match ended.
  function Sub(r: Regex, token: string, s: string, i: nat): string
    requires Marked(r) && i <= |s|
    decreases |s| - i
  {
    if i == |s| then ""
    else
      var ends := Ends(r, s, i);
      if ends == [] then [s[i]] + Sub(r, token, s, i + 1)
      else
        MarkedAdvances(r, s, i, ends[0]);
        token + Sub(r, token, s, ends[0])
  }
}
