// Neutralising instructions embedded in untrusted text: control characters are
// stripped, then each signature in turn is searched for and replaced by a token.
// Later replacements run over text that earlier signatures already cleaned.
//
// The argument is about any list of signatures whose words contain no square bracket
// and at least one whitespace character or '<', and any bracketed token without such
// characters. Module Signatures instantiates it with the eight signatures.
module Quarantine {
  import opened Regex

  type Signature = r: Regex | Plain(r) && Marked(r) witness Space

  predicate Control(c: char) {
    c <= '\U{8}' || c == '\U{b}' || c == '\U{c}' || '\U{e}' <= c <= '\U{1f}' || c == '\U{7f}'
  }

  // What replaces a match.
  type Token = t: string |
      && |t| >= 2 && t[0] == '[' && t[|t| - 1] == ']'
      && forall i | 0 <= i < |t| :: !Marker(t[i]) && !Control(t[i])
    witness "[]"

  /* ---------- what one replacement does ---------- */

  // Up to the first bracket, the output copies the input.
  lemma {:induction false} LiteralPrefix(r: Signature, token: Token, s: string, i: nat, m: nat)
    requires i <= |s| && m <= |Sub(r, token, s, i)|
    requires '[' !in Sub(r, token, s, i)[..m]
    ensures i + m <= |s| && Sub(r, token, s, i)[..m] == s[i..i + m]
    decreases |s| - i
  {
    if m > 0 {
      var out := Sub(r, token, s, i);
      assert out[..m][0] == out[0];
      assert Ends(r, s, i) == [];
      var rest := Sub(r, token, s, i + 1);
      assert out == [s[i]] + rest;
      assert out[..m] == [s[i]] + rest[..m - 1];
      LiteralPrefix(r, token, s, i + 1, m - 1);
    }
  }

  // No bracket inside, and some marker.
  ghost predicate Candidate(w: string) {
    '[' !in w && ']' !in w && exists c | c in w :: Marker(c)
  }

  // A stretch that starts inside a token is no candidate.
  lemma TokenStretch(token: Token, rest: string, p: nat, q: nat)
    requires p < |token| && p <= q <= |token + rest|
    ensures !Candidate((token + rest)[p..q])
  {
    var w := (token + rest)[p..q];
    if q >= |token| {
      assert w[|token| - 1 - p] == ']';
    } else {
      assert w == token[p..q];
    }
  }

  // A candidate in the output is a copy of a stretch of the input that begins where
  // no match does: it neither touches nor lies inside a token.
  lemma {:induction false} Trace(r: Signature, token: Token, s: string, i: nat, p: nat, q: nat) returns (k: nat)
    requires i <= |s|
    requires p <= q <= |Sub(r, token, s, i)|
    requires Candidate(Sub(r, token, s, i)[p..q])
    ensures k + (q - p) <= |s| && s[k..k + (q - p)] == Sub(r, token, s, i)[p..q]
    ensures Ends(r, s, k) == []
    decreases |s| - i
  {
    hide Ends, Candidate;
    var out := Sub(r, token, s, i);
    assert i < |s| by { EmptyCandidate(out[p..q]); }
    var ends := Ends(r, s, i);
    if ends == [] {
      var rest := Sub(r, token, s, i + 1);
      assert out == [s[i]] + rest;
      if p == 0 {
        BracketFree(out[p..q]);
        assert out[p..q] == out[..q];
        LiteralPrefix(r, token, s, i, q);
        return i;
      }
      assert out[p..q] == rest[p - 1..q - 1];
      k := Trace(r, token, s, i + 1, p - 1, q - 1);
    } else {
      MarkedAdvances(r, s, i, ends[0]);
      var rest := Sub(r, token, s, ends[0]);
      assert out == token + rest;
      var n := |token|;
      if p < n {
        TokenStretch(token, rest, p, q);
        assert false;
      }
      assert out[p..q] == rest[p - n..q - n];
      k := Trace(r, token, s, ends[0], p - n, q - n);
    }
  }

  lemma EmptyCandidate(w: string)
    requires Candidate(w)
    ensures w != ""
  {
  }

  lemma BracketFree(w: string)
    requires Candidate(w)
    ensures '[' !in w
  {
  }

  function Replaced(r: Signature, token: Token, s: string): string {
    Sub(r, token, s, 0)
  }

  // A replaced signature no longer occurs.
  lemma ReplacedGone(r: Signature, token: Token, s: string)
    ensures !Occurs(r, Replaced(r, token, s))
  {
    hide Ends, Word, Sub;
    if Occurs(r, Replaced(r, token, s)) {
      var p: nat, q: nat :| OccursAt(r, Replaced(r, token, s), p, q);
      PlainWord(r, Replaced(r, token, s)[p..q]);
      MarkedWord(r, Replaced(r, token, s)[p..q]);
      var k := Trace(r, token, s, 0, p, q);
      EndsExact(r, s, k, k + (q - p));
      assert false;
    }
  }

  // Replacing one signature creates no occurrence of another.
  lemma ReplacedCreatesNone(r: Signature, token: Token, s: string, other: Signature)
    requires !Occurs(other, s)
    ensures !Occurs(other, Replaced(r, token, s))
  {
    if Occurs(other, Replaced(r, token, s)) {
      var p: nat, q: nat :| OccursAt(other, Replaced(r, token, s), p, q);
      PlainWord(other, Replaced(r, token, s)[p..q]);
      MarkedWord(other, Replaced(r, token, s)[p..q]);
      var k := Trace(r, token, s, 0, p, q);
      assert OccursAt(other, s, k, k + (q - p));
    }
  }

  /* ---------- quarantine ---------- */

  function Strip(s: string): (t: string)
    ensures forall c | c in t :: !Control(c)
    ensures (forall c | c in s :: !Control(c)) ==> t == s
  {
    if s == "" then ""
    else
      assert s == [s[0]] + s[1..];
      if Control(s[0]) then Strip(s[1..]) else [s[0]] + Strip(s[1..])
  }

  // What quarantine looks at: the truncated text without control characters.
  function Stripped(text: string, maxLength: nat): string {
    Strip(if |text| <= maxLength then text else text[..maxLength])
  }

  // Detections are the indices of the signatures found.
  datatype Result = Result(sanitized: string, detections: seq<nat>, hostile: bool)

  // The text and the detections after the first n signatures.
  function Sweep(sigs: seq<Signature>, token: Token, text: string, n: nat): (string, seq<nat>)
    requires n <= |sigs|
  {
    if n == 0 then (text, [])
    else
      var (cleaned, found) := Sweep(sigs, token, text, n - 1);
      if Search(sigs[n - 1], cleaned)
      then (Replaced(sigs[n - 1], token, cleaned), found + [n - 1])
      else (cleaned, found)
  }

  function Quarantined(sigs: seq<Signature>, token: Token, text: string, maxLength: nat): Result {
    var (cleaned, found) := Sweep(sigs, token, Stripped(text, maxLength), |sigs|);
    Result(cleaned, found, found != [])
  }

  ghost predicate Free(sigs: seq<Signature>, text: string) {
    forall k | 0 <= k < |sigs| :: !Occurs(sigs[k], text)
  }

  // Every signature needs white space or a left angle bracket.
  lemma UnmarkedFree(sigs: seq<Signature>, text: string)
    requires forall c | c in text :: !Marker(c)
    ensures Free(sigs, text)
  {
    forall k | 0 <= k < |sigs| ensures !Occurs(sigs[k], text) {
      if i: nat, j: nat :| OccursAt(sigs[k], text, i, j) {
        MarkedWord(sigs[k], text[i..j]);
        assert false;
      }
    }
  }

  method Quarantine(sigs: seq<Signature>, token: Token, text: string, maxLength: nat) returns (r: Result)
    ensures r == Quarantined(sigs, token, text, maxLength)
    ensures Free(sigs, r.sanitized)
    ensures r.hostile <==> !Free(sigs, Stripped(text, maxLength))
    ensures !r.hostile ==> r.sanitized == Stripped(text, maxLength)
  {
    var cleaned := Stripped(text, maxLength);
    var detections := [];
    var n := 0;
    while n < |sigs|
      invariant n <= |sigs|
      invariant (cleaned, detections) == Sweep(sigs, token, Stripped(text, maxLength), n)
    {
      if Search(sigs[n], cleaned) {
        detections := detections + [n];
        cleaned := Replaced(sigs[n], token, cleaned);
      }
      n := n + 1;
    }
    SweepFixpoint(sigs, token, Stripped(text, maxLength), n);
    SweepHostile(sigs, token, Stripped(text, maxLength), n);
    return Result(cleaned, detections, detections != []);
  }

  // After the first n signatures, none of them matches anywhere, although the later
  // ones rewrote text the earlier ones had cleaned.
  lemma {:induction false} SweepFixpoint(sigs: seq<Signature>, token: Token, text: string, n: nat)
    requires n <= |sigs|
    ensures forall k | 0 <= k < n :: !Occurs(sigs[k], Sweep(sigs, token, text, n).0)
  {
    if n > 0 {
      var before := Sweep(sigs, token, text, n - 1).0;
      SweepFixpoint(sigs, token, text, n - 1);
      SearchExact(sigs[n - 1], before);
      ReplacedGone(sigs[n - 1], token, before);
      forall k | 0 <= k < n - 1 ensures !Occurs(sigs[k], Sweep(sigs, token, text, n).0) {
        ReplacedCreatesNone(sigs[n - 1], token, before, sigs[k]);
      }
    }
  }

  // Something was detected exactly when some signature occurred to begin with; if
  // nothing was, the text is as it was.
  lemma {:induction false} SweepHostile(sigs: seq<Signature>, token: Token, text: string, n: nat)
    requires n <= |sigs|
    ensures Sweep(sigs, token, text, n).1 != [] <==> exists k | 0 <= k < n :: Occurs(sigs[k], text)
    ensures Sweep(sigs, token, text, n).1 == [] ==> Sweep(sigs, token, text, n).0 == text
  {
    if n > 0 {
      SweepHostile(sigs, token, text, n - 1);
      SearchExact(sigs[n - 1], Sweep(sigs, token, text, n - 1).0);
    }
  }

  lemma {:induction false} SubControls(r: Signature, token: Token, s: string, i: nat)
    requires i <= |s|
    requires forall c | c in s :: !Control(c)
    ensures forall c | c in Sub(r, token, s, i) :: !Control(c)
    decreases |s| - i
  {
    if i < |s| {
      var ends := Ends(r, s, i);
      if ends == [] {
        SubControls(r, token, s, i + 1);
      } else {
        MarkedAdvances(r, s, i, ends[0]);
        SubControls(r, token, s, ends[0]);
      }
    }
  }

  lemma {:induction false} SweepControls(sigs: seq<Signature>, token: Token, text: string, n: nat)
    requires n <= |sigs|
    requires forall c | c in text :: !Control(c)
    ensures forall c | c in Sweep(sigs, token, text, n).0 :: !Control(c)
  {
    if n > 0 {
      SweepControls(sigs, token, text, n - 1);
      SubControls(sigs[n - 1], token, Sweep(sigs, token, text, n - 1).0, 0);
    }
  }

  // Quarantining what quarantine returned changes nothing and finds nothing, as long
  // as the second call does not truncate.
  lemma Idempotent(sigs: seq<Signature>, token: Token, text: string, maxLength: nat, again: nat)
    requires |Quarantined(sigs, token, text, maxLength).sanitized| <= again
    ensures Quarantined(sigs, token, Quarantined(sigs, token, text, maxLength).sanitized, again)
         == Result(Quarantined(sigs, token, text, maxLength).sanitized, [], false)
  {
    var once := Quarantined(sigs, token, text, maxLength).sanitized;
    SweepControls(sigs, token, Stripped(text, maxLength), |sigs|);
    assert Stripped(once, again) == once;
    SweepFixpoint(sigs, token, Stripped(text, maxLength), |sigs|);
    SweepHostile(sigs, token, once, |sigs|);
  }
}
