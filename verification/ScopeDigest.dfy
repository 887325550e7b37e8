// The text an approval's scope digest is taken of, and what equality of two such texts
// does and does not say.
module ScopeDigest {

  datatype Scope = Scope(
    policyName: string, allowedTargets: seq<string>, allowedActions: seq<string>,
    deniedTargets: seq<string>, deniedActions: seq<string>, validFrom: string, validUntil: string,
    networkDestinations: seq<string>)

  function Joined(parts: seq<string>): string {
    if parts == [] then ""
    else if |parts| == 1 then parts[0]
    else parts[0] + "|" + Joined(parts[1..])
  }

  // All lists one after the other, with nothing between one list and the next.
  function Parts(s: Scope): (parts: seq<string>)
    ensures parts != []
  {
    [s.policyName] + s.allowedTargets + s.allowedActions + s.deniedTargets + s.deniedActions
    + [s.validFrom, s.validUntil] + s.networkDestinations
  }

  function Text(s: Scope): string {
    Joined(Parts(s))
  }

  // What the engine snapshots of a policy: one target and one action.
  function Snapshot(policy: Scope, target: string, action: string): Scope {
    policy.(allowedTargets := [target], allowedActions := [action], networkDestinations := [])
  }

  lemma {:induction false} JoinedSplits(a: seq<string>, b: seq<string>)
    requires a != [] && b != []
    ensures Joined(a + b) == Joined(a) + "|" + Joined(b)
  {
    if |a| == 1 {
      assert (a + b)[1..] == b;
    } else {
      assert (a + b)[1..] == a[1..] + b;
      JoinedSplits(a[1..], b);
    }
  }

  // The rest of a snapshot's text is fixed by the policy.
  lemma SnapshotText(policy: Scope, target: string, action: string)
    ensures var rest := policy.deniedTargets + policy.deniedActions + [policy.validFrom, policy.validUntil];
            Text(Snapshot(policy, target, action))
            == policy.policyName + "|" + (target + "|" + action) + "|" + Joined(rest)
  {
    var rest := policy.deniedTargets + policy.deniedActions + [policy.validFrom, policy.validUntil];
    var s := Snapshot(policy, target, action);
    assert Parts(s) == [policy.policyName] + ([target, action] + rest);
    JoinedSplits([policy.policyName], [target, action] + rest);
    JoinedSplits([target, action], rest);
    assert [target, action][1..] == [action];
    assert Joined([target, action]) == target + "|" + action;
  }

  // Two snapshots of one policy have the same text exactly if target and action read
  // the same with a bar between them.
  lemma SameTextIff(policy: Scope, t: string, a: string, t': string, a': string)
    ensures Text(Snapshot(policy, t, a)) == Text(Snapshot(policy, t', a')) <==> t + "|" + a == t' + "|" + a'
  {
    SnapshotText(policy, t, a);
    SnapshotText(policy, t', a');
    var rest := Joined(policy.deniedTargets + policy.deniedActions + [policy.validFrom, policy.validUntil]);
    var p, x, x' := policy.policyName + "|", t + "|" + a, t' + "|" + a';
    assert (p + x + "|" + rest)[|p|..] == x + ("|" + rest);
    assert (p + x' + "|" + rest)[|p|..] == x' + ("|" + rest);
    if p + x + "|" + rest == p + x' + "|" + rest {
      assert |x| == |x'|;
      assert x == (x + ("|" + rest))[..|x|] == (x' + ("|" + rest))[..|x|] == x';
    }
  }

  function BeforeBar(s: string): string {
    if s == "" || s[0] == '|' then "" else [s[0]] + BeforeBar(s[1..])
  }

  lemma {:induction false} BarredPrefix(t: string, a: string)
    requires '|' !in t
    ensures BeforeBar(t + "|" + a) == t
  {
    if t != "" {
      assert t[0] in t;
      BarredPrefix(t[1..], a);
      assert (t + "|" + a)[1..] == t[1..] + "|" + a;
    }
  }

  // Without a bar in either target, the text determines target and action.
  lemma TextDetermines(policy: Scope, t: string, a: string, t': string, a': string)
    requires '|' !in t && '|' !in t'
    requires Text(Snapshot(policy, t, a)) == Text(Snapshot(policy, t', a'))
    ensures t == t' && a == a'
  {
    SameTextIff(policy, t, a, t', a');
    BarredPrefix(t, a);
    BarredPrefix(t', a');
    assert a == (t + "|" + a)[|t| + 1..];
    assert a' == (t' + "|" + a')[|t'| + 1..];
  }

  // In general it does not: a bar inside a target moves the boundary.
  lemma TextAmbiguous(policy: Scope)
    ensures Text(Snapshot(policy, "a|b", "c")) == Text(Snapshot(policy, "a", "b|c"))
    ensures Snapshot(policy, "a|b", "c") != Snapshot(policy, "a", "b|c")
  {
    SameTextIff(policy, "a|b", "c", "a", "b|c");
  }

  // Nor do the lists of one snapshot: a denial may move from targets to actions.
  lemma ListsAmbiguous(policy: Scope, x: string, target: string, action: string)
    ensures var p, q := policy.(deniedTargets := [x], deniedActions := []), policy.(deniedTargets := [], deniedActions := [x]);
            && Text(Snapshot(p, target, action)) == Text(Snapshot(q, target, action))
            && Snapshot(p, target, action) != Snapshot(q, target, action)
  {
    var p, q := policy.(deniedTargets := [x], deniedActions := []), policy.(deniedTargets := [], deniedActions := [x]);
    SnapshotText(p, target, action);
    SnapshotText(q, target, action);
    assert p.deniedTargets + p.deniedActions == [x] == q.deniedTargets + q.deniedActions;
  }

  /* ---------- the exact condition ---------- */

  // A text cut at its bars.
  function Pieces(s: string): (pieces: seq<string>)
    ensures pieces != []
  {
    if s == "" then [""]
    else
      var rest := Pieces(s[1..]);
      if s[0] == '|' then [""] + rest else [[s[0]] + rest[0]] + rest[1..]
  }

  // All parts cut at their bars.
  function Flat(parts: seq<string>): (pieces: seq<string>)
    ensures parts != [] ==> pieces != []
  {
    if parts == [] then [] else Pieces(parts[0]) + Flat(parts[1..])
  }

  lemma HeadGrows(c: char, l: seq<string>, m: seq<string>)
    requires l != []
    ensures [[c] + (l + m)[0]] + (l + m)[1..] == ([[c] + l[0]] + l[1..]) + m
    ensures [""] + (l + m) == ([""] + l) + m
  {
  }

  lemma {:induction false} PiecesOfTwo(a: string, b: string)
    ensures Pieces(a + "|" + b) == Pieces(a) + Pieces(b)
  {
    var s := a + "|" + b;
    if a == "" {
      assert s[1..] == b;
    } else {
      assert s[1..] == a[1..] + "|" + b;
      PiecesOfTwo(a[1..], b);
      HeadGrows(a[0], Pieces(a[1..]), Pieces(b));
    }
  }

  lemma {:induction false} PiecesOfJoined(parts: seq<string>)
    requires parts != []
    ensures Pieces(Joined(parts)) == Flat(parts)
  {
    if |parts| == 1 {
      assert parts[1..] == [];
    } else {
      PiecesOfTwo(parts[0], Joined(parts[1..]));
      PiecesOfJoined(parts[1..]);
    }
  }

  lemma {:induction false} JoinedPieces(s: string)
    ensures Joined(Pieces(s)) == s
  {
    if s != "" {
      var rest := Pieces(s[1..]);
      JoinedPieces(s[1..]);
      if s[0] == '|' {
        assert ([""] + rest)[1..] == rest;
      } else {
        var all := [[s[0]] + rest[0]] + rest[1..];
        assert all[1..] == rest[1..];
      }
    }
  }

  // Any two scopes have the same text exactly if their parts, cut at every bar, are the
  // same list.
  lemma SameTextExact(s: Scope, t: Scope)
    ensures Text(s) == Text(t) <==> Flat(Parts(s)) == Flat(Parts(t))
  {
    PiecesOfJoined(Parts(s));
    PiecesOfJoined(Parts(t));
    JoinedPieces(Text(s));
    JoinedPieces(Text(t));
  }

  predicate BarFree(parts: seq<string>) {
    forall k | 0 <= k < |parts| :: '|' !in parts[k]
  }

  lemma {:induction false} WholePiece(s: string)
    requires '|' !in s
    ensures Pieces(s) == [s]
  {
    if s != "" {
      assert s[0] in s && s == [s[0]] + s[1..];
      WholePiece(s[1..]);
      assert [s[1..]][1..] == [];
    }
  }

  lemma {:induction false} FlatBarFree(parts: seq<string>)
    requires BarFree(parts)
    ensures Flat(parts) == parts
  {
    if parts != [] {
      WholePiece(parts[0]);
      FlatBarFree(parts[1..]);
      assert parts == [parts[0]] + parts[1..];
    }
  }

  // Without bars, the same text means the same parts in the same order.
  lemma BarFreeTextExact(s: Scope, t: Scope)
    requires BarFree(Parts(s)) && BarFree(Parts(t))
    ensures Text(s) == Text(t) <==> Parts(s) == Parts(t)
  {
    SameTextExact(s, t);
    FlatBarFree(Parts(s));
    FlatBarFree(Parts(t));
  }

  // Where the lists of a scope end.
  function Shape(s: Scope): (nat, nat, nat, nat) {
    (|s.allowedTargets|, |s.allowedActions|, |s.deniedTargets|, |s.deniedActions|)
  }

  lemma PartsShaped(s: Scope)
    ensures var p, (a, b, c, d) := Parts(s), Shape(s);
            && |p| == 3 + a + b + c + d + |s.networkDestinations|
            && s.policyName == p[0] && s.allowedTargets == p[1..1 + a] && s.allowedActions == p[1 + a..1 + a + b]
            && s.deniedTargets == p[1 + a + b..1 + a + b + c]
            && s.deniedActions == p[1 + a + b + c..1 + a + b + c + d]
            && s.validFrom == p[1 + a + b + c + d] && s.validUntil == p[2 + a + b + c + d]
            && s.networkDestinations == p[3 + a + b + c + d..]
  {
  }

  // How many pieces each part is cut into.
  function Cuts(parts: seq<string>): seq<nat> {
    seq(|parts|, k requires 0 <= k < |parts| => |Pieces(parts[k])|)
  }

  lemma {:induction false} FlatDetermines(p: seq<string>, q: seq<string>)
    requires Flat(p) == Flat(q) && Cuts(p) == Cuts(q)
    ensures p == q
  {
    assert |p| == |Cuts(p)| == |Cuts(q)| == |q|;
    if p != [] {
      assert Cuts(p)[0] == Cuts(q)[0];
      var n := |Pieces(p[0])|;
      assert Flat(p)[..n] == Pieces(p[0]) && Flat(p)[n..] == Flat(p[1..]);
      assert Flat(q)[..n] == Pieces(q[0]) && Flat(q)[n..] == Flat(q[1..]);
      JoinedPieces(p[0]);
      JoinedPieces(q[0]);
      assert Cuts(p[1..]) == Cuts(p)[1..] && Cuts(q[1..]) == Cuts(q)[1..];
      FlatDetermines(p[1..], q[1..]);
      assert p == [p[0]] + p[1..] && q == [q[0]] + q[1..];
    }
  }

  lemma PartsAndShape(s: Scope, t: Scope)
    requires Parts(s) == Parts(t) && Shape(s) == Shape(t)
    ensures s == t
  {
    PartsShaped(s);
    PartsShaped(t);
  }

  // What the text leaves open: any two scopes are equal exactly if their texts, the
  // lengths of their lists and the cuts of their parts are.
  lemma ScopeEqualExact(s: Scope, t: Scope)
    ensures s == t <==> Text(s) == Text(t) && Shape(s) == Shape(t) && Cuts(Parts(s)) == Cuts(Parts(t))
  {
    if Text(s) == Text(t) && Shape(s) == Shape(t) && Cuts(Parts(s)) == Cuts(Parts(t)) {
      SameTextExact(s, t);
      FlatDetermines(Parts(s), Parts(t));
      PartsAndShape(s, t);
    }
  }

  // The text and the lengths of the lists determine a scope without bars; the text alone
  // does so exactly if the lengths agree.
  lemma TextAndShapeDetermine(s: Scope, t: Scope)
    requires BarFree(Parts(s)) && BarFree(Parts(t))
    ensures s == t <==> Text(s) == Text(t) && Shape(s) == Shape(t)
  {
    BarFreeTextExact(s, t);
    PartsShaped(s);
    PartsShaped(t);
  }

  // Snapshots of any two policies, before and after an edit: with the same text, they are
  // the same scope exactly if both deny equally many targets.
  lemma EditedPolicyExact(p: Scope, q: Scope, target: string, action: string, target': string, action': string)
    requires BarFree(Parts(Snapshot(p, target, action))) && BarFree(Parts(Snapshot(q, target', action')))
    requires Text(Snapshot(p, target, action)) == Text(Snapshot(q, target', action'))
    ensures Snapshot(p, target, action) == Snapshot(q, target', action') <==> |p.deniedTargets| == |q.deniedTargets|
  {
    var s, t := Snapshot(p, target, action), Snapshot(q, target', action');
    BarFreeTextExact(s, t);
    PartsShaped(s);
    PartsShaped(t);
    TextAndShapeDetermine(s, t);
  }
}
