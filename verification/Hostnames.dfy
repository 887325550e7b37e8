// Host name and repository patterns: string suffixes against labels.
module Hostnames {

  function LowerChar(c: char): char {
    if 'A' <= c <= 'Z' then (c as int + 32) as char else c
  }

  function Lower(s: string): (t: string)
    ensures |t| == |s|
  {
    seq(|s|, i requires 0 <= i < |s| => LowerChar(s[i]))
  }

  function StripDots(s: string): (t: string)
    ensures |t| <= |s| && t == s[..|t|]
    ensures t == "" || t[|t| - 1] != '.'
  {
    if s == "" || s[|s| - 1] != '.' then s else StripDots(s[..|s| - 1])
  }

  function Normal(s: string): string {
    StripDots(Lower(s))
  }

  predicate StartsWith(s: string, p: string) {
    |p| <= |s| && s[..|p|] == p
  }

  predicate EndsWith(s: string, t: string) {
    |t| <= |s| && s[|s| - |t|..] == t
  }

  // A wildcard matches a proper subdomain only.
  predicate HostnameMatch(pattern: string, host: string) {
    var p, h := Normal(pattern), Normal(host);
    if StartsWith(p, "*.") then EndsWith(h, p[1..]) && |h| > |p| - 1
    else h == p
  }

  predicate RepoMatch(pattern: string, canonical: string) {
    var p, c := Lower(pattern), Lower(canonical);
    if EndsWith(p, "/*") then
      StartsWith(c, p[..|p| - 2] + "/") && Slashes(c) == 1
    else c == p
  }

  function Slashes(s: string): nat {
    if s == "" then 0 else (if s[0] == '/' then 1 else 0) + Slashes(s[1..])
  }

  /* ---------- labels ---------- */

  function Labels(s: string): (l: seq<string>)
    ensures l != []
  {
    if s == "" then [""]
    else
      var rest := Labels(s[1..]);
      if s[0] == '.' then [""] + rest else [[s[0]] + rest[0]] + rest[1..]
  }

  function Join(l: seq<string>): string
    requires l != []
  {
    if |l| == 1 then l[0] else l[0] + "." + Join(l[1..])
  }

  lemma {:induction false} JoinLabels(s: string)
    ensures Join(Labels(s)) == s
  {
    if s != "" {
      var rest := Labels(s[1..]);
      JoinLabels(s[1..]);
      if s[0] == '.' {
        assert ([""] + rest)[1..] == rest;
      } else {
        var all := [[s[0]] + rest[0]] + rest[1..];
        assert all[1..] == rest[1..];
      }
    }
  }

  lemma HeadExtends(c: char, l: seq<string>, m: seq<string>)
    requires l != []
    ensures [[c] + (l + m)[0]] + (l + m)[1..] == ([[c] + l[0]] + l[1..]) + m
    ensures [""] + (l + m) == ([""] + l) + m
  {
  }

  lemma {:induction false} LabelsAppend(a: string, b: string)
    ensures Labels(a + "." + b) == Labels(a) + Labels(b)
  {
    var s := a + "." + b;
    if a == "" {
      assert s[1..] == b;
    } else {
      assert s[1..] == a[1..] + "." + b;
      LabelsAppend(a[1..], b);
      HeadExtends(a[0], Labels(a[1..]), Labels(b));
    }
  }

  lemma {:induction false} JoinAppend(l: seq<string>, m: seq<string>)
    requires l != [] && m != []
    ensures Join(l + m) == Join(l) + "." + Join(m)
  {
    if |l| > 1 {
      JoinAppend(l[1..], m);
      assert (l + m)[1..] == l[1..] + m;
    } else {
      assert (l + m)[1..] == m;
    }
  }

  lemma LowerPair(a: char, b: char, s: string)
    ensures Lower([a, b] + s) == [LowerChar(a), LowerChar(b)] + Lower(s)
  {
    assert ([a, b] + s)[1..] == [b] + s;
    assert ([b] + s)[1..] == s;
  }

  lemma {:induction false} StripDotsWildcard(t: string)
    ensures StripDots("*." + t) == if StripDots(t) == "" then "*" else "*." + StripDots(t)
  {
    var p := "*." + t;
    if t == "" {
      assert p[..1] == "*";
    } else if t[|t| - 1] == '.' {
      assert p[..|p| - 1] == "*." + t[..|t| - 1];
      StripDotsWildcard(t[..|t| - 1]);
    }
  }

  // A wildcard keeps its star unless there is nothing but dots behind it.
  lemma NormalWildcard(s: string)
    ensures Normal("*." + s) == if Normal(s) == "" then "*" else "*." + Normal(s)
  {
    hide Lower, StripDots;
    LowerPair('*', '.', s);
    assert ['*', '.'] + s == "*." + s;
    assert ['*', '.'] + Lower(s) == "*." + Lower(s);
    StripDotsWildcard(Lower(s));
  }

  // A wildcard compares suffixes of strings.
  lemma WildcardIsSuffix(s: string, host: string)
    ensures HostnameMatch("*." + s, host) <==>
            if Normal(s) == "" then Normal(host) == "*"
            else EndsWith(Normal(host), "." + Normal(s)) && |Normal(host)| > |Normal(s)| + 1
  {
    hide Normal, EndsWith;
    NormalWildcard(s);
    var p := "*." + Normal(s);
    assert p[..2] == "*." && p[1..] == "." + Normal(s);
  }

  // Whatever the case of its letters and the dots at its end, "*.s" matches exactly the
  // hosts that are a nonempty part followed by the labels of s, so comparing suffixes of
  // strings compares suffixes of label lists. With nothing but dots after its star, it
  // matches the star alone.
  lemma WildcardIsLabelSuffix(s: string, host: string)
    ensures Normal(s) != "" ==>
              (HostnameMatch("*." + s, host) <==>
                 exists l: seq<string> :: l != [] && l != [""] && Labels(Normal(host)) == l + Labels(Normal(s)))
    ensures Normal(s) == "" ==> (HostnameMatch("*." + s, host) <==> Normal(host) == "*")
  {
    hide Labels, HostnameMatch, EndsWith, Normal;
    var n, h := Normal(s), Normal(host);
    WildcardIsSuffix(s, host);
    if n != "" {
      if HostnameMatch("*." + s, host) {
        SuffixLabels(n, h);
      }
      if l: seq<string> :| l != [] && l != [""] && Labels(h) == l + Labels(n) {
        LabelsSuffix(n, h, l);
      }
    }
  }

  lemma SuffixLabels(s: string, h: string)
    requires EndsWith(h, "." + s) && |h| > |s| + 1
    ensures exists l: seq<string> :: l != [] && l != [""] && Labels(h) == l + Labels(s)
  {
    var front := h[..|h| - |s| - 1];
    assert h == front + "." + s;
    LabelsAppend(front, s);
    JoinLabels(front);
    var l := Labels(front);
    assert l != [] && l != [""] && Labels(h) == l + Labels(s);
  }

  lemma JoinEmpty(l: seq<string>)
    requires l != [] && Join(l) == ""
    ensures l == [""]
  {
  }

  lemma DottedTail(front: string, s: string)
    ensures EndsWith(front + "." + s, "." + s)
    ensures |front + "." + s| == |front| + 1 + |s|
  {
    assert (front + "." + s)[|front|..] == "." + s;
  }

  lemma JoinParts(s: string, h: string, l: seq<string>)
    requires l != [] && Labels(h) == l + Labels(s)
    ensures h == Join(l) + "." + s
  {
    hide Labels, Join;
    JoinAppend(l, Labels(s));
    JoinLabels(h);
    JoinLabels(s);
  }

  lemma LabelsSuffix(s: string, h: string, l: seq<string>)
    requires l != [] && l != [""] && Labels(h) == l + Labels(s)
    ensures EndsWith(h, "." + s) && |h| > |s| + 1
  {
    hide Labels, Join, EndsWith;
    JoinParts(s, h, l);
    DottedTail(Join(l), s);
    if Join(l) == "" {
      JoinEmpty(l);
    }
  }

  lemma {:induction false} SlashesAppend(a: string, b: string)
    ensures Slashes(a + b) == Slashes(a) + Slashes(b)
  {
    if a == "" {
      assert a + b == b;
    } else {
      assert (a + b)[1..] == a[1..] + b;
      SlashesAppend(a[1..], b);
    }
  }

  lemma {:induction false} NoSlash(s: string)
    ensures Slashes(s) == 0 <==> '/' !in s
  {
    if s != "" {
      NoSlash(s[1..]);
      assert s == [s[0]] + s[1..];
    }
  }

  lemma LowerAppend(a: string, b: string)
    ensures Lower(a + b) == Lower(a) + Lower(b)
  {
  }

  lemma LowerSlash(s: string)
    ensures '/' in Lower(s) <==> '/' in s
  {
    if '/' in s {
      var i :| 0 <= i < |s| && s[i] == '/';
      assert Lower(s)[i] == '/';
    }
    if '/' in Lower(s) {
      var i :| 0 <= i < |s| && Lower(s)[i] == '/';
      assert s[i] == '/';
    }
  }

  lemma OwnedName(owner: string, c: string)
    requires '/' !in owner
    ensures StartsWith(c, owner + "/") && Slashes(c) == 1 <==>
            exists name: string :: '/' !in name && c == owner + "/" + name
  {
    NoSlash(owner);
    SlashesAppend(owner, "/");
    assert Slashes("/") == 1;
    if StartsWith(c, owner + "/") {
      var name := c[|owner| + 1..];
      assert c == owner + "/" + name;
      SlashesAppend(owner + "/", name);
      NoSlash(name);
    }
    if name: string :| '/' !in name && c == owner + "/" + name {
      assert c[..|owner + "/"|] == owner + "/";
      SlashesAppend(owner + "/", name);
      NoSlash(name);
    }
  }

  lemma SlashedOwner(owner: string, c: string)
    requires '/' in owner && StartsWith(c, owner + "/")
    ensures Slashes(c) > 1
  {
    NoSlash(owner);
    SlashesAppend(owner, "/");
    assert Slashes("/") == 1;
    assert c == owner + "/" + c[|owner| + 1..];
    SlashesAppend(owner + "/", c[|owner| + 1..]);
  }

  // In any case of their letters, "o/*" matches exactly the names o/n in which neither
  // part has a slash.
  lemma OwnerWildcard(owner: string, canonical: string)
    ensures RepoMatch(owner + "/*", canonical) <==>
            '/' !in owner && exists name: string :: '/' !in name && Lower(canonical) == Lower(owner) + "/" + name
  {
    hide Lower, Slashes;
    var o, c := Lower(owner), Lower(canonical);
    LowerAppend(owner, "/*");
    LowerSuffix();
    var p := o + "/*";
    assert p[|p| - 2..] == "/*" && p[..|p| - 2] == o;
    LowerSlash(owner);
    if '/' in o {
      if StartsWith(c, o + "/") {
        SlashedOwner(o, c);
      }
    } else {
      OwnedName(o, c);
    }
  }

  lemma LowerSuffix()
    ensures Lower("/*") == "/*"
  {
  }
}
