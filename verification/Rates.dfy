// How many tool calls a minute can hold.
module Rates {
  import opened Models
  import opened Records
  import opened Runs
  import opened RunInvariant
  import opened System
  import Approvals
  import Limiter

  const EMPTY := Limiter.Tables([], [])

  // The clock reading a run was admitted with, which the expiry of its lease records.
  function AdmissionTime(cfg: Config, r: Run): real
    requires r.request.tool in cfg.registry
  {
    r.holds.leaseExpires - cfg.registry[r.request.tool].timeout - Limiter.GRACE
  }

  predicate AdmittedIn(cfg: Config, r: Run, a: real, length: real) {
    r.request.tool in cfg.registry && a <= AdmissionTime(cfg, r) <= a + length
  }

  // The tool calls of one requester that were admitted in the closed window of this
  // length from a.
  ghost function CallsOf(cfgs: Configs, s: System, requester: string, a: real, length: real): set<nat> {
    set k: nat | k < |s.calls| && s.calls[k].before.request.requester == requester
                 && AdmittedIn(cfgs(s.calls[k].run), s.calls[k].before, a, length)
  }

  // Those of them that ran one tool on one target.
  ghost function CallsOn(cfgs: Configs, s: System, requester: string, tool: string, target: string, a: real, length: real)
    : set<nat>
  {
    set k | k in CallsOf(cfgs, s, requester, a, length) && s.calls[k].before.request.tool == tool
            && s.calls[k].before.checks.target.Some? && s.calls[k].before.checks.target.value.canonical == target
  }

  /* ---------- calls and the admission log ---------- */

  ghost function Log(s: System): seq<Limiter.Admission> {
    Limiter.Admissions(EMPTY, s.events)
  }

  // Entry p of the log is the admission of this run.
  ghost predicate EntryOf(cfg: Config, r: Run, log: seq<Limiter.Admission>, p: nat) {
    && p < |log|
    && r.checks.target.Some? && r.holds.leaseId.Some? && r.request.tool in cfg.registry
    && log[p] == Limiter.Admission(LeaseRequest(cfg, r), AdmissionTime(cfg, r))
  }

  // Every other call of the set was admitted by an earlier transaction.
  ghost predicate LastOf(cfgs: Configs, s: System, ks: set<nat>, k: nat)
    requires k in ks && forall l | l in ks :: l < |s.calls|
  {
    exists q: nat :: EntryOf(cfgs(s.calls[k].run), s.calls[k].before, Log(s), q)
                && forall l | l in ks :: EntryUpTo(cfgs, s, l, q)
  }

  ghost predicate EntryUpTo(cfgs: Configs, s: System, l: nat, q: nat)
    requires l < |s.calls|
  {
    exists p: nat :: p <= q && EntryOf(cfgs(s.calls[l].run), s.calls[l].before, Log(s), p)
  }

  lemma CallLogged(cfgs: Configs, s: System, k: nat) returns (p: nat)
    requires ValidConfigs(cfgs) && SysOk(cfgs, s) && k < |s.calls|
    ensures EntryOf(cfgs(s.calls[k].run), s.calls[k].before, Log(s), p)
  {
    hide AuditOk, FindingsSound, LeaseIdsOk, LeasesOk, AllStored, AllListed, OwnersOk, Disjoint, Approvals.Inv, Facts, LifeOk,
         EndOk, StepsOk, WorkOk, DecisionsOk, NoFinalFailure, Limiter.Acquire, Limiter.After, Limiter.Admissions;
    var cfg, r := cfgs(s.calls[k].run), s.calls[k].before;
    assert CallOk(cfgs, s.calls[k], s.runs, s.db);
    assert AdmittedOk(cfg, r, s.events);
    var n: nat :| AdmittedBy(cfg, r, s.events, n);
    Limiter.AdmittedAt(EMPTY, s.events, n);
    p := Limiter.Position(EMPTY, s.events, n);
  }

  // Different calls hold different leases.
  lemma LeasesDiffer(cfgs: Configs, s: System, k: nat, l: nat)
    requires ValidConfigs(cfgs) && SysOk(cfgs, s) && k < |s.calls| && l < |s.calls| && k != l
    requires s.calls[k].before.holds.leaseId.Some?
    ensures s.calls[k].before.holds.leaseId != s.calls[l].before.holds.leaseId
  {
    hide RunsOk, AuditOk, FindingsSound, LeasesOk, AllStored, AllListed, OwnersOk, Disjoint, Approvals.Inv, RunOk,
         AdmissionsOk, NoFinalFailure, Replay;
    assert CallOk(cfgs, s.calls[k], s.runs, s.db) && CallOk(cfgs, s.calls[l], s.runs, s.db);
    assert s.calls[k].run != s.calls[l].run;
  }

  lemma EntriesDiffer(cfgs: Configs, s: System, k: nat, l: nat, p: nat, q: nat)
    requires ValidConfigs(cfgs) && SysOk(cfgs, s) && k < |s.calls| && l < |s.calls| && k != l
    requires EntryOf(cfgs(s.calls[k].run), s.calls[k].before, Log(s), p)
    requires EntryOf(cfgs(s.calls[l].run), s.calls[l].before, Log(s), q)
    ensures p != q
  {
    hide SysOk, ValidConfigs, Log, Limiter.Admissions;
    LeasesDiffer(cfgs, s, k, l);
  }

  /* ---------- counting ---------- */

  // An entry of the log for each call of a set, in one-to-one correspondence.
  lemma Entries(cfgs: Configs, s: System, ks: set<nat>) returns (at: map<nat, nat>)
    requires ValidConfigs(cfgs) && SysOk(cfgs, s) && forall k | k in ks :: k < |s.calls|
    ensures at.Keys == ks && |at.Values| == |ks|
    ensures forall k | k in ks :: EntryOf(cfgs(s.calls[k].run), s.calls[k].before, Log(s), at[k])
    decreases |ks|
  {
    hide SysOk, ValidConfigs, EntryOf, Log;
    if ks == {} {
      at := map[];
    } else {
      var k :| k in ks;
      var rest := Entries(cfgs, s, ks - {k});
      var p := CallLogged(cfgs, s, k);
      if p in rest.Values {
        var l :| l in rest && rest[l] == p;
        EntriesDiffer(cfgs, s, k, l, p, rest[l]);
        assert false;
      }
      at := rest[k := p];
      NewValue(rest, k, p);
    }
  }

  lemma NewValue(m: map<nat, nat>, k: nat, v: nat)
    requires k !in m && v !in m.Values
    ensures m[k := v].Values == m.Values + {v} && |m[k := v].Values| == |m.Values| + 1
  {
    assert m[k := v].Values <= m.Values + {v};
    forall w | w in m.Values ensures w in m[k := v].Values {
      var l :| l in m && m[l] == w;
      assert m[k := v][l] == w;
    }
    assert m[k := v][k] == v;
    assert m[k := v].Values == m.Values + {v};
  }

  lemma {:induction false} Maximum(s: set<nat>) returns (max: nat)
    requires s != {}
    ensures max in s && forall x | x in s :: x <= max
    decreases |s|
  {
    var some :| some in s;
    if s == {some} {
      max := some;
    } else {
      assert s - {some} != {};
      var rest := Maximum(s - {some});
      max := if rest > some then rest else some;
      forall x | x in s ensures x <= max {
        assert x == some || x in s - {some};
      }
    }
  }

  lemma EntryTool(cfg: Config, r: Run, log: seq<Limiter.Admission>, p: nat)
    requires EntryOf(cfg, r, log, p)
    ensures r.request.tool in cfg.registry && p < |log|
  {
  }

  // The last entry of these calls.
  lemma LastEntry(cfgs: Configs, s: System, ks: set<nat>, at: map<nat, nat>) returns (k: nat)
    requires ks != {} && forall l | l in ks :: l < |s.calls|
    requires at.Keys == ks
    requires forall l | l in ks :: EntryOf(cfgs(s.calls[l].run), s.calls[l].before, Log(s), at[l])
    ensures k in ks && LastOf(cfgs, s, ks, k) && forall p | p in at.Values :: p <= at[k]
  {
    hide Log, EntryOf;
    var some :| some in ks;
    assert at[some] in at.Values;
    var j := Maximum(at.Values);
    k :| k in at && at[k] == j;
    forall l | l in ks ensures EntryUpTo(cfgs, s, l, at[k]) {
      assert at[l] in at.Values;
    }
  }

  // No two positions are the same, so a set of them is no larger than what it counts.
  lemma UpToLast(log: seq<Limiter.Admission>, near: Limiter.Admission -> bool, positions: set<nat>, j: nat)
    requires j < |log|
    requires forall p | p in positions :: p <= j && near(log[p])
    ensures |positions| <= |Limiter.Select(log[..j + 1], near)|
  {
    Limiter.PositionsCounted(log[..j + 1], near, positions);
  }

  ghost predicate AllNear(cfgs: Configs, s: System, ks: set<nat>, near: Limiter.Admission -> bool)
    requires forall l | l in ks :: l < |s.calls|
  {
    forall l, p: nat | l in ks && EntryOf(cfgs(s.calls[l].run), s.calls[l].before, Log(s), p) :: near(Log(s)[p])
  }

  lemma NearEntries(cfgs: Configs, s: System, ks: set<nat>, at: map<nat, nat>, near: Limiter.Admission -> bool)
    requires forall l | l in ks :: l < |s.calls|
    requires at.Keys == ks && AllNear(cfgs, s, ks, near)
    requires forall l | l in ks :: EntryOf(cfgs(s.calls[l].run), s.calls[l].before, Log(s), at[l])
    ensures forall p | p in at.Values :: p < |Log(s)| && near(Log(s)[p])
  {
    forall p | p in at.Values ensures p < |Log(s)| && near(Log(s)[p]) {
      var l :| l in at && at[l] == p;
      assert EntryOf(cfgs(s.calls[l].run), s.calls[l].before, Log(s), p);
    }
  }

  // If all entries of these calls match, they are no more than the matching entries up
  // to the last of them.
  lemma CallsCounted(cfgs: Configs, s: System, ks: set<nat>, near: Limiter.Admission -> bool)
    returns (k: nat, j: nat)
    requires ValidConfigs(cfgs) && SysOk(cfgs, s)
    requires ks != {} && forall l | l in ks :: l < |s.calls|
    requires AllNear(cfgs, s, ks, near)
    ensures k in ks && s.calls[k].before.request.tool in cfgs(s.calls[k].run).registry && LastOf(cfgs, s, ks, k)
    ensures EntryOf(cfgs(s.calls[k].run), s.calls[k].before, Log(s), j)
    ensures |ks| <= |Limiter.Select(Log(s)[..j + 1], near)|
  {
    hide SysOk, ValidConfigs, Log, Limiter.Select, EntryOf, LastOf, AllNear;
    var at := Entries(cfgs, s, ks);
    k := LastEntry(cfgs, s, ks, at);
    j := at[k];
    EntryTool(cfgs(s.calls[k].run), s.calls[k].before, Log(s), j);
    NearEntries(cfgs, s, ks, at, near);
    UpToLast(Log(s), near, at.Values, j);
  }

  /* ---------- the bounds ---------- */

  // If the clock readings of the limiter transactions were out of commit order by no more
  // than the skew, the tool calls of one requester admitted in any closed window shorter
  // than a minute by the skew are no more than the limit its last admitted call was given;
  // so no more than any limit all runs keep to.
  lemma CallsPerMinute(cfgs: Configs, states: seq<System>, actions: seq<Action>, n: nat, top: real, skew: real,
                       requester: string, a: real, limit: nat)
    requires ValidConfigs(cfgs) && Trace(cfgs, states, actions) && n < |states|
    requires 0.0 <= skew && Limiter.Skewed(states[n].events, top, skew)
    ensures var s, ks := states[n], CallsOf(cfgs, states[n], requester, a, Limiter.WINDOW - skew);
            ks != {} ==> exists k :: k in ks && LastOf(cfgs, s, ks, k) && |ks| <= cfgs(s.calls[k].run).ratePerMinute
    ensures (forall i | i in states[n].runs :: cfgs(i).ratePerMinute <= limit)
            ==> |CallsOf(cfgs, states[n], requester, a, Limiter.WINDOW - skew)| <= limit
  {
    hide Trace, SysOk, ValidConfigs, Limiter.Skewed, Limiter.Select, Limiter.Admissions, LastOf;
    Reachable(cfgs, states, actions, n);
    var s, ks := states[n], CallsOf(cfgs, states[n], requester, a, Limiter.WINDOW - skew);
    if ks != {} {
      var mine := (x: Limiter.Admission) => x.request.principal == requester && a <= x.at;
      var k, j := CallsCounted(cfgs, s, ks, mine);
      Limiter.SkewedRateBound(s.events, top, skew);
      assert Limiter.KeptAt(Log(s), j, a);
      SameSelection(Log(s), j, mine,
                    (x: Limiter.Admission) => x.request.principal == Log(s)[j].request.principal && a <= x.at);
      CallerIn(cfgs, s, k);
    }
  }

  lemma SameSelection(log: seq<Limiter.Admission>, j: nat, p: Limiter.Admission -> bool, q: Limiter.Admission -> bool)
    requires j < |log| && forall x | x in log :: p(x) == q(x)
    ensures Limiter.Select(log[..j + 1], p) == Limiter.Select(log[..j + 1], q)
  {
    Limiter.SelectSame(log[..j + 1], p, q);
  }

  lemma CallerIn(cfgs: Configs, s: System, k: nat)
    requires ValidConfigs(cfgs) && SysOk(cfgs, s) && k < |s.calls|
    ensures s.calls[k].run in s.runs
  {
    hide RunsOk, AuditOk, FindingsSound, LeaseIdsOk, LeasesOk, AllStored, AllListed, OwnersOk, Disjoint, Approvals.Inv, RunOk,
         AdmissionsOk, NoFinalFailure, Replay;
    assert CallOk(cfgs, s.calls[k], s.runs, s.db);
  }

  // The same for one requester, tool and target, with the limit of the tool.
  lemma CallsPerTriple(cfgs: Configs, states: seq<System>, actions: seq<Action>, n: nat, top: real, skew: real,
                       requester: string, tool: string, target: string, a: real, limit: nat)
    requires ValidConfigs(cfgs) && Trace(cfgs, states, actions) && n < |states|
    requires 0.0 <= skew && Limiter.Skewed(states[n].events, top, skew)
    ensures var s, ks := states[n], CallsOn(cfgs, states[n], requester, tool, target, a, Limiter.WINDOW - skew);
            ks != {} ==>
              exists k :: k in ks && LastOf(cfgs, s, ks, k) && tool in cfgs(s.calls[k].run).registry
                          && |ks| <= cfgs(s.calls[k].run).registry[tool].perMinute
    ensures (forall i | i in states[n].runs && tool in cfgs(i).registry :: cfgs(i).registry[tool].perMinute <= limit)
            ==> |CallsOn(cfgs, states[n], requester, tool, target, a, Limiter.WINDOW - skew)| <= limit
  {
    hide Trace, SysOk, ValidConfigs, Limiter.Skewed, Limiter.Select, Limiter.Admissions, LastOf;
    Reachable(cfgs, states, actions, n);
    var s, ks := states[n], CallsOn(cfgs, states[n], requester, tool, target, a, Limiter.WINDOW - skew);
    if ks != {} {
      var same := (x: Limiter.Admission) =>
        x.request.principal == requester && x.request.tool == tool && x.request.target == target && a <= x.at;
      var k, j := CallsCounted(cfgs, s, ks, same);
      Limiter.SkewedRateBound(s.events, top, skew);
      assert Limiter.KeptAt(Log(s), j, a);
      SameSelection(Log(s), j, same, (x: Limiter.Admission) => Limiter.SamePair(x, Log(s)[j]) && a <= x.at);
      CallerIn(cfgs, s, k);
    }
  }
}
