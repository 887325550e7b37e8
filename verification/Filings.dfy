// What an approval that lets a run pass was filed for.
module Filings {
  import opened Models
  import opened Records
  import opened Runs
  import opened RunInvariant
  import opened System
  import opened Guarantees
  import Approvals
  import Findings
  import Limiter
  import Scope
  import ScopeDigest

  // At step f, run j filed the approval with this id.
  ghost predicate Filed(cfgs: Configs, states: seq<System>, actions: seq<Action>, id: string, f: nat, j: nat, at: real)
    requires ValidConfigs(cfgs) && |states| == |actions| + 1
  {
    && f < |actions|
    && actions[f].Advance? && actions[f].run == j && !actions[f].move.Fault? && actions[f].move.act == AskStore(id, at)
    && j in states[f].runs
    && states[f].runs[j].checks.target.Some? && states[f].runs[j].checks.tier.Some?
  }

  // A run adds a record only by filing it.
  lemma ActFiles(cfg: Config, act: Act, r: Run, db: Db, id: string)
    requires ValidConfig(cfg) && Equipped(cfg, r) && Enabled(cfg, act, r, db)
    requires id in NewDb(cfg, act, r, db).approvals.approvals && id !in db.approvals.approvals
    ensures act.AskStore? && act.approvalId == id && r.checks.target.Some? && r.checks.tier.Some?
    ensures NewDb(cfg, act, r, db).approvals.approvals[id] == NewApproval(cfg, r, act.at)
  {
    hide CleanEvent, Limiter.Acquire, Findings.Evaluate;
  }

  lemma MoveFiles(cfg: Config, m: Move, r: Run, db: Db, r': Run, db': Db, id: string)
    requires ValidConfig(cfg) && Step(cfg, m, r, db, r', db')
    requires id in db'.approvals.approvals && id !in db.approvals.approvals
    ensures !m.Fault? && m.act.AskStore? && m.act.approvalId == id && r.checks.target.Some? && r.checks.tier.Some?
    ensures db'.approvals.approvals[id] == NewApproval(cfg, r, m.act.at)
  {
    hide Enabled, NewDb, NewRun, MayRaise, Fail;
    ActFiles(cfg, m.act, r, db, id);
  }

  // Nobody else does.
  lemma OnlyRunsFile(cfgs: Configs, s: System, a: Action, s': System, id: string)
    requires ValidConfigs(cfgs) && Next(cfgs, s, a, s')
    requires id in s'.db.approvals.approvals && id !in s.db.approvals.approvals
    ensures a.Advance?
  {
    hide Step, CleanEvent, Stamped, NewEvents, Limiter.Step;
  }

  lemma FiledNow(cfgs: Configs, states: seq<System>, actions: seq<Action>, n: nat, id: string) returns (j: nat, at: real)
    requires ValidConfigs(cfgs) && Trace(cfgs, states, actions) && n < |actions|
    requires id in states[n + 1].db.approvals.approvals && id !in states[n].db.approvals.approvals
    ensures Filed(cfgs, states, actions, id, n, j, at)
    ensures states[n + 1].db.approvals.approvals[id] == NewApproval(cfgs(j), states[n].runs[j], at)
  {
    hide Step, Approvals.Next, CleanEvent, Stamped, NewEvents, AppendEvent, Limiter.Step;
    assert Next(cfgs, states[n], actions[n], states[n + 1]);
    OnlyRunsFile(cfgs, states[n], actions[n], states[n + 1], id);
    j := actions[n].run;
    MoveFiles(cfgs(j), actions[n].move, states[n].runs[j], states[n].db, states[n + 1].runs[j], states[n + 1].db, id);
    at := actions[n].move.act.at;
  }

  // Every stored approval was filed by some run, and still has the terms it was filed with.
  lemma {:induction false} FiledBefore(cfgs: Configs, states: seq<System>, actions: seq<Action>, n: nat, id: string)
    returns (f: nat, j: nat, at: real)
    requires ValidConfigs(cfgs) && Trace(cfgs, states, actions) && n < |states| && id in states[n].db.approvals.approvals
    ensures f < n && Filed(cfgs, states, actions, id, f, j, at)
    ensures Approvals.Descends(NewApproval(cfgs(j), states[f].runs[j], at), states[n].db.approvals.approvals[id])
  {
    hide Next, Filed, NewApproval, SysOk, ValidConfigs;
    assert n > 0;
    if id in states[n - 1].db.approvals.approvals {
      f, j, at := FiledBefore(cfgs, states, actions, n - 1, id);
      EvolvesAlong(cfgs, states, actions, n - 1, n);
      FiledTerms(cfgs, states, actions, id, f, j, at);
      Approvals.DescendsTransitive(NewApproval(cfgs(j), states[f].runs[j], at), states[n - 1].db.approvals.approvals[id],
                                   states[n].db.approvals.approvals[id]);
    } else {
      f := n - 1;
      j, at := FiledNow(cfgs, states, actions, n - 1, id);
    }
  }

  lemma FiledTerms(cfgs: Configs, states: seq<System>, actions: seq<Action>, id: string, f: nat, j: nat, at: real)
    requires ValidConfigs(cfgs) && |states| == |actions| + 1 && Filed(cfgs, states, actions, id, f, j, at)
    ensures f < |states| && j in states[f].runs
    ensures states[f].runs[j].checks.target.Some? && states[f].runs[j].checks.tier.Some?
  {
  }

  // Two different texts with one digest.
  ghost predicate Collide(cfg: Config, x: string, y: string) {
    x != y && cfg.hash(x) == cfg.hash(y)
  }

  lemma SameDigest(a: Config, b: Config, s: ScopeDigest.Scope, t: ScopeDigest.Scope)
    requires Alike(a, b) && a.hash(ScopeDigest.Text(s)) == b.hash(ScopeDigest.Text(t))
    ensures || ScopeDigest.Flat(ScopeDigest.Parts(s)) == ScopeDigest.Flat(ScopeDigest.Parts(t))
            || Collide(b, ScopeDigest.Text(s), ScopeDigest.Text(t))
  {
    ScopeDigest.SameTextExact(s, t);
  }

  // What the filing run and the run that passes have in common.
  ghost predicate SameCase(a: Config, p: Run, b: Config, q: Run)
    requires p.checks.target.Some? && p.checks.tier.Some? && q.checks.target.Some? && q.checks.tier.Some?
  {
    && a.fingerprint(p.request) == b.fingerprint(q.request)
    && p.request.requester == q.request.requester
    && p.checks.tier == q.checks.tier
    && var s := SnapshotOf(a, p.request.action, p.checks.target.value);
       var t := SnapshotOf(b, q.request.action, q.checks.target.value);
       || ScopeDigest.Flat(ScopeDigest.Parts(s)) == ScopeDigest.Flat(ScopeDigest.Parts(t))
       || Collide(b, ScopeDigest.Text(s), ScopeDigest.Text(t))
  }

  // An approval that lets a run pass was filed earlier, by some run, for the same
  // fingerprint, requester and tier, and for a snapshot whose parts read the same in order;
  // or else two different texts have one digest.
  lemma FiledForSameScope(cfgs: Configs, states: seq<System>, actions: seq<Action>, m: nat, i: nat)
    returns (f: nat, j: nat, at: real)
    requires ValidConfigs(cfgs) && Trace(cfgs, states, actions)
    requires Took(cfgs, states, actions, i, AT_WAITING, m) && actions[m].move.act.Ensure?
    requires states[m].runs[i].checks.tier.Some? && RequiresApproval(states[m].runs[i].checks.tier.value)
    ensures f < m && Filed(cfgs, states, actions, states[m].runs[i].request.approvalToken, f, j, at)
    ensures states[m].runs[i].checks.target.Some?
    ensures SameCase(cfgs(j), states[f].runs[j], cfgs(i), states[m].runs[i])
  {
    hide Next, Initial, Enabled, SysOk, SnapshotOf, Filed, ApprovedBy;
    Reachable(cfgs, states, actions, m);
    ClearedBy(cfgs, states, actions, i, m);
    var r := states[m].runs[i];
    var a :| ApprovedBy(cfgs(i), r, states[m].db, actions[m].move.act.at, a);
    Approving(cfgs(i), r, states[m].db, actions[m].move.act.at, a);
    f, j, at := FiledBefore(cfgs, states, actions, m, r.request.approvalToken);
    FiledTerms(cfgs, states, actions, r.request.approvalToken, f, j, at);
    var p := states[f].runs[j];
    SameDigest(cfgs(j), cfgs(i), SnapshotOf(cfgs(j), p.request.action, p.checks.target.value),
               SnapshotOf(cfgs(i), r.request.action, r.checks.target.value));
  }

  lemma Approving(cfg: Config, r: Run, db: Db, at: real, a: Approval)
    requires r.checks.target.Some? && r.checks.tier.Some? && ApprovedBy(cfg, r, db, at, a)
    ensures r.request.approvalToken in db.approvals.approvals && db.approvals.approvals[r.request.approvalToken] == a
    ensures a.fingerprint == cfg.fingerprint(r.request) && a.requester == r.request.requester
    ensures a.tier == r.checks.tier.value && a.scopeDigest == DigestOf(cfg, r.request.action, r.checks.target.value)
  {
  }
}
