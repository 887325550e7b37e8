// What holds in every state any interleaving can reach.
module Guarantees {
  import opened Models
  import opened Records
  import opened Runs
  import opened RunInvariant
  import opened System
  import AuditChain
  import Approvals
  import Findings
  import Limiter
  import Scope
  import SM = StateMachine

  /* ---------- at most once ---------- */

  // No two tool calls are ever made for one request id.
  lemma AtMostOnce(cfgs: Configs, states: seq<System>, actions: seq<Action>, n: nat, k: nat, l: nat)
    requires ValidConfigs(cfgs) && Trace(cfgs, states, actions) && n < |states|
    requires k < |states[n].calls| && l < |states[n].calls| && k != l
    ensures states[n].calls[k].before.request.id != states[n].calls[l].before.request.id
  {
    hide Trace, RunsOk, AuditOk, FindingsSound, LeaseIdsOk, LeasesOk, AdmissionsOk, AllStored, Approvals.Inv,
         RunOk, Evolves, Disjoint, Replay;
    Reachable(cfgs, states, actions, n);
    var s := states[n];
    CalledRunsAreLater(cfgs, s.calls[k], s.runs, s.db);
    CalledRunsAreLater(cfgs, s.calls[l], s.runs, s.db);
    assert s.calls[k].run != s.calls[l].run;
  }

  // A persisted result never changes, and a reserved id stays reserved until it moves
  // into the results. No id is ever in both tables.
  lemma ResultsAreFinal(cfgs: Configs, states: seq<System>, actions: seq<Action>, m: nat, n: nat, id: string)
    requires ValidConfigs(cfgs) && Trace(cfgs, states, actions) && m <= n < |states|
    ensures id in states[m].db.results ==> id in states[n].db.results && states[n].db.results[id] == states[m].db.results[id]
    ensures id in states[m].db.reservations ==> id in states[n].db.reservations || id in states[n].db.results
    ensures !(id in states[n].db.reservations && id in states[n].db.results)
  {
    hide Trace, RunsOk, AuditOk, FindingsSound, LeaseIdsOk, LeasesOk, AdmissionsOk, AllStored, Approvals.Inv,
         CallsOk, OwnersOk, Replay, Approvals.Evolves;
    Reachable(cfgs, states, actions, n);
    EvolvesAlong(cfgs, states, actions, m, n);
    assert Taken(states[m].db, id) ==> Taken(states[n].db, id);
  }

  // Whatever a stored result lists is stored, and belongs to its request.
  lemma ResultsRefer(cfgs: Configs, states: seq<System>, actions: seq<Action>, n: nat, id: string)
    requires ValidConfigs(cfgs) && Trace(cfgs, states, actions) && n < |states| && id in states[n].db.results
    ensures EvidenceListed(states[n].db.results[id].evidenceIds, id, states[n].db.evidence)
    ensures FindingsListed(states[n].db.results[id].findingIds, id, states[n].db.findings)
  {
    hide Trace, RunsOk, AuditOk, FindingsSound, LeaseIdsOk, LeasesOk, AdmissionsOk, AllStored, Approvals.Inv,
         CallsOk, OwnersOk, Replay, EvidenceListed, FindingsListed;
    Reachable(cfgs, states, actions, n);
    assert ResultListed(id, states[n].db);
  }

  /* ---------- complete mediation ---------- */

  // At step m, run i successfully took this action from point p.
  ghost predicate Took(cfgs: Configs, states: seq<System>, actions: seq<Action>, i: nat, p: Pc, m: nat)
    requires ValidConfigs(cfgs) && |states| == |actions| + 1
  {
    && m < |actions|
    && actions[m].Advance? && actions[m].run == i && actions[m].move.Do?
    && i in states[m].runs && states[m].runs[i].pc == p
    && Equipped(cfgs(i), states[m].runs[i])
    && Enabled(cfgs(i), actions[m].move.act, states[m].runs[i], states[m].db)
    && i in states[m + 1].runs && states[m + 1].runs[i].pc == NextPc(actions[m].move.act, p)
  }

  // Levels a run has to cross on its way. The ASK points are a dead end: the last of
  // them is crossed only by a satisfied approval check, which jumps over all three.
  predicate Level(p: Pc) {
    InBody(p) && !(AT_WAITING <= p <= ASK_STORED)
  }

  function Gate(p: Pc): Pc {
    if p == ASK_DONE then AT_WAITING else p
  }

  // The only way past a level inside the try block is the action of its gate.
  lemma CrossedBy(cfg: Config, m: Move, r: Run, db: Db, r': Run, db': Db, p: Pc)
    requires ValidConfig(cfg) && Step(cfg, m, r, db, r', db')
    requires Level(p) && r.pc <= p < r'.pc && InBody(r'.pc)
    ensures m.Do? && r.pc == Gate(p) && Equipped(cfg, r) && Enabled(cfg, m.act, r, db) && r'.pc == NextPc(m.act, r.pc)
    ensures p == ASK_DONE ==> m.act.Ensure?
  {
    hide Guard, NewLife, NewChecks, NewHolds, NewTrail, NewWork, NewDb, Refuses, Handled, FinallyFailed;
  }

  // A run beyond a level took the action of its gate at some earlier step.
  lemma {:induction false} Crossed(cfgs: Configs, states: seq<System>, actions: seq<Action>, i: nat, p: Pc, n: nat)
    returns (m: nat)
    requires ValidConfigs(cfgs) && Trace(cfgs, states, actions) && n < |states|
    requires i in states[n].runs && Level(p) && p < states[n].runs[i].pc && InBody(states[n].runs[i].pc)
    ensures m < n && Took(cfgs, states, actions, i, Gate(p), m)
    ensures p == ASK_DONE ==> actions[m].move.act.Ensure?
  {
    hide Step, Approvals.Next, CleanEvent, Stamped, NewEvents, AppendEvent, Limiter.Step, Enabled;
    assert n > 0;
    assert Next(cfgs, states[n - 1], actions[n - 1], states[n]);
    var s := states[n - 1];
    assert i in s.runs;
    OthersStay(cfgs, s, actions[n - 1], states[n], i);
    if s.runs[i].pc > p {
      m := Crossed(cfgs, states, actions, i, p, n - 1);
    } else {
      CrossedBy(cfgs(i), actions[n - 1].move, s.runs[i], s.db, states[n].runs[i], states[n].db, p);
      m := n - 1;
    }
  }

  // A run never goes back and never changes its request.
  lemma {:induction false} Onward(cfgs: Configs, states: seq<System>, actions: seq<Action>, i: nat, m: nat, n: nat)
    requires ValidConfigs(cfgs) && Trace(cfgs, states, actions) && m <= n < |states| && i in states[m].runs
    ensures i in states[n].runs && states[n].runs[i].request == states[m].runs[i].request
    ensures states[m].runs[i].pc <= states[n].runs[i].pc
    decreases n - m
  {
    hide Next;
    if m < n {
      Onward(cfgs, states, actions, i, m, n - 1);
      OthersStay(cfgs, states[n - 1], actions[n - 1], states[n], i);
    }
  }

  lemma InOrder(cfgs: Configs, states: seq<System>, actions: seq<Action>, i: nat, p: Pc, m: nat, q: Pc, k: nat)
    requires ValidConfigs(cfgs) && Trace(cfgs, states, actions) && p < q
    requires Took(cfgs, states, actions, i, p, m) && Took(cfgs, states, actions, i, q, k)
    ensures m < k
  {
    hide Next, Initial, Enabled, Equipped;
    if k <= m {
      Onward(cfgs, states, actions, i, k, m);
    }
  }

  // What the run knew when it called the tool, seen from the store now.
  ghost predicate Mediated(cfg: Config, r: Run, db: Db, events: seq<Limiter.Event>)
    requires ValidConfig(cfg)
  {
    && Taken(db, r.request.id) && WellFormed(cfg, r.request) && r.request.requester == cfg.actor
    && KnownTool(cfg, r.request)
    && ScopeAllowed(cfg, r.request, r.checks)
    && r.checks.grant.Some? && GrantFact(cfg, r.request, r.checks, db.approvals.grants)
    && TierFact(cfg, r.request, r.checks)
    && (RequiresApproval(r.checks.tier.value) ==> r.checks.approval.Some?)
    && ApprovalFact(cfg, r.request, r.checks, db.approvals)
    && Selectable(cfg, r.request, r.checks.target.value)
    && r.holds.leaseId.Some? && (exists n :: AdmittedBy(cfg, r, events, n))
    && r.trail.steps == Stages(Scope.Allow)[..7]
    && TrailOk(cfg, db.audit, r.request.id, r.trail)
  }

  lemma LaunchMediated(cfg: Config, r: Run, db: Db, events: seq<Limiter.Event>)
    requires ValidConfig(cfg) && RunOk(cfg, r, db) && AdmittedOk(cfg, r, events) && r.pc == AT_LAUNCH
    ensures Mediated(cfg, r, db, events)
  {
    hide TrailOk, GrantFact, ApprovalFact, EvidenceFact, LifeOk, WorkOk, AdmittedBy, Selectable, KnownTool, WellFormed;
  }

  // Whatever any component call returned or raised, and whatever everybody else did in
  // between: at every later moment, each tool call is backed by a reservation, two ALLOW
  // rulings, an exactly matching active grant, a satisfied approval check, a read-only
  // offline tool, an admitted lease, and all seven events in the audit table, in order.
  lemma CompleteMediation(cfgs: Configs, states: seq<System>, actions: seq<Action>, n: nat, k: nat)
    requires ValidConfigs(cfgs) && Trace(cfgs, states, actions) && n < |states| && k < |states[n].calls|
    ensures Mediated(cfgs(states[n].calls[k].run), states[n].calls[k].before, states[n].db, states[n].events)
  {
    hide Trace, AuditOk, FindingsSound, LeaseIdsOk, LeasesOk, AllStored, Approvals.Inv, RunOk, AdmittedOk,
         Mediated, Replay;
    Reachable(cfgs, states, actions, n);
    var c := states[n].calls[k];
    assert CallOk(cfgs, c, states[n].runs, states[n].db);
    LaunchMediated(cfgs(c.run), c.before, states[n].db, states[n].events);
  }

  // The same in time: before it calls the tool, a run reserves its id, is allowed by
  // scope, finds its grant, satisfies the approval check, selects the tool, is admitted
  // by the limiter and logs that it executes, each step succeeding in the store of its
  // own moment, one after the other.
  lemma MediationInTime(cfgs: Configs, states: seq<System>, actions: seq<Action>, n: nat, i: nat) returns (t: seq<nat>)
    requires ValidConfigs(cfgs) && Trace(cfgs, states, actions)
    requires n < |actions| && actions[n] == Advance(i, Do(Invoke))
    ensures |t| == 7 && t[0] < t[1] < t[2] < t[3] < t[4] < t[5] < t[6] < n
    ensures Took(cfgs, states, actions, i, AT_VALIDATING, t[0]) && actions[t[0]].move.act.Reserve?
    ensures Took(cfgs, states, actions, i, AT_RULED, t[1]) && actions[t[1]].move.act.Snapshot?
    ensures Took(cfgs, states, actions, i, AT_AUTHORIZATION, t[2]) && actions[t[2]].move.act.CheckGrant?
    ensures Took(cfgs, states, actions, i, AT_WAITING, t[3]) && actions[t[3]].move.act.Ensure?
    ensures Took(cfgs, states, actions, i, AT_APPROVED, t[4]) && actions[t[4]].move.act.Prepare?
    ensures Took(cfgs, states, actions, i, AT_LEASE_CHOSEN, t[5]) && actions[t[5]].move.act.Acquire?
    ensures Took(cfgs, states, actions, i, AT_EXECUTING, t[6]) && actions[t[6]].move.act.Log?
  {
    hide Next, Initial, Took, TakenAt;
    LaunchPoint(cfgs, states, actions, n, i);
    var t0 := Gateway(cfgs, states, actions, i, AT_VALIDATING, n);
    var t1 := Gateway(cfgs, states, actions, i, AT_RULED, n);
    var t2 := Gateway(cfgs, states, actions, i, AT_AUTHORIZATION, n);
    var t3 := Gateway(cfgs, states, actions, i, ASK_DONE, n);
    var t4 := Gateway(cfgs, states, actions, i, AT_APPROVED, n);
    var t5 := Gateway(cfgs, states, actions, i, AT_LEASE_CHOSEN, n);
    var t6 := Gateway(cfgs, states, actions, i, AT_EXECUTING, n);
    InOrder(cfgs, states, actions, i, AT_VALIDATING, t0, AT_RULED, t1);
    InOrder(cfgs, states, actions, i, AT_RULED, t1, AT_AUTHORIZATION, t2);
    InOrder(cfgs, states, actions, i, AT_AUTHORIZATION, t2, AT_WAITING, t3);
    InOrder(cfgs, states, actions, i, AT_WAITING, t3, AT_APPROVED, t4);
    InOrder(cfgs, states, actions, i, AT_APPROVED, t4, AT_LEASE_CHOSEN, t5);
    InOrder(cfgs, states, actions, i, AT_LEASE_CHOSEN, t5, AT_EXECUTING, t6);
    t := [t0, t1, t2, t3, t4, t5, t6];
  }

  // The action of each gate before the tool.
  predicate GateAct(p: Pc, act: Act) {
    && (p == AT_VALIDATING ==> act.Reserve?)
    && (p == AT_RULED ==> act.Snapshot?)
    && (p == AT_AUTHORIZATION ==> act.CheckGrant?)
    && (p == ASK_DONE ==> act.Ensure?)
    && (p == AT_APPROVED ==> act.Prepare?)
    && (p == AT_LEASE_CHOSEN ==> act.Acquire?)
    && (p == AT_EXECUTING ==> act.Log?)
  }

  lemma Gateway(cfgs: Configs, states: seq<System>, actions: seq<Action>, i: nat, p: Pc, n: nat) returns (m: nat)
    requires ValidConfigs(cfgs) && Trace(cfgs, states, actions) && n < |states|
    requires i in states[n].runs && Level(p) && p < states[n].runs[i].pc && InBody(states[n].runs[i].pc)
    ensures m < n && Took(cfgs, states, actions, i, Gate(p), m)
    ensures actions[m].Advance? && actions[m].move.Do? && GateAct(p, actions[m].move.act)
  {
    hide Next, Initial, Guard;
    m := Crossed(cfgs, states, actions, i, p, n);
  }

  lemma LaunchPoint(cfgs: Configs, states: seq<System>, actions: seq<Action>, n: nat, i: nat)
    requires ValidConfigs(cfgs) && Trace(cfgs, states, actions)
    requires n < |actions| && actions[n] == Advance(i, Do(Invoke))
    ensures i in states[n].runs && states[n].runs[i].pc == AT_LAUNCH
  {
    assert Next(cfgs, states[n], actions[n], states[n + 1]);
  }

  // A failure anywhere before the tool prevents the call for good, a failing audit append
  // like any other, whether or not its row was committed.
  lemma FailureStops(cfgs: Configs, states: seq<System>, actions: seq<Action>, m: nat, n: nat, i: nat)
    requires ValidConfigs(cfgs) && Trace(cfgs, states, actions) && m < n < |actions|
    requires actions[m].Advance? && actions[m].run == i && !actions[m].move.Do?
    ensures actions[n] != Advance(i, Do(Invoke))
  {
    hide Initial, Enabled, MayRaise, NewDb, Handled, FinallyFailed, Approvals.Next;
    assert Next(cfgs, states[m], actions[m], states[m + 1]);
    assert states[m + 1].runs[i].pc >= AT_CLEANUP;
    Onward(cfgs, states, actions, i, m + 1, n);
    if actions[n] == Advance(i, Do(Invoke)) {
      LaunchPoint(cfgs, states, actions, n, i);
      assert false;
    }
  }

  // A typed error only comes from a refusal.
  lemma ErrorFrom(cfg: Config, m: Move, r: Run, db: Db, r': Run, db': Db, f: Models.Fault)
    requires ValidConfig(cfg) && Step(cfg, m, r, db, r', db')
    requires r'.life.error == Some(Typed(f)) && r.life.error != Some(Typed(f))
    ensures m.Fault? && m.fault == f && Equipped(cfg, r) && InBody(r.pc) && Refuses(cfg, r, db, f, m.at)
  {
    hide Guard, NewChecks, NewHolds, NewTrail, NewWork, NewDb, Refuses;
  }

  // Whoever gets a typed error was refused by that check, in the store of that moment.
  lemma {:induction false} ErrorHasCause(cfgs: Configs, states: seq<System>, actions: seq<Action>, n: nat, i: nat,
                                         f: Models.Fault)
    returns (m: nat)
    requires ValidConfigs(cfgs) && Trace(cfgs, states, actions) && n < |states|
    requires i in states[n].runs && states[n].runs[i].life.error == Some(Typed(f))
    ensures m < n && actions[m].Advance? && actions[m].run == i && actions[m].move.Fault? && actions[m].move.fault == f
    ensures i in states[m].runs && Equipped(cfgs(i), states[m].runs[i]) && InBody(states[m].runs[i].pc)
    ensures Refuses(cfgs(i), states[m].runs[i], states[m].db, f, actions[m].move.at)
  {
    hide Step, Approvals.Next, CleanEvent, Stamped, NewEvents, AppendEvent, Limiter.Step, Equipped, Refuses;
    assert n > 0;
    assert Next(cfgs, states[n - 1], actions[n - 1], states[n]);
    var s := states[n - 1];
    assert i in s.runs;
    OthersStay(cfgs, s, actions[n - 1], states[n], i);
    if s.runs[i].life.error == Some(Typed(f)) {
      m := ErrorHasCause(cfgs, states, actions, n - 1, i, f);
    } else {
      ErrorFrom(cfgs(i), actions[n - 1].move, s.runs[i], s.db, states[n].runs[i], states[n].db, f);
      m := n - 1;
    }
  }

  /* ---------- the distinct approver ---------- */

  // After the approval check a run's checks no longer change.
  lemma ChecksSettle(cfg: Config, m: Move, r: Run, db: Db, r': Run, db': Db)
    requires ValidConfig(cfg) && Step(cfg, m, r, db, r', db') && r.pc >= AT_CLEARED
    ensures r'.checks == r.checks
  {
    hide Guard, NewLife, NewHolds, NewTrail, NewWork, NewDb, Refuses, Handled, FinallyFailed;
  }

  lemma {:induction false} ChecksSettled(cfgs: Configs, states: seq<System>, actions: seq<Action>, i: nat, m: nat, n: nat)
    requires ValidConfigs(cfgs) && Trace(cfgs, states, actions) && m <= n < |states|
    requires i in states[m].runs && states[m].runs[i].pc >= AT_CLEARED
    ensures i in states[n].runs && states[n].runs[i].checks == states[m].runs[i].checks
    decreases n - m
  {
    hide Step, Approvals.Next, CleanEvent, Stamped, NewEvents, AppendEvent, Limiter.Step;
    if m < n {
      ChecksSettled(cfgs, states, actions, i, m, n - 1);
      Onward(cfgs, states, actions, i, m, n - 1);
      assert Next(cfgs, states[n - 1], actions[n - 1], states[n]);
      if actions[n - 1].Advance? && actions[n - 1].run == i {
        ChecksSettle(cfgs(i), actions[n - 1].move, states[n - 1].runs[i], states[n - 1].db, states[n].runs[i], states[n].db);
      }
    }
  }

  // What one approval check saw: the record satisfies it and was properly decided.
  ghost predicate ApprovedBy(cfg: Config, r: Run, db: Db, at: real, a: Approval)
    requires r.checks.target.Some? && r.checks.tier.Some?
  {
    && r.request.approvalToken in db.approvals.approvals && db.approvals.approvals[r.request.approvalToken] == a
    && a.state == Granted && at <= a.expiresAt
    && a.fingerprint == cfg.fingerprint(r.request)
    && a.tier == r.checks.tier.value
    && a.requester == r.request.requester
    && a.scopeDigest == DigestOf(cfg, r.request.action, r.checks.target.value)
    && a.approver.Some? && a.approver.value != "" && a.approver.value != r.request.requester
    && a.decidedAt.Some? && a.decidedAt.value <= a.expiresAt
    && exists g :: g in db.approvals.grants
                   && Approvals.ApproverGrant(db.approvals.grants[g], a, a.approver.value, a.decidedAt.value)
  }

  lemma EnsureSaw(cfg: Config, r: Run, db: Db, at: real, ops: map<nat, Approvals.Op>)
    requires ValidConfig(cfg) && Equipped(cfg, r) && Enabled(cfg, Ensure(at), r, db)
    requires Approvals.Inv(Approvals.System(db.approvals, ops))
    requires RequiresApproval(r.checks.tier.value)
    ensures r.request.approvalToken in db.approvals.approvals
    ensures ApprovedBy(cfg, r, db, at, db.approvals.approvals[r.request.approvalToken])
    ensures NewChecks(cfg, Ensure(at), r, db).tier == r.checks.tier
    ensures NewChecks(cfg, Ensure(at), r, db).target == r.checks.target
  {
    assert Approvals.Proper(db.approvals.approvals[r.request.approvalToken], db.approvals.grants);
  }

  // Whenever a run of tier HIGH or CRITICAL, after the floor of its tool is applied, is
  // executing, its approval check saw a record granted in time by somebody other than the
  // requester who held an active approver grant for this action and target.
  lemma DistinctApprover(cfgs: Configs, states: seq<System>, actions: seq<Action>, n: nat, i: nat) returns (m: nat)
    requires ValidConfigs(cfgs) && Trace(cfgs, states, actions) && n < |states| && i in states[n].runs
    requires AT_EXECUTING <= states[n].runs[i].pc && InBody(states[n].runs[i].pc)
    requires states[n].runs[i].checks.tier.Some? && RequiresApproval(states[n].runs[i].checks.tier.value)
    ensures m < n && actions[m].Advance? && actions[m].run == i && actions[m].move.Do? && actions[m].move.act.Ensure?
    ensures i in states[m].runs && states[m].runs[i].checks.target.Some? && states[m].runs[i].checks.tier.Some?
    ensures states[m].runs[i].request == states[n].runs[i].request
    ensures states[m].runs[i].checks.tier == states[n].runs[i].checks.tier
    ensures TierFact(cfgs(i), states[n].runs[i].request, states[n].runs[i].checks)
    ensures exists a :: ApprovedBy(cfgs(i), states[m].runs[i], states[m].db, actions[m].move.act.at, a)
  {
    m := Crossed(cfgs, states, actions, i, ASK_DONE, n);
    Onward(cfgs, states, actions, i, m, n);
    ChecksSettled(cfgs, states, actions, i, m + 1, n);
    var r := states[n].runs[i];
    assert RunOk(cfgs(i), r, states[n].db) && TierFact(cfgs(i), r.request, r.checks) by {
      Reachable(cfgs, states, actions, n);
      hide Trace, Took, AuditOk, FindingsSound, LeaseIdsOk, LeasesOk, AllStored, Approvals.Inv, CallsOk;
    }
    Reachable(cfgs, states, actions, m);
    ClearedBy(cfgs, states, actions, i, m);
  }

  lemma ClearedBy(cfgs: Configs, states: seq<System>, actions: seq<Action>, i: nat, m: nat)
    requires ValidConfigs(cfgs) && Trace(cfgs, states, actions) && m < |actions|
    requires Took(cfgs, states, actions, i, AT_WAITING, m) && actions[m].move.act.Ensure?
    requires SysOk(cfgs, states[m])
    ensures states[m].runs[i].checks.target.Some? && states[m].runs[i].checks.tier.Some?
    ensures states[m + 1].runs[i].checks.tier == states[m].runs[i].checks.tier
    ensures RequiresApproval(states[m].runs[i].checks.tier.value) ==>
              exists a :: ApprovedBy(cfgs(i), states[m].runs[i], states[m].db, actions[m].move.act.at, a)
  {
    hide RunsOk, AuditOk, FindingsSound, LeaseIdsOk, LeasesOk, AllStored, Approvals.Inv, CallsOk, ApprovedBy,
         NewDb, NewLife, NewHolds, NewTrail, NewWork, Guard, Stamped, NewEvents;
    assert Next(cfgs, states[m], actions[m], states[m + 1]);
    var r := states[m].runs[i];
    if RequiresApproval(r.checks.tier.value) {
      EnsureSaw(cfgs(i), r, states[m].db, actions[m].move.act.at, states[m].ops);
    }
  }

  /* ---------- leases ---------- */

  lemma {:induction false} Injective(keys: set<nat>, f: map<nat, nat>, n: nat)
    requires forall i | i in keys :: i in f && f[i] < n
    requires forall i, j | i in keys && j in keys && f[i] == f[j] :: i == j
    ensures |keys| <= n
  {
    if keys != {} {
      var k :| k in keys;
      assert f[k] < n;
      if i :| i in keys && f[i] == n - 1 {
        Injective(keys - {i}, f, n - 1);
      } else {
        Injective(keys, f, n - 1);
      }
    }
  }

  // The runs that are inside the tool.
  function InTool(s: System): set<nat> {
    set i | i in s.runs && s.runs[i].pc == IN_TOOL
  }

  lemma LeaseIndex(s: System, i: nat) returns (k: nat)
    requires i in s.runs && s.runs[i].pc == IN_TOOL && LeasesOk(s) && HoldsOk(s.runs[i].pc, s.runs[i].holds)
    requires s.now <= s.runs[i].holds.leaseExpires
    ensures k < |s.db.limiter.leases|
    ensures s.runs[i].holds.leaseId == Some(s.db.limiter.leases[k].id)
  {
    assert LeaseOk(s.runs[i], s.db.limiter.leases, s.now);
    var l :| l in s.db.limiter.leases && l.id == s.runs[i].holds.executionId.value;
    k :| k < |s.db.limiter.leases| && s.db.limiter.leases[k] == l;
  }

  lemma LeaseIndices(cfgs: Configs, s: System, keys: set<nat>) returns (f: map<nat, nat>)
    requires ValidConfigs(cfgs) && SysOk(cfgs, s) && keys <= InTool(s)
    requires forall i | i in keys :: s.now <= s.runs[i].holds.leaseExpires
    ensures forall i | i in keys ::
              i in f && f[i] < |s.db.limiter.leases| && s.runs[i].holds.leaseId == Some(s.db.limiter.leases[f[i]].id)
    decreases |keys|
  {
    hide SysOk;
    if keys == {} {
      f := map[];
    } else {
      var i :| i in keys;
      var rest := LeaseIndices(cfgs, s, keys - {i});
      SysHolds(cfgs, s, i);
      var k := LeaseIndex(s, i);
      f := rest[i := k];
    }
  }

  lemma SysHolds(cfgs: Configs, s: System, i: nat)
    requires ValidConfigs(cfgs) && SysOk(cfgs, s) && i in s.runs
    ensures HoldsOk(s.runs[i].pc, s.runs[i].holds) && LifeOk(s.runs[i].pc, s.runs[i].life)
    ensures LeasesOk(s) && LeaseIdsOk(s.runs, s.leaseIds)
    ensures LeaseOk(s.runs[i], s.db.limiter.leases, s.now) && StoredOk(s.runs[i], s.db)
  {
    hide AuditOk, FindingsSound, Approvals.Inv, CallsOk, Trace, HoldsOk, LifeOk, LeaseOk, StoredOk, LeaseIdsOk;
    assert RunOk(cfgs(i), s.runs[i], s.db);
  }

  lemma {:induction false} LeaseTableBound(cfgs: Configs, states: seq<System>, actions: seq<Action>, n: nat, max: nat)
    requires ValidConfigs(cfgs) && Trace(cfgs, states, actions) && n < |states| && LimitedTo(cfgs, states[n].runs, max)
    ensures Bounded(max, states[n].db.limiter)
  {
    hide Next, Bounded, ValidConfigs;
    if n == 0 {
      EmptyBounded(states[0], max);
    } else {
      assert Next(cfgs, states[n - 1], actions[n - 1], states[n]);
      forall i | i in states[n - 1].runs ensures i in states[n].runs {
        OthersStay(cfgs, states[n - 1], actions[n - 1], states[n], i);
      }
      LeaseTableBound(cfgs, states, actions, n - 1, max);
      BoundKept(cfgs, states[n - 1], actions[n - 1], states[n], max);
    }
  }

  lemma EmptyBounded(s: System, max: nat)
    requires Initial(s)
    ensures Bounded(max, s.db.limiter)
  {
  }

  // The lease table never exceeds the highest concurrency limit of any run so far; and
  // if no run inside the tool has outstayed its lease, no more runs are inside it than
  // that.
  lemma ToolBound(cfgs: Configs, states: seq<System>, actions: seq<Action>, n: nat, max: nat)
    requires ValidConfigs(cfgs) && Trace(cfgs, states, actions) && n < |states|
    requires forall i | i in states[n].runs :: cfgs(i).maxConcurrent <= max
    ensures |states[n].db.limiter.leases| <= max
    ensures (forall i | i in InTool(states[n]) :: states[n].now <= states[n].runs[i].holds.leaseExpires)
            ==> |InTool(states[n])| <= max
  {
    hide Next, Initial, ValidConfigs;
    Reachable(cfgs, states, actions, n);
    LeaseTableBound(cfgs, states, actions, n, max);
    var s := states[n];
    var keys := InTool(s);
    if forall i | i in keys :: s.now <= s.runs[i].holds.leaseExpires {
      hide RunsOk, AuditOk, FindingsSound, Approvals.Inv, CallsOk, LeasesOk, AllStored, AdmissionsOk;
      var f := LeaseIndices(cfgs, s, keys);
      forall i, j | i in keys && j in keys && f[i] == f[j] ensures i == j {
        assert s.runs[i].holds.leaseId == s.runs[j].holds.leaseId;
      }
      Injective(keys, f, |s.db.limiter.leases|);
    }
  }

  // From any reachable state, whatever crashed runs left behind: a run about to acquire
  // is admitted once every stored expiry and every stored minute has passed.
  lemma RecoveryAfterCrashes(cfgs: Configs, states: seq<System>, actions: seq<Action>, n: nat, i: nat, t: real)
    requires ValidConfigs(cfgs) && Trace(cfgs, states, actions) && n < |states|
    requires i in states[n].runs && i !in states[n].crashed && states[n].runs[i].pc == AT_LEASE_CHOSEN
    requires forall c | c in states[n].db.limiter.calls :: c.at + Limiter.WINDOW < t
    requires forall l | l in states[n].db.limiter.leases :: l.expires < t
    requires states[n].now >= t && cfgs(i).ratePerMinute >= 1 && cfgs(i).maxConcurrent >= 1
    requires states[n].runs[i].request.tool in cfgs(i).registry && cfgs(i).registry[states[n].runs[i].request.tool].perMinute >= 1
    ensures exists s' :: Next(cfgs, states[n], Advance(i, Do(Acquire(t))), s') && i in s'.runs && s'.runs[i].pc == AT_LEASED
  {
    hide Next, Initial, SysOk, Equipped, Step;
    Reachable(cfgs, states, actions, n);
    var s := states[n];
    var r := s.runs[i];
    SysEquipped(cfgs, s, i);
    var r', db' := CanAcquire(cfgs(i), r, s.db, t);
    var s' := MakeMove(cfgs, s, i, Do(Acquire(t)), r', db');
  }

  lemma CanAcquire(cfg: Config, r: Run, db: Db, t: real) returns (r': Run, db': Db)
    requires ValidConfig(cfg) && Equipped(cfg, r) && r.pc == AT_LEASE_CHOSEN
    requires forall c | c in db.limiter.calls :: c.at + Limiter.WINDOW < t
    requires forall l | l in db.limiter.leases :: l.expires < t
    requires cfg.ratePerMinute >= 1 && cfg.maxConcurrent >= 1 && cfg.registry[r.request.tool].perMinute >= 1
    ensures Step(cfg, Do(Acquire(t)), r, db, r', db') && r'.pc == AT_LEASED
  {
    Limiter.CrashRecovery(db.limiter, LeaseRequest(cfg, r), t);
    hide Limiter.Acquire;
    r', db' := NewRun(cfg, Acquire(t), r, db), NewDb(cfg, Acquire(t), r, db);
  }

  // What a run can do, the system can do.
  lemma MakeMove(cfgs: Configs, s: System, i: nat, m: Move, r': Run, db': Db) returns (s': System)
    requires ValidConfigs(cfgs) && i in s.runs && i !in s.crashed
    requires Step(cfgs(i), m, s.runs[i], s.db, r', db') && Stamped(m, s.now) && NewLeaseIds(m) !! s.leaseIds
    ensures Next(cfgs, s, Advance(i, m), s')
    ensures s'.db == db' && s'.runs == s.runs[i := r'] && s'.calls == s.calls + NewCalls(i, m, s.runs[i])
    ensures s'.crashed == s.crashed && s'.ops == s.ops && s'.now == s.now && s'.leaseIds == s.leaseIds + NewLeaseIds(m)
  {
    assert Equipped(cfgs(i), s.runs[i]);
    hide Step, Stamped, Equipped;
    s' := s.(db := db', runs := s.runs[i := r'], calls := s.calls + NewCalls(i, m, s.runs[i]),
             leaseIds := s.leaseIds + NewLeaseIds(m), events := s.events + NewEvents(cfgs(i), m, s.runs[i]));
    assert Next(cfgs, s, Advance(i, m), s');
  }

  lemma SysEquipped(cfgs: Configs, s: System, i: nat)
    requires ValidConfigs(cfgs) && SysOk(cfgs, s) && i in s.runs
    ensures Equipped(cfgs(i), s.runs[i])
  {
    hide AuditOk, FindingsSound, Approvals.Inv, CallsOk, Trace, Equipped;
    assert RunOk(cfgs(i), s.runs[i], s.db);
  }

  /* ---------- the audit table and the findings ---------- */

  // In every reachable state the chain verifies, no field of any event matches an
  // injection signature, and every earlier table is a prefix of it.
  lemma AuditAlwaysVerifies(cfgs: Configs, states: seq<System>, actions: seq<Action>, m: nat, n: nat, k: nat)
    requires ValidConfigs(cfgs) && Trace(cfgs, states, actions) && m <= n < |states|
    ensures AuditChain.Verifies(cfgs(k).hash, states[n].db.audit)
    ensures forall i | 0 <= i < |states[n].db.audit| :: CleanRow(cfgs(k), states[n].db.audit[i])
    ensures states[m].db.audit <= states[n].db.audit
  {
    hide Trace, RunsOk, FindingsSound, LeaseIdsOk, LeasesOk, AdmissionsOk, AllStored, Approvals.Inv, CallsOk,
         AuditChain.Verifies, CleanRow, Approvals.Evolves;
    Reachable(cfgs, states, actions, n);
    AuditAlike(cfgs(0), cfgs(k), states[n].db.audit);
    EvolvesAlong(cfgs, states, actions, m, n);
  }

  // Every stored finding passes the reporter's linkage checks, and every confirmed one
  // is the fixture verifier's and independently reproduced.
  lemma ReportSound(cfgs: Configs, states: seq<System>, actions: seq<Action>, n: nat, id: string, k: nat)
    requires ValidConfigs(cfgs) && Trace(cfgs, states, actions) && n < |states| && id in states[n].db.findings
    ensures Findings.Linked(cfgs(k), states[n].db.findings[id], states[n].db.evidence)
    ensures states[n].db.findings[id].confirmed ==> states[n].db.findings[id].tool.FixtureVerify?
  {
    hide Trace, RunsOk, AuditOk, LeaseIdsOk, LeasesOk, AdmissionsOk, AllStored, Approvals.Inv, CallsOk,
         Findings.Linked;
    Reachable(cfgs, states, actions, n);
    FindingsAlike(cfgs(0), cfgs(k), states[n].db);
    assert Findings.Sound(cfgs(k), states[n].db.findings[id], states[n].db.evidence);
  }

  /* ---------- completion ---------- */

  // Every run that returns has settled: its state is terminal, it carries an error
  // exactly if it did not complete, state and outcome tell that error, its history is
  // valid up to one extra FAILED, its lease is gone unless the release or the final step
  // failed, and unless the final step failed its FINISHED event is in the audit table and
  // what it returns is what is stored.
  lemma Completion(cfgs: Configs, states: seq<System>, actions: seq<Action>, n: nat, i: nat)
    requires ValidConfigs(cfgs) && Trace(cfgs, states, actions) && n < |states| && i in states[n].runs
    requires states[n].runs[i].pc == RETURNED && !states[n].runs[i].life.escaping
    ensures var r := states[n].runs[i];
            && Settled(r.life)
            && (SM.History(r.life.states) || ExtraFailed(r.life))
            && |r.life.states| <= 15
            && (Last(r.life.states) == r.life.state || r.life.error == Some(AuditFailure))
            && (r.holds.leaseId.Some? && r.life.error != Some(LeaseCleanupFailed) && r.life.error != Some(AuditFailure) ==>
                  NoLease(states[n].db.limiter.leases, r.holds.leaseId.value))
            && (r.life.error != Some(AuditFailure) ==>
                  exists row :: LoggedAt(cfgs(i), states[n].db.audit, row, r.request.id, Stage.Finished))
            && (r.holds.reserved && r.life.error != Some(AuditFailure) ==>
                  r.request.id in states[n].db.results && states[n].db.results[r.request.id] == ResultOf(r))
  {
    hide Trace, SysOk, SM.History, LoggedAt;
    Reachable(cfgs, states, actions, n);
    SysHolds(cfgs, states[n], i);
    if states[n].runs[i].life.error != Some(AuditFailure) {
      FinishedLogged(cfgs, states[n], i);
    }
    var life := states[n].runs[i].life;
    if SM.History(life.states) {
      SM.HistoryShape(life.states);
    } else {
      SM.HistoryShape(life.states[..|life.states| - 1]);
    }
  }

  lemma FinishedLogged(cfgs: Configs, s: System, i: nat)
    requires ValidConfigs(cfgs) && SysOk(cfgs, s) && i in s.runs
    requires s.runs[i].pc == RETURNED && !s.runs[i].life.escaping && s.runs[i].life.error != Some(AuditFailure)
    ensures exists row :: LoggedAt(cfgs(i), s.db.audit, row, s.runs[i].request.id, Stage.Finished)
  {
    hide AuditOk, FindingsSound, Approvals.Inv, CallsOk, LeasesOk, AdmissionsOk, AllStored, AllListed, LeaseIdsOk,
         OwnersOk, LoggedAt, LifeOk, HoldsOk, StepsOk, DecisionsOk, WorkOk, GrantFact, ApprovalFact, EvidenceFact, Disjoint;
    var r := s.runs[i];
    assert RunOk(cfgs(i), r, s.db);
    assert LoggedAt(cfgs(i), s.db.audit, Last(r.trail.rows), r.request.id, Last(r.trail.steps));
  }

  // A step whose store failed, whether or not it committed.
  predicate StoreFails(m: Move) {
    m.Lose? || (m.Fault? && StoreFailure(m.fault))
  }

  // At step m the store failed the final audit or the final persist of run i.
  predicate FailedEnd(states: seq<System>, actions: seq<Action>, i: nat, m: nat) {
    && m < |actions| && m < |states|
    && actions[m].Advance? && actions[m].run == i && i in states[m].runs
    && states[m].runs[i].pc >= AT_RELEASED && StoreFails(actions[m].move)
  }

  // The last step before state n, for a run that is there: it has just begun, the step was
  // not its own, or it was.
  lemma LastStep(cfgs: Configs, states: seq<System>, actions: seq<Action>, n: nat, i: nat)
    requires ValidConfigs(cfgs) && Trace(cfgs, states, actions) && n < |states| && i in states[n].runs
    ensures n > 0 && |states| == |actions| + 1 && LifeOk(states[n].runs[i].pc, states[n].runs[i].life)
    ensures i !in states[n - 1].runs ==> states[n].runs[i] == Fresh(states[n].runs[i].request)
    ensures i in states[n - 1].runs ==> LifeOk(states[n - 1].runs[i].pc, states[n - 1].runs[i].life)
    ensures i in states[n - 1].runs ==>
              if actions[n - 1].Advance? && actions[n - 1].run == i
              then Step(cfgs(i), actions[n - 1].move, states[n - 1].runs[i], states[n - 1].db, states[n].runs[i], states[n].db)
              else states[n].runs[i] == states[n - 1].runs[i]
  {
    hide Step, Approvals.Next, CleanEvent, Stamped, NewEvents, AppendEvent, Limiter.Step, SysOk, LifeOk;
    assert n > 0;
    assert Next(cfgs, states[n - 1], actions[n - 1], states[n]);
    Reachable(cfgs, states, actions, n);
    SysHolds(cfgs, states[n], i);
    if i in states[n - 1].runs {
      Reachable(cfgs, states, actions, n - 1);
      SysHolds(cfgs, states[n - 1], i);
    }
  }

  lemma EndFails(cfg: Config, m: Move, r: Run, db: Db, r': Run, db': Db)
    requires ValidConfig(cfg) && Step(cfg, m, r, db, r', db') && LifeOk(r.pc, r.life)
    ensures r.life.error != Some(AuditFailure)
    ensures r'.life.error == Some(AuditFailure) <==> r.pc >= AT_RELEASED && StoreFails(m)
  {
    hide Guard, NewChecks, NewHolds, NewTrail, NewWork, NewDb, Refuses, SM.History;
  }

  // A run carries the error of a failing final step exactly if it had one.
  lemma {:induction false} FinalFailureExact(cfgs: Configs, states: seq<System>, actions: seq<Action>, n: nat, i: nat)
    requires ValidConfigs(cfgs) && Trace(cfgs, states, actions) && n < |states| && i in states[n].runs
    ensures states[n].runs[i].life.error == Some(AuditFailure) <==> exists m: nat :: m < n && FailedEnd(states, actions, i, m)
  {
    hide Trace, Step, LifeOk, StoreFails;
    LastStep(cfgs, states, actions, n, i);
    var s := states[n - 1];
    if i in s.runs {
      FinalFailureExact(cfgs, states, actions, n - 1, i);
      if actions[n - 1].Advance? && actions[n - 1].run == i {
        EndFails(cfgs(i), actions[n - 1].move, s.runs[i], s.db, states[n].runs[i], states[n].db);
        assert states[n].runs[i].life.error == Some(AuditFailure) ==> FailedEnd(states, actions, i, n - 1);
      }
    } else {
      NotBefore(cfgs, states, actions, n - 1, i);
    }
  }

  // A run that has not begun has taken no step.
  lemma NotBefore(cfgs: Configs, states: seq<System>, actions: seq<Action>, n: nat, i: nat)
    requires ValidConfigs(cfgs) && Trace(cfgs, states, actions) && n < |states| && i !in states[n].runs
    ensures forall m: nat | m <= n :: i !in states[m].runs
  {
    hide Next, Initial;
    forall m: nat | m <= n ensures i !in states[m].runs {
      if i in states[m].runs {
        Onward(cfgs, states, actions, i, m, n);
        assert false;
      }
    }
  }

  // What a returning run with a reservation returns is what is stored exactly if the
  // store failed neither its final audit nor its final persist.
  lemma StoredExact(cfgs: Configs, states: seq<System>, actions: seq<Action>, n: nat, i: nat)
    requires ValidConfigs(cfgs) && Trace(cfgs, states, actions) && n < |states| && i in states[n].runs
    requires states[n].runs[i].pc == RETURNED && !states[n].runs[i].life.escaping && states[n].runs[i].holds.reserved
    ensures var r, db := states[n].runs[i], states[n].db;
            r.request.id in db.results && db.results[r.request.id] == ResultOf(r)
            <==> !exists m: nat :: m < n && FailedEnd(states, actions, i, m)
  {
    hide Trace, RunsOk, AuditOk, FindingsSound, LeaseIdsOk, LeasesOk, AdmissionsOk, Approvals.Inv, CallsOk, OwnersOk,
         Disjoint, Replay, AllListed, FailedEnd;
    Reachable(cfgs, states, actions, n);
    FinalFailureExact(cfgs, states, actions, n, i);
    assert StoredOk(states[n].runs[i], states[n].db);
  }

  // At step m the store failed the release of run i, which had ended otherwise than FAILED.
  predicate FailedRelease(states: seq<System>, actions: seq<Action>, i: nat, m: nat) {
    && m < |actions| && m < |states|
    && actions[m].Advance? && actions[m].run == i && i in states[m].runs
    && states[m].runs[i].pc == AT_CLEANUP && StoreFails(actions[m].move)
    && SM.Terminal(states[m].runs[i].life.state) && !states[m].runs[i].life.state.Failed?
  }

  // Nothing follows a terminal state in a valid history.
  lemma NothingExtra(life: Life)
    requires life.states != [] && SM.History(life.states)
    ensures !ExtraFailed(life)
  {
    SM.HistoryShape(life.states);
  }

  lemma ReleaseFails(cfg: Config, m: Move, r: Run, db: Db, r': Run, db': Db)
    requires ValidConfig(cfg) && Step(cfg, m, r, db, r', db') && LifeOk(r.pc, r.life) && LifeOk(r'.pc, r'.life)
    requires r'.pc > AT_CLEANUP
    ensures r.pc > AT_CLEANUP ==> (ExtraFailed(r'.life) <==> ExtraFailed(r.life))
    ensures r.pc <= AT_CLEANUP ==> r.pc == AT_CLEANUP
    ensures r.pc == AT_CLEANUP ==>
              (ExtraFailed(r'.life) <==> StoreFails(m) && SM.Terminal(r.life.state) && !r.life.state.Failed?)
  {
    hide Guard, NewChecks, NewHolds, NewTrail, NewWork, NewDb, Refuses, SM.History;
    if SM.History(r.life.states) {
      NothingExtra(r.life);
    }
    if SM.History(r'.life.states) {
      NothingExtra(r'.life);
    }
    if r.pc == AT_CLEANUP && StoreFails(m) && !r.life.state.Failed? {
      assert r'.life.states[..|r'.life.states| - 1] == r.life.states;
    }
  }

  // An extra FAILED follows the terminal state exactly if the store failed the release
  // of a run that had not failed before.
  lemma {:induction false} ExtraFailedExact(cfgs: Configs, states: seq<System>, actions: seq<Action>, n: nat, i: nat)
    requires ValidConfigs(cfgs) && Trace(cfgs, states, actions) && n < |states| && i in states[n].runs
    requires states[n].runs[i].pc > AT_CLEANUP
    ensures ExtraFailed(states[n].runs[i].life) <==> exists m: nat :: m < n && FailedRelease(states, actions, i, m)
  {
    hide Trace, Step, LifeOk, StoreFails, ExtraFailed;
    LastStep(cfgs, states, actions, n, i);
    var s := states[n - 1];
    assert i in s.runs;
    if actions[n - 1].Advance? && actions[n - 1].run == i {
      ReleaseFails(cfgs(i), actions[n - 1].move, s.runs[i], s.db, states[n].runs[i], states[n].db);
    }
    if s.runs[i].pc > AT_CLEANUP {
      ExtraFailedExact(cfgs, states, actions, n - 1, i);
      assert !FailedRelease(states, actions, i, n - 1);
    } else {
      forall m: nat | m < n - 1 ensures !FailedRelease(states, actions, i, m) {
        NotReleasedYet(cfgs, states, actions, i, m, n - 1);
      }
      assert ExtraFailed(states[n].runs[i].life) <==> FailedRelease(states, actions, i, n - 1);
    }
  }

  lemma NotReleasedYet(cfgs: Configs, states: seq<System>, actions: seq<Action>, i: nat, m: nat, n: nat)
    requires ValidConfigs(cfgs) && Trace(cfgs, states, actions) && m < n < |states|
    requires i in states[n].runs && states[n].runs[i].pc <= AT_CLEANUP
    ensures !FailedRelease(states, actions, i, m)
  {
    hide Trace, FailedRelease;
    if FailedRelease(states, actions, i, m) {
      ReleasedOnce(cfgs, states, actions, i, m, n);
      assert false;
    }
  }

  lemma ReleasedOnce(cfgs: Configs, states: seq<System>, actions: seq<Action>, i: nat, m: nat, n: nat)
    requires ValidConfigs(cfgs) && Trace(cfgs, states, actions) && m < n < |states| && FailedRelease(states, actions, i, m)
    ensures i in states[n].runs && states[n].runs[i].pc > AT_CLEANUP
  {
    hide Initial, Enabled, MayRaise, NewDb, Handled, FinallyFailed, Approvals.Next;
    assert Next(cfgs, states[m], actions[m], states[m + 1]);
    assert states[m + 1].runs[i].pc > AT_CLEANUP;
    Onward(cfgs, states, actions, i, m + 1, n);
  }

  // When the commit of the result succeeds but its call fails, a completed run returns
  // FAILED although the store says COMPLETED.
  lemma LosePersist(cfg: Config, r: Run, db: Db) returns (r': Run, db': Db)
    requires ValidConfig(cfg) && PointOk(cfg, r)
    requires r.pc == AT_FINISHED && r.holds.reserved && r.life.state.Completed? && !r.life.escaping
    requires r.request.id !in db.results
    ensures Step(cfg, Lose(Persist), r, db, r', db') && r'.request == r.request
    ensures r'.pc == RETURNED && r'.life.state.Failed? && r'.life.error == Some(AuditFailure) && !r'.life.escaping
    ensures r.request.id in db'.results
    ensures db'.results[r.request.id].state.Completed? && db'.results[r.request.id].error.None?
  {
    r', db' := Fail(r, StoreError), NewDb(cfg, Persist, r, db);
  }

  /* ---------- approvals ---------- */

  // With runs filing requests and any number of approvers deciding and revoking at once:
  // terms never change, no state returns, and no record is decided or revoked twice.
  lemma ApprovalsHold(cfgs: Configs, states: seq<System>, actions: seq<Action>, m: nat, n: nat, id: string, i: nat, j: nat)
    requires ValidConfigs(cfgs) && Trace(cfgs, states, actions) && m <= n < |states|
    ensures id in states[m].db.approvals.approvals ==>
              && id in states[n].db.approvals.approvals
              && Approvals.Descends(states[m].db.approvals.approvals[id], states[n].db.approvals.approvals[id])
              && Approvals.Proper(states[n].db.approvals.approvals[id], states[n].db.approvals.grants)
    ensures i in states[n].ops && j in states[n].ops && i != j ==> !Approvals.Rivals(states[n].ops[i], states[n].ops[j])
  {
    hide Trace, RunsOk, AuditOk, FindingsSound, LeaseIdsOk, LeasesOk, AdmissionsOk, AllStored, CallsOk,
         Approvals.Descends, Approvals.Proper, Approvals.Rivals, Approvals.OpOk;
    Reachable(cfgs, states, actions, n);
    EvolvesAlong(cfgs, states, actions, m, n);
  }
}
