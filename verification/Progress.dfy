// That an admissible request can complete, from any reachable state.
module Progress {
  import opened Models
  import opened Records
  import opened Runs
  import opened RunInvariant
  import opened System
  import Approvals
  import AuditChain
  import Findings
  import Guarantees
  import Limiter
  import Scope
  import Validation
  import SM = StateMachine

  /* ---------- paths ---------- */

  ghost predicate Path(cfgs: Configs, states: seq<System>, actions: seq<Action>)
    requires ValidConfigs(cfgs)
  {
    && |states| == |actions| + 1
    && forall n | 0 <= n < |actions| :: Next(cfgs, states[n], actions[n], states[n + 1])
  }

  // Some steps lead from s to s'.
  ghost predicate Leads(cfgs: Configs, s: System, s': System)
    requires ValidConfigs(cfgs)
  {
    exists states, actions :: Path(cfgs, states, actions) && states[0] == s && states[|actions|] == s'
  }

  ghost predicate Arises(cfgs: Configs, s: System)
    requires ValidConfigs(cfgs)
  {
    exists states, actions :: Trace(cfgs, states, actions) && states[|actions|] == s
  }

  lemma LeadsNowhere(cfgs: Configs, s: System)
    requires ValidConfigs(cfgs)
    ensures Leads(cfgs, s, s)
  {
    hide Next, ValidConfigs;
    assert Path(cfgs, [s], []);
  }

  lemma LeadsOn(cfgs: Configs, s: System, t: System, a: Action, u: System)
    requires ValidConfigs(cfgs) && Leads(cfgs, s, t) && Next(cfgs, t, a, u)
    ensures Leads(cfgs, s, u)
  {
    hide Next, ValidConfigs;
    var states, actions :| Path(cfgs, states, actions) && states[0] == s && states[|actions|] == t;
    assert Path(cfgs, states + [u], actions + [a]);
  }

  lemma ArisesOn(cfgs: Configs, s: System, a: Action, t: System)
    requires ValidConfigs(cfgs) && Arises(cfgs, s) && Next(cfgs, s, a, t)
    ensures Arises(cfgs, t)
  {
    hide Next, Initial, ValidConfigs;
    var states, actions :| Trace(cfgs, states, actions) && states[|actions|] == s;
    assert Trace(cfgs, states + [t], actions + [a]);
  }

  lemma {:induction false} ArisesAlong(cfgs: Configs, states: seq<System>, actions: seq<Action>, n: nat)
    requires ValidConfigs(cfgs) && Path(cfgs, states, actions) && n < |states| && Arises(cfgs, states[0])
    ensures Arises(cfgs, states[n])
  {
    hide Next, Arises, ValidConfigs;
    if n > 0 {
      ArisesAlong(cfgs, states, actions, n - 1);
      ArisesOn(cfgs, states[n - 1], actions[n - 1], states[n]);
    }
  }

  lemma ArisesFrom(cfgs: Configs, s: System, t: System)
    requires ValidConfigs(cfgs) && Arises(cfgs, s) && Leads(cfgs, s, t)
    ensures Arises(cfgs, t)
  {
    hide Next, Arises, ValidConfigs;
    var states, actions :| Path(cfgs, states, actions) && states[0] == s && states[|actions|] == t;
    ArisesAlong(cfgs, states, actions, |actions|);
  }

  lemma ArisenOk(cfgs: Configs, s: System)
    requires ValidConfigs(cfgs) && Arises(cfgs, s)
    ensures SysOk(cfgs, s)
  {
    hide Next, Initial, SysOk, ValidConfigs;
    var states, actions :| Trace(cfgs, states, actions) && states[|actions|] == s;
    Reachable(cfgs, states, actions, |actions|);
  }

  // One more move of one run.
  lemma Go(cfgs: Configs, s: System, t: System, i: nat, m: Move, r': Run, db': Db) returns (u: System)
    requires ValidConfigs(cfgs) && Leads(cfgs, s, t) && i in t.runs && i !in t.crashed
    requires Step(cfgs(i), m, t.runs[i], t.db, r', db') && Stamped(m, t.now) && NewLeaseIds(m) !! t.leaseIds
    ensures Leads(cfgs, s, u) && Next(cfgs, t, Advance(i, m), u)
    ensures u.db == db' && u.runs == t.runs[i := r'] && u.calls == t.calls + NewCalls(i, m, t.runs[i])
    ensures u.crashed == t.crashed && u.ops == t.ops && u.now == t.now
  {
    hide Next, Step, Leads, ValidConfigs, Stamped, NewLeaseIds;
    u := Guarantees.MakeMove(cfgs, t, i, m, r', db');
    LeadsOn(cfgs, s, t, Advance(i, m), u);
  }

  /* ---------- what it takes ---------- */

  // What the tool is going to report.
  datatype Outlook = Outlook(observations: seq<Observation>, complete: bool)

  // Everything the checks ask of a request at this moment, except for an approval.
  ghost predicate Admissible(cfg: Config, q: Request, grants: map<string, Grant>, now: real)
    requires ValidConfig(cfg)
  {
    && WellFormed(cfg, q) && q.requester == cfg.actor && KnownTool(cfg, q) && Targetable(cfg, q)
    && q.grantId != "" && q.grantId in grants
    && var target := cfg.normalise(q.target).value;
    && Scope.Evaluate(cfg.policy, target, q.action, now).decision == Scope.Allow
    && GrantCovers(grants[q.grantId], q, target, cfg.registry[q.tool].permissions, now)
    && Selectable(cfg, q, target)
  }

  function TierOf(cfg: Config, q: Request): Tier
    requires KnownTool(cfg, q) && Targetable(cfg, q)
  {
    Floored(cfg.assess(q, cfg.normalise(q.target).value), cfg.registry[q.tool].tier)
  }

  // And the approval, if the tier requires one.
  predicate Approved(cfg: Config, q: Request, t: Approvals.Table, now: real)
    requires KnownTool(cfg, q) && Targetable(cfg, q)
  {
    RequiresApproval(TierOf(cfg, q)) ==>
      && q.approvalToken != "" && q.approvalToken in t.approvals
      && ApprovalSatisfies(t.approvals[q.approvalToken], q, TierOf(cfg, q), cfg.fingerprint(q),
                           DigestOf(cfg, q.action, cfg.normalise(q.target).value), now)
  }

  // The tool is one of the two there are, and the validator accepts what it reports.
  predicate Reports(cfg: Config, q: Request, x: Outlook)
    requires q.tool in cfg.registry
  {
    !cfg.registry[q.tool].name.OtherTool? && Validation.OutputOk(cfg.registry[q.tool].name, x.observations, x.complete)
  }

  // What the run will ask of the limiter.
  function AskOf(cfg: Config, q: Request, leaseId: string): Limiter.Request
    requires KnownTool(cfg, q) && Targetable(cfg, q)
  {
    var tool := cfg.registry[q.tool];
    Limiter.Request(leaseId, q.requester, q.tool, cfg.normalise(q.target).value.canonical,
                    Limiter.Limits(tool.perMinute, cfg.ratePerMinute, cfg.maxConcurrent), tool.timeout)
  }

  // The limiter would not turn it away, whatever its lease id.
  ghost predicate HasRoom(cfg: Config, q: Request, tb: Limiter.Tables, now: real)
    requires KnownTool(cfg, q) && Targetable(cfg, q)
  {
    forall id :: Limiter.Acquire(tb, AskOf(cfg, q, id), now).0 != Limiter.RateLimited
  }

  predicate Asking(pc: Pc) {
    ASK_LOGGED <= pc <= ASK_DONE
  }

  // The finding of this id is that of this observation.
  predicate FindingOf(db: Db, q: Request, id: string, o: Observation) {
    id in db.findings && db.findings[id].requestId == q.id && db.findings[id].confirmed == o.verified
  }

  predicate FoundSoFar(db: Db, q: Request, ids: seq<string>, x: Outlook) {
    |ids| <= |x.observations| && forall k | 0 <= k < |ids| :: FindingOf(db, q, ids[k], x.observations[k])
  }

  // The observations are processed one by one, and the ids of the evidence in progress
  // are new.
  predicate Digesting(db: Db, q: Request, w: Work, x: Outlook) {
    && FoundSoFar(db, q, w.findingIds, x)
    && w.queue == x.observations[|w.findingIds|..]
    && w.complete == x.complete
    && (forall k | w.stored <= k < |w.built| :: w.built[k].0 !in db.evidence)
    && (forall j, k | 0 <= j < k < |w.built| :: w.built[j].0 != w.built[k].0)
    && |w.built| <= 2
    && (w.listed ==> w.queue == [])
  }

  function OutcomeFor(x: Outlook): Outcome {
    if !x.complete then Inconclusive else if x.observations != [] then SuccessWithFindings else SuccessNoFindings
  }

  // What it holds, and that its id is its own.
  ghost predicate HoldsCourse(r: Run, db: Db, now: real) {
    && (r.pc <= AT_VALIDATING ==> !Taken(db, r.request.id))
    && (r.pc < RETURNED ==> r.request.id !in db.results)
    && (r.pc > AT_VALIDATING ==> r.holds.reserved)
    && (r.pc > AT_PRECONDITIONS ==> r.holds.leaseId.Some?)
    && (AT_RULING <= r.pc && InBody(r.pc) ==> r.checks.ruledAt == now)
  }

  // The limiter has room for it until it is admitted.
  ghost predicate RoomAhead(cfg: Config, r: Run, db: Db, now: real)
    requires KnownTool(cfg, r.request) && Targetable(cfg, r.request)
  {
    && (r.pc <= AT_PRECONDITIONS ==> HasRoom(cfg, r.request, db.limiter, now))
    && (r.pc == AT_LEASE_CHOSEN ==>
          && r.holds.leaseId.Some?
          && Limiter.Acquire(db.limiter, AskOf(cfg, r.request, r.holds.leaseId.value), now).0 == Limiter.Admitted)
  }

  // What has been found.
  predicate WorksCourse(x: Outlook, r: Run, db: Db) {
    && (r.pc < AT_OUTPUT ==> r.work.findingIds == [] && r.work.built == [] && !r.work.listed)
    && (AT_OUTPUT <= r.pc && InBody(r.pc) ==> Digesting(db, r.request, r.work, x))
    && (!InBody(r.pc) ==>
          && FoundSoFar(db, r.request, r.work.findingIds, x) && |r.work.findingIds| == |x.observations|
          && r.life.state.Completed? && r.life.outcome == OutcomeFor(x) && !r.life.escaping)
  }

  // A run of an admissible request that has met no refusal and no failure.
  ghost predicate OnCourse(cfg: Config, x: Outlook, r: Run, db: Db, now: real)
    requires ValidConfig(cfg)
  {
    && !Asking(r.pc)
    && Admissible(cfg, r.request, db.approvals.grants, now) && Reports(cfg, r.request, x)
    && HoldsCourse(r, db, now) && RoomAhead(cfg, r, db, now) && WorksCourse(x, r, db)
  }

  // The action that takes it on, with two new ids to use.
  function Onwards(r: Run, x: Outlook, now: real, id: string, other: string): Act {
    if r.pc == AT_START then Start
    else if r.pc == AT_VALIDATING then Reserve
    else if r.pc == AT_RESERVED then Check
    else if LogAt(r.pc, Scope.Unknown).Some? then Log("", [])
    else if EnterAt(r.pc).Some? then Enter
    else if r.pc == AT_SCOPE then Rule(now)
    else if r.pc == AT_RULED then Snapshot(now)
    else if r.pc == AT_AUTHORIZATION then CheckGrant(now)
    else if r.pc == AT_RISK then Assess
    else if r.pc == AT_WAITING then Ensure(now)
    else if r.pc == AT_APPROVED then Prepare
    else if r.pc == AT_PRECONDITIONS then ChooseLease(id)
    else if r.pc == AT_LEASE_CHOSEN then Acquire(now)
    else if r.pc == AT_LAUNCH then Invoke
    else if r.pc == IN_TOOL then Return
    else if r.pc == AT_VALIDATING_RESULT then Accept(x.observations, x.complete)
    else if r.pc == AT_EVIDENCE then Digest(r.work, id, other)
    else if r.pc == AT_CLEANUP then Release
    else Persist
  }

  // The evidence loop, and what follows it.
  function Digest(w: Work, id: string, other: string): Act {
    if w.queue == [] then (if w.listed then Complete else Publish)
    else if w.built == [] then Build(id, other)
    else if w.stored < |w.built| then StoreEvidence
    else StoreFinding(id)
  }

  function Following(r: Run): Pc {
    if r.pc == AT_WAITING then AT_CLEARED
    else if r.pc == AT_EVIDENCE && !(r.work.queue == [] && r.work.listed) then AT_EVIDENCE
    else r.pc + 1
  }

  lemma OnwardsTaken(r: Run, x: Outlook, now: real, id: string, other: string)
    requires r.pc < RETURNED && !Asking(r.pc)
    ensures TakenAt(Onwards(r, x, now, id, other), r.pc)
    ensures NextPc(Onwards(r, x, now, id, other), r.pc) == Following(r) && !Asking(Following(r))
  {
  }

  // Ids nothing in the store or in use has.
  ghost predicate Unused(s: System, id: string) {
    && id !in s.leaseIds && id !in s.db.evidence && id !in s.db.findings
    && forall l | l in s.db.limiter.leases :: l.id != id
  }

  // With a new lease id, an acquire the limiter does not turn away is admitted.
  lemma RoomAdmits(cfg: Config, q: Request, tb: Limiter.Tables, now: real, id: string)
    requires KnownTool(cfg, q) && Targetable(cfg, q) && HasRoom(cfg, q, tb, now)
    requires forall l | l in tb.leases :: l.id != id
    ensures Limiter.Acquire(tb, AskOf(cfg, q, id), now).0 == Limiter.Admitted
  {
    hide Limiter.Acquire;
    assert Limiter.Acquire(tb, AskOf(cfg, q, id), now).0 != Limiter.RateLimited;
    if Limiter.Acquire(tb, AskOf(cfg, q, id), now).0 == Limiter.IdTaken {
      Limiter.TakenLease(tb, AskOf(cfg, q, id), now);
      assert false;
    }
  }

  lemma SameAsk(cfg: Config, r: Run)
    requires KnownTool(cfg, r.request) && Targetable(cfg, r.request) && r.holds.leaseId.Some?
    requires r.checks.target == cfg.normalise(r.request.target)
    ensures LeaseRequest(cfg, r) == AskOf(cfg, r.request, r.holds.leaseId.value)
  {
  }

  // What the loop asks for is there.
  lemma DigestEnabled(cfg: Config, x: Outlook, r: Run, db: Db, id: string, other: string)
    requires ValidConfig(cfg) && Equipped(cfg, r) && WorkOk(cfg, r) && EvidenceFact(r.work, db.evidence)
    requires r.pc == AT_EVIDENCE && Digesting(db, r.request, r.work, x) && id !in db.findings
    ensures Enabled(cfg, Digest(r.work, id, other), r, db)
  {
    hide Findings.Evaluate, Findings.Sound, WorkOk, EvidenceFact;
    if r.work.queue != [] && r.work.built != [] && r.work.stored == |r.work.built| {
      FindingIsSound(cfg, r, db);
    }
  }

  lemma Unblocked(cfg: Config, x: Outlook, r: Run, db: Db, now: real, id: string, other: string)
    requires ValidConfig(cfg) && RunOk(cfg, r, db) && OnCourse(cfg, x, r, db, now) && r.pc < RETURNED
    requires r.pc == AT_WAITING ==> Approved(cfg, r.request, db.approvals, now)
    requires id !in db.findings
    ensures Equipped(cfg, r) && Enabled(cfg, Onwards(r, x, now, id, other), r, db)
  {
    hide LifeOk, EndOk, StepsOk, WorkOk, TrailOk, GrantFact, ApprovalFact, EvidenceFact, GrantCovers, ApprovalSatisfies,
         Scope.Evaluate, Selectable, WellFormed, Limiter.Acquire, HasRoom, Validation.OutputOk, Digesting, FoundSoFar,
         DigestOf, Findings.Evaluate;
    OnwardsTaken(r, x, now, id, other);
    if r.pc == AT_LEASE_CHOSEN {
      SameAsk(cfg, r);
    } else if r.pc == AT_EVIDENCE {
      DigestEnabled(cfg, x, r, db, id, other);
    }
  }

  // The finding the reasoning step makes is that of the first observation.
  lemma NextFindingOf(cfg: Config, r: Run)
    requires Equipped(cfg, r) && WorkOk(cfg, r) && r.work.built != []
    ensures NextFinding(cfg, r).Some?
    ensures NextFinding(cfg, r).value.requestId == r.request.id
    ensures NextFinding(cfg, r).value.confirmed == r.work.queue[0].verified
  {
    hide Findings.EvidenceFor, Findings.Evaluate;
    var o, origin := r.work.queue[0], OriginOf(cfg, r);
    var s, t :| r.work.built == Findings.EvidenceFor(cfg, origin, o, s, t);
    Findings.BuiltSupports(cfg, origin, o, s, t);
  }

  lemma DigestKept(cfg: Config, x: Outlook, r: Run, db: Db, id: string, other: string)
    requires ValidConfig(cfg) && Equipped(cfg, r) && WorkOk(cfg, r)
    requires r.pc == AT_EVIDENCE && Digesting(db, r.request, r.work, x)
    requires Enabled(cfg, Digest(r.work, id, other), r, db)
    requires id !in db.evidence && other !in db.evidence && id != other
    ensures var act := Digest(r.work, id, other);
            Digesting(NewDb(cfg, act, r, db), r.request, NewWork(cfg, act, r, db), x)
  {
    hide Findings.Evaluate, WorkOk;
    if Digest(r.work, id, other).StoreFinding? {
      NextFindingOf(cfg, r);
      hide Findings.EvidenceFor;
      var w := r.work;
      assert x.observations[|w.findingIds|..][0] == x.observations[|w.findingIds|];
      assert x.observations[|w.findingIds|..][1..] == x.observations[|w.findingIds| + 1..];
    }
  }

  lemma HoldsKept(cfg: Config, x: Outlook, r: Run, db: Db, now: real, id: string, other: string)
    requires ValidConfig(cfg) && Equipped(cfg, r) && !Asking(r.pc) && r.pc < RETURNED
    requires Enabled(cfg, Onwards(r, x, now, id, other), r, db) && HoldsCourse(r, db, now)
    ensures var act := Onwards(r, x, now, id, other);
            HoldsCourse(NewRun(cfg, act, r, db), NewDb(cfg, act, r, db), now)
  {
    hide Guard, Limiter.Acquire, Limiter.Release, NewWork, NewLife, Findings.Evaluate, Scope.Evaluate;
    OnwardsTaken(r, x, now, id, other);
  }

  lemma RoomKept(cfg: Config, x: Outlook, r: Run, db: Db, now: real, id: string, other: string)
    requires ValidConfig(cfg) && Equipped(cfg, r) && !Asking(r.pc) && r.pc < RETURNED
    requires Enabled(cfg, Onwards(r, x, now, id, other), r, db)
    requires KnownTool(cfg, r.request) && Targetable(cfg, r.request) && RoomAhead(cfg, r, db, now)
    requires forall l | l in db.limiter.leases :: l.id != id
    ensures var act := Onwards(r, x, now, id, other);
            RoomAhead(cfg, NewRun(cfg, act, r, db), NewDb(cfg, act, r, db), now)
  {
    hide Guard, Limiter.Acquire, Limiter.Release, NewWork, NewLife, NewChecks, NewTrail, HasRoom, KnownTool, Targetable,
         AskOf, Findings.Evaluate;
    OnwardsTaken(r, x, now, id, other);
    if r.pc == AT_PRECONDITIONS {
      RoomAdmits(cfg, r.request, db.limiter, now, id);
    }
  }

  lemma WorkStays(cfg: Config, x: Outlook, r: Run, db: Db, now: real, id: string, other: string)
    requires ValidConfig(cfg) && Equipped(cfg, r) && WorkOk(cfg, r) && LifeOk(r.pc, r.life)
    requires !Asking(r.pc) && r.pc < RETURNED
    requires Enabled(cfg, Onwards(r, x, now, id, other), r, db) && WorksCourse(x, r, db)
    requires id !in db.evidence && other !in db.evidence && id != other
    ensures var act := Onwards(r, x, now, id, other);
            WorksCourse(x, NewRun(cfg, act, r, db), NewDb(cfg, act, r, db))
  {
    hide Limiter.Acquire, Limiter.Release, NewChecks, NewTrail, NewHolds, WorkOk, Findings.EvidenceFor, Findings.Evaluate,
         SM.History, CleanEvent, Validation.OutputOk;
    OnwardsTaken(r, x, now, id, other);
    if r.pc == AT_EVIDENCE {
      DigestKept(cfg, x, r, db, id, other);
    }
  }

  lemma StaysOnCourse(cfg: Config, x: Outlook, r: Run, db: Db, now: real, id: string, other: string)
    requires ValidConfig(cfg) && Equipped(cfg, r) && Enabled(cfg, Onwards(r, x, now, id, other), r, db)
    requires OnCourse(cfg, x, r, db, now) && r.pc < RETURNED && LifeOk(r.pc, r.life) && WorkOk(cfg, r)
    requires id !in db.evidence && other !in db.evidence && id != other
    requires forall l | l in db.limiter.leases :: l.id != id
    ensures var act := Onwards(r, x, now, id, other);
            OnCourse(cfg, x, NewRun(cfg, act, r, db), NewDb(cfg, act, r, db), now)
  {
    hide Admissible, Enabled, NewDb, NewLife, NewChecks, NewHolds, NewTrail, NewWork, WorkOk, LifeOk, Reports, Onwards,
         HoldsCourse, RoomAhead, WorksCourse, Asking, Following, Equipped, KnownTool, Targetable;
    OnwardsTaken(r, x, now, id, other);
    AdmissibleHas(cfg, r.request, db.approvals.grants, now);
    StepDisturbs(cfg, r, x, db, now, id, other);
    HoldsKept(cfg, x, r, db, now, id, other);
    RoomKept(cfg, x, r, db, now, id, other);
    WorkStays(cfg, x, r, db, now, id, other);
  }

  lemma AdmissibleHas(cfg: Config, q: Request, grants: map<string, Grant>, now: real)
    requires ValidConfig(cfg) && Admissible(cfg, q, grants, now)
    ensures KnownTool(cfg, q) && Targetable(cfg, q)
  {
  }

  /* ---------- steps along the way ---------- */

  // What one run's steps on the way to t leave alone.
  ghost predicate Undisturbed(s: System, t: System, i: nat)
    requires i in s.runs && i in t.runs
  {
    && t.runs == s.runs[i := t.runs[i]] && t.runs[i].request == s.runs[i].request
    && t.crashed == s.crashed && t.ops == s.ops && t.now == s.now
    && t.db.approvals == s.db.approvals
    && (forall id | Taken(t.db, id) && id != s.runs[i].request.id :: Taken(s.db, id))
    && (t.runs[i].pc <= AT_LEASE_CHOSEN ==> t.db.limiter == s.db.limiter)
  }

  lemma StepDisturbs(cfg: Config, r: Run, x: Outlook, db: Db, now: real, id: string, other: string)
    requires ValidConfig(cfg) && Equipped(cfg, r) && !Asking(r.pc) && r.pc < RETURNED
    requires Enabled(cfg, Onwards(r, x, now, id, other), r, db)
    ensures var db' := NewDb(cfg, Onwards(r, x, now, id, other), r, db);
            && db'.approvals == db.approvals
            && (forall k | Taken(db', k) && k != r.request.id :: Taken(db, k))
            && (Following(r) <= AT_LEASE_CHOSEN ==> db'.limiter == db.limiter)
  {
    hide Guard, Limiter.Acquire, Limiter.Release, Findings.Evaluate;
    OnwardsTaken(r, x, now, id, other);
  }

  lemma NewIds(s: System) returns (id: string, other: string)
    ensures Unused(s, id) && Unused(s, other) && id != other
  {
    var leased := set l | l in s.db.limiter.leases :: l.id;
    var used := s.leaseIds + s.db.evidence.Keys + s.db.findings.Keys + leased;
    id := FreshId(used);
    other := FreshId(used + {id});
    forall l | l in s.db.limiter.leases ensures l.id in leased {
    }
  }

  // One step along the way.
  lemma StepOn(cfgs: Configs, x: Outlook, s: System, t: System, i: nat) returns (u: System)
    requires ValidConfigs(cfgs) && Leads(cfgs, s, t) && SysOk(cfgs, t)
    requires i in t.runs && i !in t.crashed && OnCourse(cfgs(i), x, t.runs[i], t.db, t.now) && t.runs[i].pc < RETURNED
    requires t.runs[i].pc == AT_WAITING ==>
               && KnownTool(cfgs(i), t.runs[i].request) && Targetable(cfgs(i), t.runs[i].request)
               && Approved(cfgs(i), t.runs[i].request, t.db.approvals, t.now)
    ensures Leads(cfgs, s, u) && SysOk(cfgs, u)
    ensures i in u.runs && Undisturbed(t, u, i) && OnCourse(cfgs(i), x, u.runs[i], u.db, u.now)
    ensures u.runs[i].pc == Following(t.runs[i])
    ensures u.runs[i].pc == t.runs[i].pc ==> Left(u.runs[i].work) < Left(t.runs[i].work)
    ensures u.calls == t.calls + if t.runs[i].pc == AT_LAUNCH then [ToolCall(i, t.runs[i])] else []
  {
    hide SysOk, OnCourse, Leads, Next, Enabled, NewDb, NewLife, NewChecks, NewHolds, NewTrail, NewWork, Asking, Following,
         WorkOk, Facts, LifeOk, EndOk, StepsOk, DecisionsOk, HoldsOk, Approved, Taken;
    var cfg, r := cfgs(i), t.runs[i];
    RunIn(cfgs, t, i);
    NotAsking(cfg, x, r, t.db, t.now);
    var id, other := NewIds(t);
    var act := Onwards(r, x, t.now, id, other);
    Unblocked(cfg, x, r, t.db, t.now, id, other);
    OnwardsTaken(r, x, t.now, id, other);
    StaysOnCourse(cfg, x, r, t.db, t.now, id, other);
    StepDisturbs(cfg, r, x, t.db, t.now, id, other);
    LeftFalls(cfg, x, r, t.db, t.now, id, other);
    NewLease(r, x, t.now, id, other);
    u := Go(cfgs, s, t, i, Do(act), NewRun(cfg, act, r, t.db), NewDb(cfg, act, r, t.db));
    NextKeeps(cfgs, t, Advance(i, Do(act)), u);
  }

  lemma NewLease(r: Run, x: Outlook, now: real, id: string, other: string)
    requires r.pc < RETURNED
    ensures NewLeaseIds(Do(Onwards(r, x, now, id, other))) <= {id}
    ensures Stamped(Do(Onwards(r, x, now, id, other)), now)
    ensures (Onwards(r, x, now, id, other) == Invoke) == (r.pc == AT_LAUNCH)
  {
  }

  // How far the loop still has to go: at most four steps for each observation, and one
  // more at its end.
  function Left(w: Work): nat {
    4 * |w.queue|
    + if w.listed then 0 else if w.built == [] then 3 else if w.stored <= |w.built| then |w.built| - w.stored else 0
  }

  lemma LeftFalls(cfg: Config, x: Outlook, r: Run, db: Db, now: real, id: string, other: string)
    requires ValidConfig(cfg) && Equipped(cfg, r) && !Asking(r.pc) && r.pc < RETURNED && OnCourse(cfg, x, r, db, now)
    requires Enabled(cfg, Onwards(r, x, now, id, other), r, db)
    ensures Following(r) == r.pc ==> Left(NewWork(cfg, Onwards(r, x, now, id, other), r, db)) < Left(r.work)
  {
    hide Admissible, Findings.Evaluate, HasRoom, FoundSoFar, Limiter.Acquire, CleanEvent;
    OnwardsTaken(r, x, now, id, other);
  }

  lemma NotAsking(cfg: Config, x: Outlook, r: Run, db: Db, now: real)
    requires ValidConfig(cfg) && OnCourse(cfg, x, r, db, now)
    ensures !Asking(r.pc)
  {
    hide Admissible, HasRoom, Reports;
  }

  lemma RunIn(cfgs: Configs, s: System, i: nat)
    requires ValidConfigs(cfgs) && SysOk(cfgs, s) && i in s.runs
    ensures RunOk(cfgs(i), s.runs[i], s.db)
    ensures LifeOk(s.runs[i].pc, s.runs[i].life) && Equipped(cfgs(i), s.runs[i]) && WorkOk(cfgs(i), s.runs[i])
  {
    hide AuditOk, FindingsSound, Approvals.Inv, CallsOk, Facts, EndOk, StepsOk, DecisionsOk, HoldsOk, WorkOk;
    assert RunOk(cfgs(i), s.runs[i], s.db);
  }

  // Some text is not among finitely many.
  lemma FreshId(ids: set<string>) returns (id: string)
    ensures id !in ids
  {
    var n := Longest(ids);
    id := seq(n + 1, _ => 'x');
  }

  lemma {:induction false} Longest(ids: set<string>) returns (n: nat)
    ensures forall id | id in ids :: |id| <= n
    decreases |ids|
  {
    n := 0;
    if ids != {} {
      var id :| id in ids;
      var m := Longest(ids - {id});
      n := if m < |id| then |id| else m;
      forall other | other in ids ensures |other| <= n {
        assert other == id || other in ids - {id};
      }
    }
  }

  /* ---------- it completes ---------- */

  // The approval is there when the run comes to need it.
  ghost predicate Cleared(cfg: Config, q: Request, t: Approvals.Table, now: real, from: Pc, to: Pc)
    requires ValidConfig(cfg)
  {
    from <= AT_WAITING < to ==> KnownTool(cfg, q) && Targetable(cfg, q) && Approved(cfg, q, t, now)
  }

  lemma UndisturbedOn(s: System, t: System, u: System, i: nat)
    requires i in s.runs && i in t.runs && i in u.runs && Undisturbed(s, t, i) && Undisturbed(t, u, i)
    requires t.runs[i].pc <= u.runs[i].pc
    ensures Undisturbed(s, u, i)
  {
    hide Taken;
  }

  // A run on course can get to every later point of the normal way.
  lemma {:induction false} GetsTo(cfgs: Configs, x: Outlook, s: System, t: System, i: nat, p: Pc) returns (u: System)
    requires ValidConfigs(cfgs) && Leads(cfgs, s, t) && SysOk(cfgs, t)
    requires i in t.runs && i !in t.crashed && OnCourse(cfgs(i), x, t.runs[i], t.db, t.now)
    requires Cleared(cfgs(i), t.runs[i].request, t.db.approvals, t.now, t.runs[i].pc, p)
    requires t.runs[i].pc <= p <= RETURNED && !Asking(p)
    ensures Leads(cfgs, s, u) && SysOk(cfgs, u)
    ensures i in u.runs && Undisturbed(t, u, i) && OnCourse(cfgs(i), x, u.runs[i], u.db, u.now)
    ensures u.runs[i].pc == p
    ensures t.runs[i].pc <= AT_LAUNCH < p ==> |u.calls| == |t.calls| + 1 && Last(u.calls).run == i
    ensures !(t.runs[i].pc <= AT_LAUNCH < p) ==> u.calls == t.calls
    decreases p - t.runs[i].pc, Left(t.runs[i].work)
  {
    hide SysOk, OnCourse, Leads, Undisturbed, Approved;
    if t.runs[i].pc == p {
      u := t;
      Still(t, i);
    } else {
      NotAsking(cfgs(i), x, t.runs[i], t.db, t.now);
      var next := StepOn(cfgs, x, s, t, i);
      Same(t, next, i);
      u := GetsTo(cfgs, x, s, next, i, p);
      UndisturbedOn(t, next, u, i);
    }
  }

  lemma Still(t: System, i: nat)
    requires i in t.runs
    ensures Undisturbed(t, t, i)
  {
    hide Taken;
    assert t.runs == t.runs[i := t.runs[i]];
  }

  lemma Same(s: System, t: System, i: nat)
    requires i in s.runs && i in t.runs && Undisturbed(s, t, i)
    ensures t.crashed == s.crashed && t.now == s.now && t.db.approvals == s.db.approvals
    ensures t.runs[i].request == s.runs[i].request
  {
    hide Taken;
  }

  // A run that has just begun, with an admissible request under a new id, a tool that will
  // report something acceptable, and a limiter that has room.
  ghost predicate Ready(cfgs: Configs, x: Outlook, s: System, i: nat)
    requires ValidConfigs(cfgs)
  {
    && i in s.runs && i !in s.crashed && s.runs[i] == Fresh(s.runs[i].request)
    && Admissible(cfgs(i), s.runs[i].request, s.db.approvals.grants, s.now)
    && Reports(cfgs(i), s.runs[i].request, x)
    && !Taken(s.db, s.runs[i].request.id) && HasRoom(cfgs(i), s.runs[i].request, s.db.limiter, s.now)
  }

  // And with the approval it needs.
  ghost predicate Startable(cfgs: Configs, x: Outlook, s: System, i: nat)
    requires ValidConfigs(cfgs)
  {
    Ready(cfgs, x, s, i) && Approved(cfgs(i), s.runs[i].request, s.db.approvals, s.now)
  }

  lemma ReadyOnCourse(cfgs: Configs, x: Outlook, s: System, i: nat)
    requires ValidConfigs(cfgs) && Ready(cfgs, x, s, i)
    ensures OnCourse(cfgs(i), x, s.runs[i], s.db, s.now)
  {
    hide Admissible, HasRoom, Reports;
  }

  lemma StartGetsTo(cfgs: Configs, x: Outlook, s: System, i: nat, p: Pc) returns (t: System)
    requires ValidConfigs(cfgs) && SysOk(cfgs, s) && Startable(cfgs, x, s, i)
    requires p <= RETURNED && !Asking(p)
    ensures Leads(cfgs, s, t) && SysOk(cfgs, t)
    ensures i in t.runs && i !in t.crashed && OnCourse(cfgs(i), x, t.runs[i], t.db, t.now)
    ensures t.runs[i].pc == p && t.runs[i].request == s.runs[i].request
    ensures p > AT_LAUNCH ==> |t.calls| == |s.calls| + 1 && Last(t.calls).run == i
  {
    hide SysOk, Leads, Admissible, HasRoom, Approved, OnCourse, Reports, Undisturbed;
    ReadyOnCourse(cfgs, x, s, i);
    AdmissibleHas(cfgs(i), s.runs[i].request, s.db.approvals.grants, s.now);
    LeadsNowhere(cfgs, s);
    t := GetsTo(cfgs, x, s, s, i, p);
    Same(s, t, i);
  }

  // From any reachable state, whatever else has happened: an admissible request can be
  // taken all the way, whatever its tool reports, as long as the validator accepts that.
  // Its tool is called once, it completes with the outcome that is due, each observation
  // has become a stored finding, confirmed exactly if the observation was verified, and
  // the result is stored.
  lemma CanComplete(cfgs: Configs, x: Outlook, states: seq<System>, actions: seq<Action>, n: nat, i: nat)
    returns (t: System)
    requires ValidConfigs(cfgs) && Trace(cfgs, states, actions) && n < |states| && Startable(cfgs, x, states[n], i)
    ensures Leads(cfgs, states[n], t)
    ensures |t.calls| == |states[n].calls| + 1 && Last(t.calls).run == i
    ensures i in t.runs && t.runs[i].pc == RETURNED && t.runs[i].request == states[n].runs[i].request
    ensures t.runs[i].life.state.Completed? && t.runs[i].life.outcome == OutcomeFor(x)
    ensures t.runs[i].life.error.None? && !t.runs[i].life.escaping
    ensures |t.runs[i].work.findingIds| == |x.observations|
    ensures forall k | 0 <= k < |x.observations| ::
              FindingOf(t.db, t.runs[i].request, t.runs[i].work.findingIds[k], x.observations[k])
    ensures t.runs[i].request.id in t.db.results && t.db.results[t.runs[i].request.id] == ResultOf(t.runs[i])
  {
    hide Trace, SysOk, Startable, Leads, Admissible, HasRoom, Reports, FindingOf;
    Reachable(cfgs, states, actions, n);
    t := StartGetsTo(cfgs, x, states[n], i, RETURNED);
    RunIn(cfgs, t, i);
    Guarantees.SysHolds(cfgs, t, i);
  }

  // The exception to what is returned being stored is real: such a run can end FAILED
  // while its stored result says COMPLETED, when the persist commits but its call fails.
  lemma LostPersist(cfgs: Configs, x: Outlook, states: seq<System>, actions: seq<Action>, n: nat, i: nat) returns (t: System)
    requires ValidConfigs(cfgs) && Trace(cfgs, states, actions) && n < |states| && Startable(cfgs, x, states[n], i)
    ensures Leads(cfgs, states[n], t)
    ensures i in t.runs && t.runs[i].pc == RETURNED && t.runs[i].request == states[n].runs[i].request
    ensures t.runs[i].life.state.Failed? && t.runs[i].life.error == Some(AuditFailure) && !t.runs[i].life.escaping
    ensures t.runs[i].request.id in t.db.results
    ensures t.db.results[t.runs[i].request.id].state.Completed? && t.db.results[t.runs[i].request.id].error.None?
  {
    hide Trace, SysOk, Startable, Leads, Admissible, HasRoom, Reports, FoundSoFar, PointOk, Next;
    Reachable(cfgs, states, actions, n);
    var s := StartGetsTo(cfgs, x, states[n], i, AT_FINISHED);
    RunIn(cfgs, s, i);
    var r', db' := Guarantees.LosePersist(cfgs(i), s.runs[i], s.db);
    t := Go(cfgs, states[n], s, i, Lose(Persist), r', db');
  }

  // The exception to terminal states being absorbing is real as well: when the release
  // of a completed run fails, FAILED follows COMPLETED.
  lemma LostRelease(cfgs: Configs, x: Outlook, states: seq<System>, actions: seq<Action>, n: nat, i: nat) returns (t: System)
    requires ValidConfigs(cfgs) && Trace(cfgs, states, actions) && n < |states| && Startable(cfgs, x, states[n], i)
    ensures Leads(cfgs, states[n], t)
    ensures i in t.runs && t.runs[i].pc == AT_RELEASED && t.runs[i].request == states[n].runs[i].request
    ensures ExtraFailed(t.runs[i].life) && t.runs[i].life.states[|t.runs[i].life.states| - 2].Completed?
  {
    hide Trace, SysOk, Startable, Leads, Admissible, HasRoom, Reports, FoundSoFar, PointOk, Next;
    Reachable(cfgs, states, actions, n);
    var s := StartGetsTo(cfgs, x, states[n], i, AT_CLEANUP);
    RunIn(cfgs, s, i);
    var r', db' := LoseRelease(cfgs(i), s.runs[i], s.db);
    t := Go(cfgs, states[n], s, i, Lose(Release), r', db');
  }

  lemma LoseRelease(cfg: Config, r: Run, db: Db) returns (r': Run, db': Db)
    requires ValidConfig(cfg) && RunOk(cfg, r, db) && r.pc == AT_CLEANUP
    requires r.holds.leaseId.Some? && r.life.state.Completed? && !r.life.escaping
    ensures Step(cfg, Lose(Release), r, db, r', db')
    ensures r'.pc == AT_RELEASED && r'.request == r.request
    ensures ExtraFailed(r'.life) && r'.life.states[|r'.life.states| - 2].Completed?
  {
    hide Facts, EndOk, StepsOk, DecisionsOk, HoldsOk, WorkOk, SM.History;
    r', db' := Fail(r, StoreError), NewDb(cfg, Release, r, db);
    assert r'.life.states[..|r'.life.states| - 1] == r.life.states;
  }

  /* ---------- a request is filed for approval ---------- */

  // The record filed for this request.
  function Filing(cfg: Config, q: Request, at: real): Approval
    requires KnownTool(cfg, q) && Targetable(cfg, q)
  {
    var target := cfg.normalise(q.target).value;
    Approval(cfg.fingerprint(q), q.action, target.canonical, TierOf(cfg, q), q.requester, DigestOf(cfg, q.action, target),
             Pending, at + 1800.0, None, None, "")
  }

  lemma Announces(cfg: Config, r: Run, db: Db) returns (r': Run, db': Db)
    requires ValidConfig(cfg) && RunOk(cfg, r, db) && r.pc == AT_WAITING && r.request.approvalToken == ""
    requires KnownTool(cfg, r.request) && Targetable(cfg, r.request) && RequiresApproval(TierOf(cfg, r.request))
    ensures Step(cfg, Do(AskLog("", [])), r, db, r', db') && Equipped(cfg, r')
    ensures r'.pc == ASK_LOGGED && r'.request == r.request
    ensures r'.checks.target == cfg.normalise(r.request.target) && r'.checks.tier == Some(TierOf(cfg, r.request))
    ensures db' == db.(audit := db'.audit)
  {
    hide Facts, LifeOk, EndOk, StepsOk, WorkOk, HoldsOk, WellFormed, KnownTool, Scope.Evaluate, AuditChain.Append;
    r', db' := NewRun(cfg, AskLog("", []), r, db), NewDb(cfg, AskLog("", []), r, db);
  }

  lemma Files(cfg: Config, r: Run, db: Db, id: string, at: real) returns (r': Run, db': Db)
    requires ValidConfig(cfg) && Equipped(cfg, r) && r.pc == ASK_LOGGED && id !in db.approvals.approvals
    requires KnownTool(cfg, r.request) && Targetable(cfg, r.request)
    requires r.checks.target == cfg.normalise(r.request.target) && r.checks.tier == Some(TierOf(cfg, r.request))
    ensures Step(cfg, Do(AskStore(id, at)), r, db, r', db')
    ensures db' == db.(approvals := db.approvals.(approvals := db.approvals.approvals[id := Filing(cfg, r.request, at)]))
  {
    hide KnownTool, Targetable, TierOf, DigestOf;
    r', db' := NewRun(cfg, AskStore(id, at), r, db), NewDb(cfg, AskStore(id, at), r, db);
  }

  // A request without a token, of a tier that needs an approval, can get as far as filing
  // one under any new id.
  lemma CanFile(cfgs: Configs, x: Outlook, s: System, i: nat, id: string) returns (t: System)
    requires ValidConfigs(cfgs) && SysOk(cfgs, s) && Ready(cfgs, x, s, i)
    requires s.runs[i].request.approvalToken == "" && RequiresApproval(TierOf(cfgs(i), s.runs[i].request))
    requires id !in s.db.approvals.approvals
    ensures Leads(cfgs, s, t)
    ensures t.db.approvals == s.db.approvals.(approvals :=
                                s.db.approvals.approvals[id := Filing(cfgs(i), s.runs[i].request, s.now)])
    ensures t.runs.Keys == s.runs.Keys && t.crashed == s.crashed && t.ops == s.ops && t.now == s.now && t.calls == s.calls
    ensures forall k | Taken(t.db, k) && k != s.runs[i].request.id :: Taken(s.db, k)
    ensures t.db.limiter == s.db.limiter
  {
    hide SysOk, Leads, Admissible, HasRoom, OnCourse, Reports, RunOk, Step, Filing, TierOf, Next, KnownTool, Targetable, Taken;
    ReadyOnCourse(cfgs, x, s, i);
    AdmissibleHas(cfgs(i), s.runs[i].request, s.db.approvals.grants, s.now);
    LeadsNowhere(cfgs, s);
    var u := GetsTo(cfgs, x, s, s, i, AT_WAITING);
    RunIn(cfgs, u, i);
    var r1, db1 := Announces(cfgs(i), u.runs[i], u.db);
    var v := Go(cfgs, s, u, i, Do(AskLog("", [])), r1, db1);
    var r2, db2 := Files(cfgs(i), r1, db1, id, s.now);
    t := Go(cfgs, s, v, i, Do(AskStore(id, s.now)), r2, db2);
    SameTaken(u.db, db1);
    SameTaken(db1, db2);
  }

  lemma SameTaken(db: Db, db': Db)
    requires db'.reservations == db.reservations && db'.results == db.results
    ensures forall id :: Taken(db', id) <==> Taken(db, id)
  {
  }

  /* ---------- a malformed id goes on record ---------- */

  // One move of a run that touches neither calls nor leases.
  predicate Quiet(m: Move) {
    match m
    case Do(act) => act.Start? || act.Release? || act.Log? || act.Persist?
    case Lose(_) => false
    case Fault(_, _) => true
  }

  lemma GoQuietly(cfgs: Configs, s: System, t: System, i: nat, m: Move, r': Run, db': Db) returns (u: System)
    requires ValidConfigs(cfgs) && Leads(cfgs, s, t) && i in t.runs && i !in t.crashed
    requires Step(cfgs(i), m, t.runs[i], t.db, r', db') && Quiet(m) && Stamped(m, t.now)
    ensures Leads(cfgs, s, u)
    ensures i in u.runs && i !in u.crashed && u.runs[i] == r' && u.db == db' && u.now == t.now
  {
    hide Step, Leads, ValidConfigs;
    assert NewLeaseIds(m) == {};
    u := Go(cfgs, s, t, i, m, r', db');
  }

  // A run with neither a reservation nor a lease, in its finally block.
  ghost predicate Unburdened(r: Run, pc: Pc) {
    r.pc == pc && r.holds.leaseId.None? && !r.holds.reserved && r.work.built == [] && r.work.stored == 0
  }

  // A malformed request is refused at once.
  lemma Refusal(cfg: Config, r: Run, db: Db, now: real) returns (r': Run)
    requires ValidConfig(cfg) && RunOk(cfg, r, db) && r.pc == AT_VALIDATING && !WellFormed(cfg, r.request)
    requires !r.holds.reserved
    ensures Step(cfg, Fault(InvalidInput, now), r, db, r', db)
    ensures Unburdened(r', AT_CLEANUP) && r'.request == r.request
    ensures r'.life.state.Blocked? && r'.life.error == Some(Typed(InvalidInput)) && !r'.life.escaping
  {
    hide WellFormed, Facts, EndOk, StepsOk, DecisionsOk, WorkOk;
    r' := Fail(r, InvalidInput);
  }

  lemma ReleasesNothing(cfg: Config, r: Run, db: Db) returns (r': Run)
    requires ValidConfig(cfg) && Unburdened(r, AT_CLEANUP)
    ensures Step(cfg, Do(Release), r, db, r', db) && Unburdened(r', AT_RELEASED)
    ensures r'.request == r.request && r'.life == r.life
  {
    r' := NewRun(cfg, Release, r, db);
  }

  lemma LogsFinished(cfg: Config, r: Run, db: Db) returns (r': Run, db': Db)
    requires ValidConfig(cfg) && Unburdened(r, AT_RELEASED)
    ensures Step(cfg, Do(Log("", [])), r, db, r', db') && Unburdened(r', AT_FINISHED)
    ensures r'.request == r.request && r'.life == r.life
    ensures LoggedAt(cfg, db'.audit, |db.audit|, r.request.id, Stage.Finished)
  {
    r', db' := NewRun(cfg, Log("", []), r, db), NewDb(cfg, Log("", []), r, db);
    var e := Event(r.request.id, Stage.Finished, []);
    assert db'.audit[|db.audit|].data == cfg.json(e);
  }

  lemma PersistsNothing(cfg: Config, r: Run, db: Db) returns (r': Run)
    requires ValidConfig(cfg) && Unburdened(r, AT_FINISHED)
    ensures Step(cfg, Do(Persist), r, db, r', db)
    ensures r'.pc == RETURNED && r'.request == r.request && r'.life == r.life
  {
    r' := NewRun(cfg, Persist, r, db);
  }

  // The fields of an event are sanitised, its request id is not: whatever text a request
  // has for an id, its run is refused and still logs that text.
  lemma MalformedIdLogged(cfgs: Configs, states: seq<System>, actions: seq<Action>, n: nat, i: nat) returns (t: System)
    requires ValidConfigs(cfgs) && Trace(cfgs, states, actions) && n < |states|
    requires i in states[n].runs && i !in states[n].crashed && states[n].runs[i].pc == AT_START
    requires !WellFormed(cfgs(i), states[n].runs[i].request)
    ensures Leads(cfgs, states[n], t)
    ensures i in t.runs && t.runs[i].pc == RETURNED && t.runs[i].life.state.Blocked?
    ensures t.runs[i].life.error == Some(Typed(InvalidInput))
    ensures LoggedAt(cfgs(i), t.db.audit, |states[n].db.audit|, states[n].runs[i].request.id, Stage.Finished)
  {
    hide Trace, SysOk, Leads, Step, WellFormed, RunOk, LoggedAt, AppendEvent, NewRun, Next;
    var s, cfg := states[n], cfgs(i);
    Reachable(cfgs, states, actions, n);
    LeadsNowhere(cfgs, s);
    var r1 := Begun(cfgs, s, i);
    var s1 := GoQuietly(cfgs, s, s, i, Do(Start), r1, s.db);
    var r2 := Refusal(cfg, r1, s.db, s.now);
    var s2 := GoQuietly(cfgs, s, s1, i, Fault(InvalidInput, s.now), r2, s.db);
    var r3 := ReleasesNothing(cfg, r2, s.db);
    var s3 := GoQuietly(cfgs, s, s2, i, Do(Release), r3, s.db);
    var r4, db4 := LogsFinished(cfg, r3, s.db);
    var s4 := GoQuietly(cfgs, s, s3, i, Do(Log("", [])), r4, db4);
    var r5 := PersistsNothing(cfg, r4, db4);
    t := GoQuietly(cfgs, s, s4, i, Do(Persist), r5, db4);
  }

  lemma Begun(cfgs: Configs, s: System, i: nat) returns (r: Run)
    requires ValidConfigs(cfgs) && SysOk(cfgs, s) && i in s.runs && s.runs[i].pc == AT_START
    ensures Step(cfgs(i), Do(Start), s.runs[i], s.db, r, s.db) && RunOk(cfgs(i), r, s.db)
    ensures r.pc == AT_VALIDATING && r.request == s.runs[i].request && !r.holds.reserved
  {
    hide SysOk, Facts, EndOk, StepsOk, DecisionsOk, WorkOk, ProperTable;
    RunIn(cfgs, s, i);
    r := NewRun(cfgs(i), Start, s.runs[i], s.db);
    TablesProper(cfgs, s);
    StepKeepsRun(cfgs(i), Do(Start), s.runs[i], s.db, r, s.db);
  }

  lemma TablesProper(cfgs: Configs, s: System)
    requires ValidConfigs(cfgs) && SysOk(cfgs, s)
    ensures ProperTable(s.db.approvals)
  {
    hide Approvals.Inv, ProperTable, RunsOk, AuditOk, FindingsSound, CallsOk, LeasesOk, AdmissionsOk;
    InvProper(s);
  }
}
