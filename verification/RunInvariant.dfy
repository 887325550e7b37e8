// What every step of a run keeps: facts about the store that no other run can take
// away, and facts about the program point.
module RunInvariant {
  import opened Models
  import opened Records
  import opened Runs
  import AuditChain
  import Approvals
  import Findings
  import Limiter
  import Scope
  import Validation
  import SM = StateMachine

  /* ---------- how the store may change ---------- */

  ghost predicate Kept<T>(m: map<string, T>, m': map<string, T>) {
    forall id | id in m :: id in m' && m'[id] == m[id]
  }

  ghost predicate StaysTaken(db: Db, db': Db) {
    forall id | Taken(db, id) :: Taken(db', id)
  }

  // Seen by everybody else: reservations only turn into results, results, grants,
  // evidence and findings are write-once, the audit table only grows at its end, and
  // approvals only move forward.
  ghost predicate Evolves(db: Db, db': Db) {
    && StaysTaken(db, db')
    && Kept(db.results, db'.results)
    && db.audit <= db'.audit
    && Approvals.Evolves(db.approvals, db'.approvals)
    && Kept(db.evidence, db'.evidence)
    && Kept(db.findings, db'.findings)
  }

  lemma EvolvesLimiter(db: Db, tables: Limiter.Tables)
    ensures Evolves(db, db.(limiter := tables))
    ensures Evolves(db, db)
  {
  }

  lemma EvolvesAudit(cfg: Config, db: Db, eventId: string, e: Event)
    ensures Evolves(db, AppendEvent(cfg, db, eventId, e))
  {
  }

  lemma EvolvesReserve(db: Db, id: string)
    ensures Evolves(db, db.(reservations := db.reservations + {id}))
  {
  }

  lemma EvolvesPersist(r: Run, db: Db)
    requires r.holds.reserved ==> r.request.id !in db.results
    ensures Evolves(db, Persisted(r, db))
  {
  }

  lemma EvolvesAsk(cfg: Config, r: Run, db: Db, id: string, at: real)
    requires r.checks.target.Some? && r.checks.tier.Some? && id !in db.approvals.approvals
    ensures Evolves(db, Asked(cfg, r, db, id, at))
  {
  }

  lemma EvolvesEvidence(db: Db, id: string, e: Evidence)
    requires id !in db.evidence
    ensures Evolves(db, db.(evidence := db.evidence[id := e]))
  {
  }

  lemma EvolvesFinding(db: Db, id: string, f: Finding)
    requires id !in db.findings
    ensures Evolves(db, db.(findings := db.findings[id := f]))
  {
  }

  lemma ActEvolves(cfg: Config, act: Act, r: Run, db: Db)
    requires ValidConfig(cfg) && Equipped(cfg, r) && Enabled(cfg, act, r, db)
    ensures Evolves(db, NewDb(cfg, act, r, db))
  {
    hide Evolves, AppendEvent, Persisted, Asked, Limiter.Acquire, Limiter.Release, CleanEvent, Findings.Evaluate;
    match act {
      case Reserve => EvolvesReserve(db, r.request.id);
      case Log(eventId, fields) =>
        EvolvesAudit(cfg, db, eventId, Event(r.request.id, LogAt(r.pc, DecisionOf(r.checks)).value, fields));
      case AskLog(eventId, fields) =>
        EvolvesAudit(cfg, db, eventId, Event(r.request.id, Other("APPROVAL_REQUESTED"), fields));
      case AskStore(id, at) => EvolvesAsk(cfg, r, db, id, at);
      case StoreEvidence => EvolvesEvidence(db, r.work.built[r.work.stored].0, r.work.built[r.work.stored].1);
      case StoreFinding(id) => EvolvesFinding(db, id, NextFinding(cfg, r).value);
      case Persist => EvolvesPersist(r, db);
      case _ => EvolvesLimiter(db, NewDb(cfg, act, r, db).limiter);
    }
  }

  lemma StepEvolves(cfg: Config, m: Move, r: Run, db: Db, r': Run, db': Db)
    requires ValidConfig(cfg) && Step(cfg, m, r, db, r', db')
    ensures Evolves(db, db')
  {
    hide Evolves, Enabled, NewDb, NewRun, MayRaise, Fail;
    match m {
      case Do(act) => ActEvolves(cfg, act, r, db);
      case Lose(act) => ActEvolves(cfg, act, r, db);
      case Fault(_, _) => EvolvesLimiter(db, db.limiter);
    }
  }

  /* ---------- facts about the store ---------- */

  // The events of this run are in the audit table, in the order they were emitted.
  ghost predicate TrailOk(cfg: Config, audit: AuditChain.Table, id: string, t: Trail) {
    && |t.rows| == |t.steps|
    && (forall i, j | 0 <= i < j < |t.rows| :: t.rows[i] < t.rows[j])
    && (forall i | 0 <= i < |t.rows| :: LoggedAt(cfg, audit, t.rows[i], id, t.steps[i]))
  }

  // The grant this run found is in the store and covers the request.
  ghost predicate GrantFact(cfg: Config, q: Request, c: Checks, grants: map<string, Grant>) {
    c.grant.Some? ==>
      && c.target.Some? && q.tool in cfg.registry
      && q.grantId in grants && grants[q.grantId] == c.grant.value
      && GrantCovers(c.grant.value, q, c.target.value, cfg.registry[q.tool].permissions, c.grantAt)
  }

  // The approval this run saw satisfied its check when it was made, was properly
  // decided, and is an earlier version of what the store holds now.
  ghost predicate ApprovalFact(cfg: Config, q: Request, c: Checks, t: Approvals.Table) {
    c.approval.Some? ==>
      && c.target.Some? && c.tier.Some?
      && ApprovalSatisfies(c.approval.value, q, c.tier.value, cfg.fingerprint(q),
                           DigestOf(cfg, q.action, c.target.value), c.clearedAt)
      && Approvals.Proper(c.approval.value, t.grants)
      && q.approvalToken in t.approvals
      && Approvals.Descends(c.approval.value, t.approvals[q.approvalToken])
  }

  ghost predicate EvidenceFact(w: Work, evidence: map<string, Evidence>) {
    && w.stored <= |w.built|
    && forall k | 0 <= k < w.stored :: w.built[k].0 in evidence && evidence[w.built[k].0] == w.built[k].1
  }

  ghost predicate Facts(cfg: Config, r: Run, db: Db) {
    && (r.holds.reserved ==> Taken(db, r.request.id))
    && TrailOk(cfg, db.audit, r.request.id, r.trail)
    && GrantFact(cfg, r.request, r.checks, db.approvals.grants)
    && ApprovalFact(cfg, r.request, r.checks, db.approvals)
    && EvidenceFact(r.work, db.evidence)
  }

  lemma TrailStable(cfg: Config, audit: AuditChain.Table, audit': AuditChain.Table, id: string, t: Trail)
    requires TrailOk(cfg, audit, id, t) && audit <= audit'
    ensures TrailOk(cfg, audit', id, t)
  {
    forall i | 0 <= i < |t.rows| ensures LoggedAt(cfg, audit', t.rows[i], id, t.steps[i]) {
      assert LoggedAt(cfg, audit, t.rows[i], id, t.steps[i]);
      assert audit'[t.rows[i]] == audit[t.rows[i]];
    }
  }

  lemma ApprovalFactStable(cfg: Config, q: Request, c: Checks, t: Approvals.Table, t': Approvals.Table)
    requires ApprovalFact(cfg, q, c, t) && Approvals.Evolves(t, t')
    ensures ApprovalFact(cfg, q, c, t')
  {
    hide ApprovalSatisfies, Approvals.Descends;
    if c.approval.Some? {
      Approvals.ProperStable(c.approval.value, t, t');
      Approvals.DescendsTransitive(c.approval.value, t.approvals[q.approvalToken], t'.approvals[q.approvalToken]);
    }
  }

  // No step of anybody else can take these facts away.
  lemma FactsStable(cfg: Config, r: Run, db: Db, db': Db)
    requires Facts(cfg, r, db) && Evolves(db, db')
    ensures Facts(cfg, r, db')
  {
    hide LoggedAt, GrantCovers, TrailOk, ApprovalFact;
    TrailStable(cfg, db.audit, db'.audit, r.request.id, r.trail);
    ApprovalFactStable(cfg, r.request, r.checks, db.approvals, db'.approvals);
  }

  lemma TrailExtends(cfg: Config, id: string, t: Trail, db: Db, eventId: string, e: Event)
    requires TrailOk(cfg, db.audit, id, t) && e.requestId == id
    ensures TrailOk(cfg, AppendEvent(cfg, db, eventId, e).audit, id, Trail(t.steps + [e.stage], t.rows + [|db.audit|]))
  {
    var audit' := AppendEvent(cfg, db, eventId, e).audit;
    var t' := Trail(t.steps + [e.stage], t.rows + [|db.audit|]);
    TrailStable(cfg, db.audit, audit', id, t);
    forall i, j | 0 <= i < j < |t'.rows| ensures t'.rows[i] < t'.rows[j] {
      assert LoggedAt(cfg, db.audit, t.rows[i], id, t.steps[i]);
    }
    assert audit'[|db.audit|].data == cfg.json(e);
    forall i | 0 <= i < |t'.rows| ensures LoggedAt(cfg, audit', t'.rows[i], id, t'.steps[i]) {
      if i < |t.rows| {
        assert LoggedAt(cfg, audit', t.rows[i], id, t.steps[i]);
      }
    }
  }

  ghost predicate ProperTable(t: Approvals.Table) {
    forall id | id in t.approvals :: Approvals.Proper(t.approvals[id], t.grants)
  }

  lemma ActAuditGrows(cfg: Config, act: Act, r: Run, db: Db)
    requires ValidConfig(cfg) && Equipped(cfg, r) && Enabled(cfg, act, r, db)
    ensures db.audit <= NewDb(cfg, act, r, db).audit
    ensures Approvals.Evolves(db.approvals, NewDb(cfg, act, r, db).approvals)
    ensures StaysTaken(db, NewDb(cfg, act, r, db))
    ensures Kept(db.evidence, NewDb(cfg, act, r, db).evidence)
  {
    hide NewDb, Enabled, Approvals.Evolves, StaysTaken, Kept;
    ActEvolves(cfg, act, r, db);
  }

  lemma TrailKept(cfg: Config, act: Act, r: Run, db: Db)
    requires ValidConfig(cfg) && Equipped(cfg, r) && Enabled(cfg, act, r, db)
    requires TrailOk(cfg, db.audit, r.request.id, r.trail)
    ensures TrailOk(cfg, NewDb(cfg, act, r, db).audit, r.request.id, NewTrail(act, r, db))
  {
    hide TrailOk, AuditChain.Append, Guard, Approvals.Evolves, StaysTaken, Kept;
    if act.Log? {
      TrailExtends(cfg, r.request.id, r.trail, db, act.eventId,
                   Event(r.request.id, LogAt(r.pc, DecisionOf(r.checks)).value, act.fields));
    } else {
      ActAuditGrows(cfg, act, r, db);
      TrailStable(cfg, db.audit, NewDb(cfg, act, r, db).audit, r.request.id, r.trail);
    }
  }

  // The acts that record what a check found.
  predicate Deciding(act: Act) {
    act.Rule? || act.Snapshot? || act.CheckGrant? || act.Assess? || act.Ensure?
  }

  lemma DecidingFacts(cfg: Config, act: Act, r: Run, db: Db)
    requires ValidConfig(cfg) && Equipped(cfg, r) && Enabled(cfg, act, r, db) && Deciding(act)
    requires GrantFact(cfg, r.request, r.checks, db.approvals.grants)
    requires ApprovalFact(cfg, r.request, r.checks, db.approvals) && ProperTable(db.approvals)
    requires act.Rule? ==> r.checks.grant.None?
    requires act.Rule? || act.Assess? ==> r.checks.approval.None?
    ensures GrantFact(cfg, r.request, NewChecks(cfg, act, r, db), db.approvals.grants)
    ensures ApprovalFact(cfg, r.request, NewChecks(cfg, act, r, db), db.approvals)
  {
    hide Approvals.Proper, GrantCovers, ApprovalSatisfies, Scope.Evaluate, Targetable;
  }

  lemma ChecksKept(cfg: Config, act: Act, r: Run, db: Db)
    requires ValidConfig(cfg) && Equipped(cfg, r) && Enabled(cfg, act, r, db)
    requires GrantFact(cfg, r.request, r.checks, db.approvals.grants)
    requires ApprovalFact(cfg, r.request, r.checks, db.approvals) && ProperTable(db.approvals)
    requires act.Rule? ==> r.checks.grant.None?
    requires act.Rule? || act.Assess? ==> r.checks.approval.None?
    ensures GrantFact(cfg, r.request, NewChecks(cfg, act, r, db), NewDb(cfg, act, r, db).approvals.grants)
    ensures ApprovalFact(cfg, r.request, NewChecks(cfg, act, r, db), NewDb(cfg, act, r, db).approvals)
  {
    hide NewDb, NewChecks, Guard, ApprovalFact, GrantCovers, StaysTaken, Kept, ProperTable;
    ActAuditGrows(cfg, act, r, db);
    var checks := NewChecks(cfg, act, r, db);
    if Deciding(act) {
      DecidingFacts(cfg, act, r, db);
    } else {
      SameChecks(cfg, act, r, db);
    }
    ApprovalFactStable(cfg, r.request, checks, db.approvals, NewDb(cfg, act, r, db).approvals);
  }

  lemma SameChecks(cfg: Config, act: Act, r: Run, db: Db)
    requires ValidConfig(cfg) && Equipped(cfg, r) && Enabled(cfg, act, r, db) && !Deciding(act)
    ensures NewChecks(cfg, act, r, db) == r.checks
  {
    hide Guard;
  }

  lemma EvidenceKept(cfg: Config, act: Act, r: Run, db: Db)
    requires ValidConfig(cfg) && Equipped(cfg, r) && Enabled(cfg, act, r, db)
    requires EvidenceFact(r.work, db.evidence)
    ensures EvidenceFact(NewWork(cfg, act, r, db), NewDb(cfg, act, r, db).evidence)
  {
    hide StaysTaken, Approvals.Evolves, Findings.EvidenceFor, Findings.Evaluate, AppendEvent, Limiter.Acquire, CleanEvent;
    ActAuditGrows(cfg, act, r, db);
  }

  lemma ReservedKept(cfg: Config, act: Act, r: Run, db: Db)
    requires ValidConfig(cfg) && Equipped(cfg, r) && Enabled(cfg, act, r, db)
    requires r.holds.reserved ==> Taken(db, r.request.id)
    ensures NewHolds(cfg, act, r).reserved ==> Taken(NewDb(cfg, act, r, db), r.request.id)
  {
    hide Approvals.Evolves, Kept;
    if act.Reserve? {
    } else {
      hide NewDb, Guard;
      ActAuditGrows(cfg, act, r, db);
    }
  }

  lemma ActKeepsFacts(cfg: Config, act: Act, r: Run, db: Db)
    requires ValidConfig(cfg) && Equipped(cfg, r) && Enabled(cfg, act, r, db)
    requires Facts(cfg, r, db) && ProperTable(db.approvals)
    requires act.Rule? ==> r.checks.grant.None?
    requires act.Rule? || act.Assess? ==> r.checks.approval.None?
    ensures Facts(cfg, NewRun(cfg, act, r, db), NewDb(cfg, act, r, db))
  {
    hide NewDb, Enabled, NewLife, NewChecks, NewHolds, NewTrail, NewWork, TrailOk, GrantFact, ApprovalFact, EvidenceFact, Taken;
    TrailKept(cfg, act, r, db);
    ChecksKept(cfg, act, r, db);
    EvidenceKept(cfg, act, r, db);
    ReservedKept(cfg, act, r, db);
  }

  // A failure leaves the trail, the checks and the holds as they are.
  lemma FailKeepsFacts(cfg: Config, r: Run, db: Db, f: Models.Fault)
    requires Facts(cfg, r, db)
    ensures Facts(cfg, Fail(r, f), db)
  {
    hide TrailOk, GrantFact, ApprovalFact, Handled, FinallyFailed;
  }

  /* ---------- the history ---------- */

  // The state a run is in at each point of the try block.
  function StateAt(pc: Pc): State {
    if pc == AT_START then State.Created
    else if pc <= AT_REQUESTED then State.Validating
    else if pc <= AT_SCOPED then State.ScopeCheck
    else if pc <= AT_AUTHORIZED then State.AuthorizationCheck
    else if pc <= AT_CLASSIFIED then State.RiskAssessment
    else if pc <= AT_APPROVAL_LOGGED then State.WaitingForApproval
    else if pc <= AT_LEASED then State.Approved
    else if pc <= AT_TOOL_DONE then State.Executing
    else if pc <= AT_TOOL_LOGGED then State.CollectingEvidence
    else State.ValidatingResult
  }

  function Last<T>(s: seq<T>): T
    requires s != []
  {
    s[|s| - 1]
  }

  // The one exception to terminal states being absorbing: after a failed release, an
  // extra FAILED follows the terminal state.
  predicate ExtraFailed(life: Life) {
    && |life.states| > 1
    && Last(life.states).Failed?
    && SM.History(life.states[..|life.states| - 1])
    && SM.Terminal(life.states[|life.states| - 2])
    && (life.error == Some(LeaseCleanupFailed) || life.error == Some(AuditFailure))
  }

  predicate Succeeded(outcome: Outcome) {
    outcome == SuccessWithFindings || outcome == SuccessNoFindings || outcome == Inconclusive
  }

  // The result ends in a terminal state, has an error exactly if it did not complete, and
  // state and outcome tell the error.
  predicate Settled(life: Life) {
    && SM.Terminal(life.state)
    && (life.state.Completed? <==> life.error.None?)
    && (life.state.Completed? <==> Succeeded(life.outcome))
    && (life.error.Some? ==>
          if life.error.value.Typed?
          then life.outcome == OutcomeOf(life.error.value.fault) && life.state == EndState(life.error.value.fault)
          else life.outcome == InternalError && life.state.Failed?)
  }

  predicate LifeOk(pc: Pc, life: Life) {
    && life.states != []
    && (InBody(pc) ==>
          SM.History(life.states) && Last(life.states) == life.state == StateAt(pc) && !life.escaping && life.error.None?)
    && (pc == AT_CLEANUP ==> SM.History(life.states) && Last(life.states) == life.state)
    && (!InBody(pc) ==> life.escaping || Settled(life))
    && (pc < RETURNED ==> life.error != Some(AuditFailure))
    && (pc > AT_CLEANUP ==>
          && (SM.History(life.states) || ExtraFailed(life))
          && (Last(life.states) == life.state || (pc == RETURNED && life.error == Some(AuditFailure))))
  }

  lemma LifeKept(act: Act, r: Run)
    requires TakenAt(act, r.pc) && LifeOk(r.pc, r.life)
    ensures LifeOk(NextPc(act, r.pc), NewLife(act, r))
  {
    hide SM.History;
    var states := r.life.states;
    if act.Start? || act.Enter? || act.Complete? {
      var to := NewLife(act, r).state;
      SM.HistoryExtends(states, to);
    }
  }

  lemma HandledOk(pc: Pc, life: Life, f: Models.Fault)
    requires InBody(pc) && LifeOk(pc, life)
    ensures LifeOk(AT_CLEANUP, Handled(life, f))
  {
    hide SM.History;
    if !f.Uncaught? {
      SM.HistoryExtends(life.states, Handled(life, f).state);
    }
  }

  lemma FinallyOk(pc: Pc, life: Life, f: Models.Fault)
    requires AT_CLEANUP <= pc < RETURNED && LifeOk(pc, life)
    ensures LifeOk(if pc == AT_CLEANUP && StoreFailure(f) then AT_RELEASED else RETURNED, FinallyFailed(pc, life, f))
  {
    hide SM.History;
    var life' := FinallyFailed(pc, life, f);
    if pc == AT_CLEANUP && StoreFailure(f) && !life.state.Failed? {
      assert life'.states[..|life'.states| - 1] == life.states;
      if SM.ValidTransition(life.state, State.Failed) {
        SM.HistoryExtends(life.states, State.Failed);
      }
    }
  }

  lemma FailLife(r: Run, f: Models.Fault)
    requires r.pc < RETURNED && LifeOk(r.pc, r.life)
    ensures LifeOk(Fail(r, f).pc, Fail(r, f).life)
  {
    hide LifeOk, Handled, FinallyFailed;
    if InBody(r.pc) {
      HandledOk(r.pc, r.life, f);
    } else {
      FinallyOk(r.pc, r.life, f);
    }
  }

  /* ---------- the events ---------- */

  // The events of a run that gets all the way, in order.
  function Stages(ruled: Scope.Decision): (stages: seq<Stage>)
    ensures |stages| == 9
  {
    [Requested, ScopeRuled(ruled), Authorized, Classified, ApprovalChecked, PreconditionsPassed, Stage.Executing,
     ToolFinished, OutputValidated]
  }

  // How many of them have been logged at each point of the try block.
  function LoggedBy(pc: Pc): (n: nat)
    ensures n <= 9
  {
    if pc <= AT_CHECKED then 0
    else if pc <= AT_RULING then 1
    else if pc <= AT_PERMITTED then 2
    else if pc <= AT_ASSESSED then 3
    else if pc <= AT_CLEARED then 4
    else if pc <= AT_PREPARED then 5
    else if pc <= AT_EXECUTING then 6
    else if pc <= AT_COLLECTING then 7
    else if pc <= AT_OUTPUT then 8
    else 9
  }

  predicate StepsOk(pc: Pc, ruled: Scope.Decision, steps: seq<Stage>) {
    InBody(pc) ==>
      steps == Stages(ruled)[..LoggedBy(pc)] + (if pc == ASK_DONE then [ApprovalPending] else [])
  }

  lemma LogNumber(pc: Pc, ruled: Scope.Decision)
    requires InBody(pc) && LogAt(pc, ruled).Some? && pc != ASK_STORED
    ensures LoggedBy(pc) < 9 && LoggedBy(pc + 1) == LoggedBy(pc) + 1
    ensures LogAt(pc, ruled) == Some(Stages(ruled)[LoggedBy(pc)])
    ensures pc != ASK_DONE && pc + 1 != ASK_DONE
  {
  }

  lemma QuietNumber(act: Act, pc: Pc)
    requires TakenAt(act, pc) && !act.Log? && InBody(NextPc(act, pc))
    ensures InBody(pc) && LoggedBy(NextPc(act, pc)) == LoggedBy(pc)
    ensures pc != ASK_DONE && NextPc(act, pc) != ASK_DONE
    ensures act.Rule? ==> LoggedBy(pc) == 1
  {
  }

  // The ruling changes nothing that has been logged.
  lemma FirstStage(a: Scope.Decision, b: Scope.Decision)
    ensures Stages(a)[..1] == Stages(b)[..1]
  {
  }

  lemma SameRuling(cfg: Config, act: Act, r: Run, db: Db)
    requires ValidConfig(cfg) && Equipped(cfg, r) && Enabled(cfg, act, r, db) && !act.Rule?
    ensures DecisionOf(NewChecks(cfg, act, r, db)) == DecisionOf(r.checks)
  {
    hide Guard, Scope.Evaluate, Equipped;
  }

  lemma QuietKept(pc: Pc, pc': Pc, ruled: Scope.Decision, ruled': Scope.Decision, steps: seq<Stage>)
    requires StepsOk(pc, ruled, steps) && InBody(pc) && LoggedBy(pc') == LoggedBy(pc)
    requires pc != ASK_DONE && pc' != ASK_DONE
    requires ruled == ruled' || LoggedBy(pc) == 1
    ensures StepsOk(pc', ruled', steps)
  {
    hide LoggedBy, Stages;
    FirstStage(ruled, ruled');
  }

  lemma LoggedKept(pc: Pc, ruled: Scope.Decision, steps: seq<Stage>)
    requires StepsOk(pc, ruled, steps) && InBody(pc) && LogAt(pc, ruled).Some?
    ensures StepsOk(pc + 1, ruled, steps + [LogAt(pc, ruled).value])
  {
    hide LoggedBy, Stages;
    if pc == ASK_STORED {
      AskNumber(ruled);
    } else {
      LogNumber(pc, ruled);
      var stages, n := Stages(ruled), LoggedBy(pc);
      assert stages[..n] + [stages[n]] == stages[..n + 1];
    }
  }

  lemma AskNumber(ruled: Scope.Decision)
    ensures LoggedBy(ASK_DONE) == LoggedBy(ASK_STORED) && LogAt(ASK_STORED, ruled) == Some(ApprovalPending)
  {
  }

  lemma StepsKept(cfg: Config, act: Act, r: Run, db: Db)
    requires ValidConfig(cfg) && Equipped(cfg, r) && Enabled(cfg, act, r, db)
    requires StepsOk(r.pc, DecisionOf(r.checks), r.trail.steps)
    ensures StepsOk(NextPc(act, r.pc), DecisionOf(NewChecks(cfg, act, r, db)), NewTrail(act, r, db).steps)
  {
    hide Guard, NewChecks, DecisionOf, Equipped, Stages, LoggedBy, StepsOk;
    if !act.Rule? {
      SameRuling(cfg, act, r, db);
    }
    if !InBody(NextPc(act, r.pc)) {
      OutsideSteps(NextPc(act, r.pc), DecisionOf(NewChecks(cfg, act, r, db)), NewTrail(act, r, db).steps);
    } else if act.Log? {
      LoggedKept(r.pc, DecisionOf(r.checks), r.trail.steps);
    } else {
      QuietNumber(act, r.pc);
      QuietKept(r.pc, NextPc(act, r.pc), DecisionOf(r.checks), DecisionOf(NewChecks(cfg, act, r, db)), r.trail.steps);
    }
  }

  lemma OutsideSteps(pc: Pc, ruled: Scope.Decision, steps: seq<Stage>)
    requires !InBody(pc)
    ensures StepsOk(pc, ruled, steps)
  {
  }

  // A run that returns without a final failure has logged that it finished.
  predicate EndOk(pc: Pc, life: Life, steps: seq<Stage>) {
    pc == AT_FINISHED || (pc == RETURNED && !life.escaping && life.error != Some(AuditFailure)) ==>
      steps != [] && Last(steps) == Stage.Finished
  }

  lemma EndKept(act: Act, r: Run, db: Db)
    requires TakenAt(act, r.pc) && EndOk(r.pc, r.life, r.trail.steps)
    ensures EndOk(NextPc(act, r.pc), NewLife(act, r), NewTrail(act, r, db).steps)
  {
  }

  lemma FailEnd(r: Run, f: Models.Fault)
    requires r.pc < RETURNED && EndOk(r.pc, r.life, r.trail.steps)
    ensures EndOk(Fail(r, f).pc, Fail(r, f).life, r.trail.steps)
  {
    hide Handled;
  }

  /* ---------- the decisions ---------- */

  // Scope allowed the target twice: for the ruling and for the snapshot of it.
  ghost predicate ScopeAllowed(cfg: Config, q: Request, c: Checks)
    requires ValidConfig(cfg)
  {
    && c.target.Some? && cfg.normalise(q.target) == c.target
    && DecisionOf(c) == Scope.Allow
    && Scope.Evaluate(cfg.policy, c.target.value, q.action, c.ruledAt).decision == Scope.Allow
    && Scope.Evaluate(cfg.policy, c.target.value, q.action, c.snapshotAt).decision == Scope.Allow
  }

  // The tier is the assessed one, raised to the floor of the registered tool.
  ghost predicate TierFact(cfg: Config, q: Request, c: Checks) {
    && c.tier.Some? && c.target.Some? && q.tool in cfg.registry
    && c.tier.value == Floored(cfg.assess(q, c.target.value), cfg.registry[q.tool].tier)
  }

  ghost predicate Ruled(cfg: Config, q: Request, c: Checks)
    requires ValidConfig(cfg)
  {
    && c.target == cfg.normalise(q.target) && c.target.Some?
    && c.ruling == Some(Scope.Evaluate(cfg.policy, c.target.value, q.action, c.ruledAt))
  }

  // The decisions made by each point of the try block.
  ghost predicate DecisionsOk(cfg: Config, q: Request, pc: Pc, c: Checks)
    requires ValidConfig(cfg)
  {
    InBody(pc) ==>
      && (pc >= AT_RESERVED ==> WellFormed(cfg, q) && q.requester == cfg.actor)
      && (pc >= AT_CHECKED ==> KnownTool(cfg, q))
      && (pc >= AT_RULING ==> Ruled(cfg, q, c))
      && (pc >= AT_SCOPED ==> ScopeAllowed(cfg, q, c))
      && c.grant.Some? == (pc >= AT_PERMITTED)
      && (pc >= AT_ASSESSED ==> TierFact(cfg, q, c))
      && c.cleared == (pc >= AT_CLEARED)
      && (pc < AT_CLEARED ==> c.approval.None?)
      && (pc >= AT_CLEARED ==> c.tier.Some? && c.approval.Some? == RequiresApproval(c.tier.value))
      && (pc >= AT_PREPARED ==> q.tool in cfg.registry && c.target.Some? && Selectable(cfg, q, c.target.value))
      && (pc >= AT_TOOL_DONE ==> q.tool in cfg.registry && !cfg.registry[q.tool].name.OtherTool?)
  }

  lemma RoutineDecisions(cfg: Config, act: Act, r: Run, db: Db)
    requires ValidConfig(cfg) && Equipped(cfg, r) && Enabled(cfg, act, r, db)
    requires DecisionsOk(cfg, r.request, r.pc, r.checks) && !Deciding(act)
    ensures DecisionsOk(cfg, r.request, NextPc(act, r.pc), NewChecks(cfg, act, r, db))
  {
    hide WellFormed, KnownTool, Ruled, ScopeAllowed, TierFact, Selectable, RequiresApproval, CleanEvent,
         Limiter.Acquire, Validation.OutputOk, Findings.Evaluate;
  }

  lemma DecidingDecisions(cfg: Config, act: Act, r: Run, db: Db)
    requires ValidConfig(cfg) && Equipped(cfg, r) && Enabled(cfg, act, r, db)
    requires DecisionsOk(cfg, r.request, r.pc, r.checks) && Deciding(act)
    ensures DecisionsOk(cfg, r.request, NextPc(act, r.pc), NewChecks(cfg, act, r, db))
  {
    hide WellFormed, KnownTool, Scope.Evaluate, Selectable, RequiresApproval, GrantCovers, ApprovalSatisfies;
  }

  /* ---------- the holds ---------- */

  predicate HoldsOk(pc: Pc, h: Holds) {
    && (InBody(pc) ==>
          && h.reserved == (pc >= AT_RESERVED)
          && h.leaseId.Some? == (pc >= AT_LEASE_CHOSEN)
          && h.executionId == (if pc >= AT_LEASED then h.leaseId else None))
    && (h.leaseId.Some? ==> h.reserved)
    && (h.executionId.Some? ==> h.executionId == h.leaseId)
  }

  lemma HoldsKept(cfg: Config, act: Act, r: Run)
    requires TakenAt(act, r.pc) && Equipped(cfg, r) && HoldsOk(r.pc, r.holds)
    ensures HoldsOk(NextPc(act, r.pc), NewHolds(cfg, act, r))
  {
  }

  lemma EquippedKept(cfg: Config, act: Act, r: Run, db: Db)
    requires ValidConfig(cfg) && Equipped(cfg, r) && Enabled(cfg, act, r, db)
    requires DecisionsOk(cfg, r.request, NextPc(act, r.pc), NewChecks(cfg, act, r, db))
    requires HoldsOk(NextPc(act, r.pc), NewHolds(cfg, act, r))
    ensures Equipped(cfg, NewRun(cfg, act, r, db))
  {
    hide NewChecks, NewHolds, NewLife, NewTrail, WellFormed, Selectable, ScopeAllowed, CleanEvent,
         Limiter.Acquire, Validation.OutputOk, Findings.Evaluate, Findings.EvidenceFor;
  }

  /* ---------- evidence and findings ---------- */

  // The evidence built so far is that of the first observation left, and only the
  // fixture verifier's observations are verified.
  ghost predicate BuiltFor(cfg: Config, origin: Origin, o: Observation, built: seq<(string, Evidence)>) {
    exists s, t :: built == Findings.EvidenceFor(cfg, origin, o, s, t)
  }

  predicate OnlyFixtureVerified(tool: ToolName, queue: seq<Observation>) {
    forall o | o in queue :: o.verified ==> tool.FixtureVerify?
  }

  ghost predicate WorkOk(cfg: Config, r: Run)
    requires Equipped(cfg, r)
  {
    && (r.pc >= AT_OUTPUT && InBody(r.pc) ==> OnlyFixtureVerified(cfg.registry[r.request.tool].name, r.work.queue))
    && (r.work.built != [] ==> BuiltFor(cfg, OriginOf(cfg, r), r.work.queue[0], r.work.built))
  }

  ghost predicate FindingsSound(cfg: Config, db: Db) {
    forall id | id in db.findings :: Findings.Sound(cfg, db.findings[id], db.evidence)
  }

  lemma WorkKept(cfg: Config, act: Act, r: Run, db: Db)
    requires ValidConfig(cfg) && Equipped(cfg, r) && Enabled(cfg, act, r, db) && WorkOk(cfg, r)
    requires DecisionsOk(cfg, r.request, r.pc, r.checks)
    requires Equipped(cfg, NewRun(cfg, act, r, db))
    ensures WorkOk(cfg, NewRun(cfg, act, r, db))
  {
    hide Findings.EvidenceFor, Findings.Evaluate, BuiltFor, WellFormed, KnownTool, Ruled, ScopeAllowed, TierFact,
         Selectable, CleanEvent, Limiter.Acquire;
    if act.Build? {
      BuiltNow(cfg, OriginOf(cfg, r), r.work.queue[0], act.sourceId, act.testId);
    }
  }

  lemma BuiltNow(cfg: Config, origin: Origin, o: Observation, s: string, t: string)
    ensures BuiltFor(cfg, origin, o, Findings.EvidenceFor(cfg, origin, o, s, t))
  {
  }

  // The reasoning step never refuses what the engine built, and the finding is sound.
  lemma FindingIsSound(cfg: Config, r: Run, db: Db)
    requires Equipped(cfg, r) && WorkOk(cfg, r) && EvidenceFact(r.work, db.evidence)
    requires r.work.built != [] && r.work.stored == |r.work.built|
    ensures NextFinding(cfg, r).Some?
    ensures Findings.Sound(cfg, NextFinding(cfg, r).value, db.evidence)
  {
    hide Findings.EvidenceFor, Findings.Evaluate, Findings.Sound;
    var o, origin := r.work.queue[0], OriginOf(cfg, r);
    var s, t :| r.work.built == Findings.EvidenceFor(cfg, origin, o, s, t);
    assert o in r.work.queue;
    Findings.StoredIsSound(cfg, origin, o, s, t, db.evidence);
  }

  lemma FindingsKept(cfg: Config, act: Act, r: Run, db: Db)
    requires ValidConfig(cfg) && Equipped(cfg, r) && Enabled(cfg, act, r, db) && WorkOk(cfg, r)
    requires EvidenceFact(r.work, db.evidence) && FindingsSound(cfg, db)
    ensures FindingsSound(cfg, NewDb(cfg, act, r, db))
  {
    var db' := NewDb(cfg, act, r, db);
    if act.StoreFinding? {
      hide Findings.Evaluate, Findings.Sound, WorkOk;
      FindingIsSound(cfg, r, db);
    } else {
      OtherFindings(cfg, act, r, db);
      ActAuditGrows(cfg, act, r, db);
      hide Findings.Sound, NewDb, Guard;
      forall id | id in db'.findings ensures Findings.Sound(cfg, db'.findings[id], db'.evidence) {
        Findings.SoundStable(cfg, db.findings[id], db.evidence, db'.evidence);
      }
    }
  }

  lemma OtherFindings(cfg: Config, act: Act, r: Run, db: Db)
    requires ValidConfig(cfg) && Equipped(cfg, r) && Enabled(cfg, act, r, db) && !act.StoreFinding?
    ensures NewDb(cfg, act, r, db).findings == db.findings
  {
    hide CleanEvent, Limiter.Acquire, Findings.Evaluate;
  }

  /* ---------- the invariant of one run ---------- */

  ghost predicate PointOk(cfg: Config, r: Run)
    requires ValidConfig(cfg)
  {
    && Equipped(cfg, r)
    && LifeOk(r.pc, r.life)
    && EndOk(r.pc, r.life, r.trail.steps)
    && StepsOk(r.pc, DecisionOf(r.checks), r.trail.steps)
    && DecisionsOk(cfg, r.request, r.pc, r.checks)
    && HoldsOk(r.pc, r.holds)
    && WorkOk(cfg, r)
  }

  ghost predicate RunOk(cfg: Config, r: Run, db: Db)
    requires ValidConfig(cfg)
  {
    PointOk(cfg, r) && Facts(cfg, r, db)
  }

  lemma FreshOk(cfg: Config, q: Request, db: Db)
    requires ValidConfig(cfg)
    ensures RunOk(cfg, Fresh(q), db)
  {
  }

  lemma ActKeepsPoint(cfg: Config, act: Act, r: Run, db: Db)
    requires ValidConfig(cfg) && Equipped(cfg, r) && Enabled(cfg, act, r, db) && PointOk(cfg, r)
    ensures PointOk(cfg, NewRun(cfg, act, r, db))
  {
    hide Guard, NewLife, NewChecks, NewHolds, NewTrail, NewWork, LifeOk, EndOk, StepsOk, DecisionsOk, HoldsOk, WorkOk;
    LifeKept(act, r);
    EndKept(act, r, db);
    StepsKept(cfg, act, r, db);
    if Deciding(act) {
      DecidingDecisions(cfg, act, r, db);
    } else {
      RoutineDecisions(cfg, act, r, db);
    }
    HoldsKept(cfg, act, r);
    EquippedKept(cfg, act, r, db);
    WorkKept(cfg, act, r, db);
  }

  lemma FailKeepsPoint(cfg: Config, r: Run, f: Models.Fault)
    requires ValidConfig(cfg) && PointOk(cfg, r) && r.pc < RETURNED
    ensures PointOk(cfg, Fail(r, f))
  {
    hide LifeOk, EndOk, Handled, FinallyFailed, Ruled, ScopeAllowed, TierFact, WellFormed, KnownTool, Selectable;
    FailLife(r, f);
    FailEnd(r, f);
  }

  // A run decides its target before it holds a grant or an approval.
  lemma DecidesOnce(cfg: Config, act: Act, r: Run)
    requires ValidConfig(cfg) && TakenAt(act, r.pc) && DecisionsOk(cfg, r.request, r.pc, r.checks)
    ensures act.Rule? ==> r.checks.grant.None?
    ensures act.Rule? || act.Assess? ==> r.checks.approval.None?
  {
  }

  lemma ActKeeps(cfg: Config, act: Act, r: Run, db: Db)
    requires ValidConfig(cfg) && Equipped(cfg, r) && Enabled(cfg, act, r, db)
    requires RunOk(cfg, r, db) && ProperTable(db.approvals)
    ensures RunOk(cfg, NewRun(cfg, act, r, db), NewDb(cfg, act, r, db))
    ensures Facts(cfg, r, NewDb(cfg, act, r, db))
  {
    hide Enabled, Equipped, NewRun, NewDb, PointOk, Facts, ProperTable, Evolves, DecisionsOk;
    assert DecisionsOk(cfg, r.request, r.pc, r.checks) && TakenAt(act, r.pc) by {
      PointHas(cfg, r);
      EnabledAt(cfg, act, r, db);
    }
    DecidesOnce(cfg, act, r);
    ActKeepsPoint(cfg, act, r, db);
    ActKeepsFacts(cfg, act, r, db);
    ActEvolves(cfg, act, r, db);
    FactsStable(cfg, r, db, NewDb(cfg, act, r, db));
  }

  lemma PointHas(cfg: Config, r: Run)
    requires ValidConfig(cfg) && PointOk(cfg, r)
    ensures Equipped(cfg, r) && WorkOk(cfg, r) && LifeOk(r.pc, r.life) && HoldsOk(r.pc, r.holds)
    ensures EndOk(r.pc, r.life, r.trail.steps)
    ensures DecisionsOk(cfg, r.request, r.pc, r.checks) && StepsOk(r.pc, DecisionOf(r.checks), r.trail.steps)
  {
  }

  lemma EnabledAt(cfg: Config, act: Act, r: Run, db: Db)
    requires ValidConfig(cfg) && Equipped(cfg, r) && Enabled(cfg, act, r, db)
    ensures TakenAt(act, r.pc)
  {
  }

  // Every step of a run keeps its invariant: what it did, and every failure.
  lemma StepKeepsRun(cfg: Config, m: Move, r: Run, db: Db, r': Run, db': Db)
    requires ValidConfig(cfg) && Step(cfg, m, r, db, r', db')
    requires RunOk(cfg, r, db) && ProperTable(db.approvals)
    ensures RunOk(cfg, r', db')
  {
    hide Enabled, NewRun, NewDb, PointOk, Facts, ProperTable, Fail, Equipped, Refuses;
    match m {
      case Do(act) => ActKeeps(cfg, act, r, db);
      case Lose(act) =>
        ActKeeps(cfg, act, r, db);
        NotReturned(cfg, act, r, db);
        FailKeepsPoint(cfg, r, StoreError);
        FailKeepsFacts(cfg, r, db', StoreError);
      case Fault(f, at) =>
        FailKeepsPoint(cfg, r, f);
        FailKeepsFacts(cfg, r, db, f);
    }
  }

  lemma NotReturned(cfg: Config, act: Act, r: Run, db: Db)
    requires ValidConfig(cfg) && Equipped(cfg, r) && Enabled(cfg, act, r, db)
    ensures r.pc < RETURNED
  {
    hide Guard;
  }

  lemma StepKeepsFindings(cfg: Config, m: Move, r: Run, db: Db, r': Run, db': Db)
    requires ValidConfig(cfg) && Step(cfg, m, r, db, r', db')
    requires RunOk(cfg, r, db) && FindingsSound(cfg, db)
    ensures FindingsSound(cfg, db')
  {
    hide Enabled, NewRun, NewDb, FindingsSound, Fail, Refuses, WorkOk, EvidenceFact, LifeOk, HoldsOk, StepsOk, DecisionsOk;
    match m {
      case Do(act) => FindingsKept(cfg, act, r, db);
      case Lose(act) => FindingsKept(cfg, act, r, db);
      case Fault(_, _) =>
    }
  }

  // Filing a request keeps every stored approval proper.
  lemma ActKeepsProper(cfg: Config, act: Act, r: Run, db: Db)
    requires ValidConfig(cfg) && Equipped(cfg, r) && Enabled(cfg, act, r, db) && ProperTable(db.approvals)
    ensures ProperTable(NewDb(cfg, act, r, db).approvals)
  {
    hide Limiter.Acquire, CleanEvent, Findings.Evaluate;
  }

  lemma StepKeepsProper(cfg: Config, m: Move, r: Run, db: Db, r': Run, db': Db)
    requires ValidConfig(cfg) && Step(cfg, m, r, db, r', db') && ProperTable(db.approvals)
    ensures ProperTable(db'.approvals)
  {
    hide Enabled, NewRun, NewDb, ProperTable, Fail, Refuses;
    match m {
      case Do(act) => ActKeepsProper(cfg, act, r, db);
      case Lose(act) => ActKeepsProper(cfg, act, r, db);
      case Fault(_, _) =>
    }
  }

  lemma PcAdvances(cfg: Config, m: Move, r: Run, db: Db, r': Run, db': Db)
    requires ValidConfig(cfg) && Step(cfg, m, r, db, r', db')
    ensures r'.request == r.request && r.pc <= r'.pc
    ensures r'.holds.reserved == (r.holds.reserved || m == Do(Reserve))
  {
    hide Guard, NewLife, NewChecks, NewTrail, NewWork, NewDb, Refuses, Handled, FinallyFailed;
  }

  lemma EvolvesTransitive(a: Db, b: Db, c: Db)
    requires Evolves(a, b) && Evolves(b, c)
    ensures Evolves(a, c)
  {
    forall id | id in a.approvals.approvals
      ensures id in c.approvals.approvals
      ensures Approvals.Descends(a.approvals.approvals[id], c.approvals.approvals[id])
    {
      Approvals.DescendsTransitive(a.approvals.approvals[id], b.approvals.approvals[id], c.approvals.approvals[id]);
    }
  }
}
