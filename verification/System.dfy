// Any number of runs over one store, with approvers, recovery commands and other writers
// of the audit log, all interleaving freely. A run may crash between any two steps.
module System {
  import opened Models
  import opened Records
  import opened Runs
  import opened RunInvariant
  import AuditChain
  import Approvals
  import Findings
  import Limiter
  import Validation

  // A call of the tool runner, with the run as it was when it made the call.
  datatype ToolCall = ToolCall(run: nat, before: Run)

  // Beside the store and the runs: the approver calls in progress, every tool call so
  // far, the lease ids handed out, and every limiter transaction in commit order.
  datatype System = System(
    db: Db, runs: map<nat, Run>, crashed: set<nat>, ops: map<nat, Approvals.Op>,
    calls: seq<ToolCall>, leaseIds: set<string>, events: seq<Limiter.Event>, now: real)

  datatype Action =
    | Begin(run: nat, request: Request)
    | Advance(run: nat, move: Move)
    | Crash(run: nat)
    | Approve(action: Approvals.Action)
    | Append(eventId: string, event: Event)
    | Recover(cleanup: Limiter.Event)
    | Tick(to: real)

  function ApprovalSystem(s: System): Approvals.System {
    Approvals.System(s.db.approvals, s.ops)
  }

  // The clock reading an action carries. It was taken no later than now.
  function StampOf(act: Act): Option<real> {
    match act
    case Rule(at) => Some(at)
    case Snapshot(at) => Some(at)
    case CheckGrant(at) => Some(at)
    case Ensure(at) => Some(at)
    case AskStore(_, at) => Some(at)
    case Acquire(at) => Some(at)
    case _ => None
  }

  predicate Stamped(m: Move, now: real) {
    match m
    case Do(act) => StampOf(act).Some? ==> StampOf(act).value <= now
    case Lose(act) => StampOf(act).Some? ==> StampOf(act).value <= now
    case Fault(_, at) => at <= now
  }

  function NewCalls(i: nat, m: Move, r: Run): seq<ToolCall> {
    if m == Do(Invoke) then [ToolCall(i, r)] else []
  }

  function NewLeaseIds(m: Move): set<string> {
    if m.Do? && m.act.ChooseLease? then {m.act.leaseId} else {}
  }

  // The limiter transaction a move commits, if it commits one.
  function NewEvents(cfg: Config, m: Move, r: Run): seq<Limiter.Event>
    requires Equipped(cfg, r)
  {
    if m.Fault? then []
    else if m.act.Acquire? && r.pc == AT_LEASE_CHOSEN then [Limiter.Ask(LeaseRequest(cfg, r), m.act.at)]
    else if m.act.Release? && r.holds.leaseId.Some? then [Limiter.Return(r.holds.leaseId.value)]
    else []
  }

  // Every run has a configuration of its own: actor, policy, tools, limits, schemas and
  // risk tables are those its process loaded.
  type Configs = nat -> Config

  // All processes digest and print alike and know the same signatures.
  ghost predicate Alike(a: Config, b: Config) {
    a.hash == b.hash && a.json == b.json && a.signatures == b.signatures
  }

  // The configuration of run 0 stands for what all have in common.
  ghost predicate ValidConfigs(cfgs: Configs) {
    forall i :: ValidConfig(cfgs(i)) && Alike(cfgs(i), cfgs(0))
  }

  ghost predicate Next(cfgs: Configs, s: System, a: Action, s': System)
    requires ValidConfigs(cfgs)
  {
    match a
    case Begin(i, q) => i !in s.runs && s' == s.(runs := s.runs[i := Fresh(q)])
    case Advance(i, m) => Moves(cfgs, s, i, m, s')
    case Crash(i) => i in s.runs && s' == s.(crashed := s.crashed + {i})
    case Approve(a) =>
      && !a.Request?          // only runs file requests
      && Approvals.Next(ApprovalSystem(s), a, ApprovalSystem(s'))
      && s' == s.(db := s.db.(approvals := s'.db.approvals), ops := s'.ops)
    case Append(id, e) => CleanEvent(cfgs(0), e) && s' == s.(db := AppendEvent(cfgs(0), s.db, id, e))
    case Recover(e) =>
      && Limiter.Cleanup(e) && e.at <= s.now
      && s' == s.(db := s.db.(limiter := Limiter.Step(s.db.limiter, e)), events := s.events + [e])
    case Tick(to) => s.now <= to && s' == s.(now := to)
  }

  // One step of one run that has not crashed. Lease ids are never handed out twice.
  ghost predicate Moves(cfgs: Configs, s: System, i: nat, m: Move, s': System)
    requires ValidConfigs(cfgs)
  {
    && i in s.runs && i !in s.crashed && i in s'.runs
    && Step(cfgs(i), m, s.runs[i], s.db, s'.runs[i], s'.db)
    && Stamped(m, s.now)
    && NewLeaseIds(m) !! s.leaseIds
    && s' == s.(db := s'.db, runs := s.runs[i := s'.runs[i]], calls := s.calls + NewCalls(i, m, s.runs[i]),
                leaseIds := s.leaseIds + NewLeaseIds(m), events := s.events + NewEvents(cfgs(i), m, s.runs[i]))
  }

  /* ---------- the store and the approvals ---------- */

  // The approvals table changes only when the run files a new pending record.
  lemma ActApprovals(cfg: Config, act: Act, r: Run, db: Db, ops: map<nat, Approvals.Op>)
    requires ValidConfig(cfg) && Equipped(cfg, r) && Enabled(cfg, act, r, db)
    requires Approvals.Inv(Approvals.System(db.approvals, ops))
    ensures Approvals.Inv(Approvals.System(NewDb(cfg, act, r, db).approvals, ops))
  {
    hide Approvals.Inv, Limiter.Acquire, CleanEvent, Findings.Evaluate;
    var before := Approvals.System(db.approvals, ops);
    var after := Approvals.System(NewDb(cfg, act, r, db).approvals, ops);
    if act.AskStore? {
      Approvals.StepKeeps(before, Approvals.Request(act.approvalId, NewApproval(cfg, r, act.at)), after);
    } else {
      assert after == before;
    }
  }

  lemma MoveApprovals(cfg: Config, m: Move, r: Run, db: Db, r': Run, db': Db, ops: map<nat, Approvals.Op>)
    requires ValidConfig(cfg) && Step(cfg, m, r, db, r', db')
    requires Approvals.Inv(Approvals.System(db.approvals, ops))
    ensures Approvals.Inv(Approvals.System(db'.approvals, ops))
  {
    hide Approvals.Inv, Enabled, NewDb, NewRun, MayRaise, Fail;
    match m {
      case Do(act) => ActApprovals(cfg, act, r, db, ops);
      case Lose(act) => ActApprovals(cfg, act, r, db, ops);
      case Fault(_, _) =>
    }
  }

  // Every step of anybody changes the store only in the ways all others allow for.
  lemma NextEvolves(cfgs: Configs, s: System, a: Action, s': System)
    requires ValidConfigs(cfgs) && Next(cfgs, s, a, s') && Approvals.Inv(ApprovalSystem(s))
    ensures Evolves(s.db, s'.db)
    ensures Approvals.Inv(ApprovalSystem(s'))
  {
    hide Step, Approvals.Inv, Approvals.Next, Approvals.Evolves;
    match a {
      case Begin(_, _) => EvolvesLimiter(s.db, s.db.limiter);
      case Crash(_) => EvolvesLimiter(s.db, s.db.limiter);
      case Tick(_) => EvolvesLimiter(s.db, s.db.limiter);
      case Recover(e) => EvolvesLimiter(s.db, s'.db.limiter);
      case Append(id, e) => EvolvesAudit(cfgs(0), s.db, id, e);
      case Approve(b) => Approvals.StepKeeps(ApprovalSystem(s), b, ApprovalSystem(s'));
      case Advance(i, m) =>
        StepEvolves(cfgs(i), m, s.runs[i], s.db, s'.runs[i], s'.db);
        MoveApprovals(cfgs(i), m, s.runs[i], s.db, s'.runs[i], s'.db, s.ops);
    }
  }

  /* ---------- the runs ---------- */

  ghost predicate RunsOk(cfgs: Configs, runs: map<nat, Run>, db: Db)
    requires ValidConfigs(cfgs)
  {
    forall i | i in runs :: RunOk(cfgs(i), runs[i], db)
  }

  lemma RunStable(cfg: Config, r: Run, db: Db, db': Db)
    requires ValidConfig(cfg) && RunOk(cfg, r, db) && Evolves(db, db')
    ensures RunOk(cfg, r, db')
  {
    hide PointOk, Facts, Evolves;
    FactsStable(cfg, r, db, db');
  }

  lemma InvProper(s: System)
    requires Approvals.Inv(ApprovalSystem(s))
    ensures ProperTable(s.db.approvals)
  {
    hide Approvals.Proper, Approvals.OpOk, Approvals.Rivals;
  }

  // Every run is where its holds say.
  lemma RunsHold(cfgs: Configs, runs: map<nat, Run>, db: Db)
    requires ValidConfigs(cfgs) && RunsOk(cfgs, runs, db)
    ensures forall i | i in runs :: HoldsOk(runs[i].pc, runs[i].holds) && runs[i].pc <= RETURNED
  {
    hide Facts, LifeOk, StepsOk, DecisionsOk, WorkOk, HoldsOk;
    forall i | i in runs ensures HoldsOk(runs[i].pc, runs[i].holds) && runs[i].pc <= RETURNED {
      assert RunOk(cfgs(i), runs[i], db);
    }
  }

  lemma RunsKept(cfgs: Configs, s: System, a: Action, s': System)
    requires ValidConfigs(cfgs) && Next(cfgs, s, a, s') && Approvals.Inv(ApprovalSystem(s))
    requires RunsOk(cfgs, s.runs, s.db)
    ensures RunsOk(cfgs, s'.runs, s'.db)
  {
    hide Step, RunOk, Evolves, Approvals.Inv, Approvals.Next, ProperTable, CleanEvent, Stamped, AppendEvent, NewEvents,
         Limiter.Step;
    InvProper(s);
    NextEvolves(cfgs, s, a, s');
    forall i | i in s'.runs ensures RunOk(cfgs(i), s'.runs[i], s'.db) {
      if a.Advance? && a.run == i {
        StepKeepsRun(cfgs(i), a.move, s.runs[i], s.db, s'.runs[i], s'.db);
      } else if i in s.runs {
        RunStable(cfgs(i), s.runs[i], s.db, s'.db);
      } else {
        FreshOk(cfgs(i), a.request, s'.db);
      }
    }
  }

  // Only the run an action is about changes, and it keeps its request.
  lemma OthersStay(cfgs: Configs, s: System, a: Action, s': System, i: nat)
    requires ValidConfigs(cfgs) && Next(cfgs, s, a, s') && i in s.runs
    ensures i in s'.runs && s'.runs[i].request == s.runs[i].request
    ensures !(a.Advance? && a.run == i) ==> s'.runs[i] == s.runs[i]
    ensures s.runs[i].pc <= s'.runs[i].pc
  {
    hide Enabled, NewLife, NewChecks, NewHolds, NewTrail, NewWork, NewDb, MayRaise, CleanEvent, Approvals.Next;
    if a.Advance? && a.run == i {
      PcAdvances(cfgs(i), a.move, s.runs[i], s.db, s'.runs[i], s'.db);
    }
  }

  /* ---------- at most one run owns a request id ---------- */

  ghost predicate OwnersOk(runs: map<nat, Run>) {
    forall i, j | i in runs && j in runs && runs[i].holds.reserved && runs[j].holds.reserved
                  && runs[i].request.id == runs[j].request.id :: i == j
  }

  // A reservation succeeds only on an id no run owns.
  lemma ReserveFresh(cfg: Config, r: Run, db: Db, r': Run, db': Db)
    requires ValidConfig(cfg) && Step(cfg, Do(Reserve), r, db, r', db')
    ensures !Taken(db, r.request.id)
  {
  }

  lemma OwnersKept(cfgs: Configs, s: System, a: Action, s': System)
    requires ValidConfigs(cfgs) && Next(cfgs, s, a, s')
    requires RunsOk(cfgs, s.runs, s.db) && OwnersOk(s.runs)
    ensures OwnersOk(s'.runs)
  {
    hide Step, PointOk, TrailOk, GrantFact, ApprovalFact, EvidenceFact, Approvals.Next, CleanEvent, Stamped, AppendEvent, Taken;
    if a.Advance? {
      var i, m := a.run, a.move;
      PcAdvances(cfgs(i), m, s.runs[i], s.db, s'.runs[i], s'.db);
      if m == Do(Reserve) {
        ReserveFresh(cfgs(i), s.runs[i], s.db, s'.runs[i], s'.db);
        forall j | j in s.runs && s.runs[j].holds.reserved ensures s.runs[j].request.id != s.runs[i].request.id {
          assert RunOk(cfgs(j), s.runs[j], s.db);
        }
      }
    }
  }

  /* ---------- reservations and results ---------- */

  predicate Disjoint(db: Db) {
    forall id | id in db.reservations :: id !in db.results
  }

  lemma ActDisjoint(cfg: Config, act: Act, r: Run, db: Db)
    requires ValidConfig(cfg) && Equipped(cfg, r) && Enabled(cfg, act, r, db) && Disjoint(db)
    ensures Disjoint(NewDb(cfg, act, r, db))
  {
    hide Limiter.Acquire, CleanEvent, Findings.Evaluate;
  }

  lemma DisjointKept(cfgs: Configs, s: System, a: Action, s': System)
    requires ValidConfigs(cfgs) && Next(cfgs, s, a, s') && Disjoint(s.db)
    ensures Disjoint(s'.db)
  {
    hide Enabled, NewDb, NewRun, MayRaise, Fail, CleanEvent, Approvals.Next, Limiter.Step;
    if a.Advance? && !a.move.Fault? {
      ActDisjoint(cfgs(a.run), a.move.act, s.runs[a.run], s.db);
    }
  }

  /* ---------- the audit table ---------- */

  ghost predicate AuditOk(cfg: Config, audit: AuditChain.Table) {
    && AuditChain.Verifies(cfg.hash, audit)
    && forall i | 0 <= i < |audit| :: CleanRow(cfg, audit[i])
  }

  lemma AppendOk(cfg: Config, db: Db, eventId: string, e: Event)
    requires AuditOk(cfg, db.audit) && CleanEvent(cfg, e)
    ensures AuditOk(cfg, AppendEvent(cfg, db, eventId, e).audit)
  {
    hide CleanEvent, AuditChain.Verifies;
    AuditChain.AppendVerifies(cfg.hash, db.audit, eventId, cfg.json(e));
    var audit' := AppendEvent(cfg, db, eventId, e).audit;
    forall i | 0 <= i < |audit'| ensures CleanRow(cfg, audit'[i]) {
      if i < |db.audit| {
        assert CleanRow(cfg, db.audit[i]);
      }
    }
  }

  lemma ActAudit(cfg: Config, act: Act, r: Run, db: Db)
    requires ValidConfig(cfg) && Equipped(cfg, r) && Enabled(cfg, act, r, db) && AuditOk(cfg, db.audit)
    ensures AuditOk(cfg, NewDb(cfg, act, r, db).audit)
  {
    hide CleanEvent, AuditOk, AppendEvent, Limiter.Acquire, Findings.Evaluate;
    if act.Log? {
      AppendOk(cfg, db, act.eventId, Event(r.request.id, LogAt(r.pc, DecisionOf(r.checks)).value, act.fields));
    } else if act.AskLog? {
      AppendOk(cfg, db, act.eventId, Event(r.request.id, Other("APPROVAL_REQUESTED"), act.fields));
    }
  }

  lemma AuditAlike(a: Config, b: Config, audit: AuditChain.Table)
    requires AuditOk(a, audit) && Alike(a, b)
    ensures AuditOk(b, audit)
  {
    forall i | 0 <= i < |audit| ensures CleanRow(b, audit[i]) {
      assert CleanRow(a, audit[i]);
      var e: Event :| audit[i].data == a.json(e) && CleanEvent(a, e);
      assert CleanEvent(b, e);
    }
  }

  lemma AuditKept(cfgs: Configs, s: System, a: Action, s': System)
    requires ValidConfigs(cfgs) && Next(cfgs, s, a, s') && AuditOk(cfgs(0), s.db.audit)
    ensures AuditOk(cfgs(0), s'.db.audit)
  {
    hide Enabled, NewDb, NewRun, MayRaise, Fail, CleanEvent, AuditOk, AppendEvent, Approvals.Next, Limiter.Step;
    if a.Append? {
      AppendOk(cfgs(0), s.db, a.eventId, a.event);
    } else if a.Advance? && !a.move.Fault? {
      AuditAlike(cfgs(0), cfgs(a.run), s.db.audit);
      ActAudit(cfgs(a.run), a.move.act, s.runs[a.run], s.db);
      AuditAlike(cfgs(a.run), cfgs(0), s'.db.audit);
    }
  }

  /* ---------- the findings ---------- */

  lemma FindingsAlike(a: Config, b: Config, db: Db)
    requires FindingsSound(a, db) && Alike(a, b)
    ensures FindingsSound(b, db)
  {
    forall id | id in db.findings ensures Findings.Sound(b, db.findings[id], db.evidence) {
      SoundAlike(a, b, db.findings[id], db.evidence);
    }
  }

  lemma SoundAlike(a: Config, b: Config, f: Finding, evidence: map<string, Evidence>)
    requires Findings.Sound(a, f, evidence) && Alike(a, b)
    ensures Findings.Sound(b, f, evidence)
  {
    forall i | 0 <= i < |f.evidenceIds| ensures Findings.EvidenceLinked(b, f, f.evidenceIds[i], evidence) {
      assert Findings.EvidenceLinked(a, f, f.evidenceIds[i], evidence);
    }
  }

  lemma FindingsStay(cfgs: Configs, s: System, a: Action, s': System)
    requires ValidConfigs(cfgs) && Next(cfgs, s, a, s')
    requires RunsOk(cfgs, s.runs, s.db) && FindingsSound(cfgs(0), s.db)
    ensures FindingsSound(cfgs(0), s'.db)
  {
    hide Step, RunOk, Findings.Sound, Approvals.Next, CleanEvent, Stamped;
    if a.Advance? {
      FindingsAlike(cfgs(0), cfgs(a.run), s.db);
      StepKeepsFindings(cfgs(a.run), a.move, s.runs[a.run], s.db, s'.runs[a.run], s'.db);
      FindingsAlike(cfgs(a.run), cfgs(0), s'.db);
    }
  }

  /* ---------- the tool calls ---------- */

  ghost predicate CallOk(cfgs: Configs, c: ToolCall, runs: map<nat, Run>, db: Db)
    requires ValidConfigs(cfgs)
  {
    && c.run in runs && runs[c.run].request == c.before.request
    && runs[c.run].holds.reserved && runs[c.run].pc > AT_LAUNCH
    && runs[c.run].holds.leaseId == c.before.holds.leaseId
    && c.before.pc == AT_LAUNCH && RunOk(cfgs(c.run), c.before, db)
  }

  ghost predicate CallsOk(cfgs: Configs, calls: seq<ToolCall>, runs: map<nat, Run>, db: Db)
    requires ValidConfigs(cfgs)
  {
    && (forall k | 0 <= k < |calls| :: CallOk(cfgs, calls[k], runs, db))
    && (forall k, l | 0 <= k < l < |calls| :: calls[k].run != calls[l].run)
  }

  // A run that has chosen its lease id keeps it.
  lemma LeaseSettles(cfg: Config, m: Move, r: Run, db: Db, r': Run, db': Db)
    requires ValidConfig(cfg) && Step(cfg, m, r, db, r', db') && r.pc > AT_PRECONDITIONS
    ensures r'.holds.leaseId == r.holds.leaseId
  {
    hide Guard, NewLife, NewChecks, NewTrail, NewWork, NewDb, Refuses, Handled, FinallyFailed;
  }

  lemma CallStays(cfgs: Configs, s: System, a: Action, s': System, c: ToolCall)
    requires ValidConfigs(cfgs) && Next(cfgs, s, a, s') && Approvals.Inv(ApprovalSystem(s))
    requires CallOk(cfgs, c, s.runs, s.db)
    ensures CallOk(cfgs, c, s'.runs, s'.db)
  {
    hide Step, RunOk, Approvals.Inv, Approvals.Next, CleanEvent, Stamped, Evolves, AppendEvent;
    NextEvolves(cfgs, s, a, s');
    RunStable(cfgs(c.run), c.before, s.db, s'.db);
    OthersStay(cfgs, s, a, s', c.run);
    if a.Advance? && a.run == c.run {
      PcAdvances(cfgs(a.run), a.move, s.runs[a.run], s.db, s'.runs[a.run], s'.db);
      LeaseSettles(cfgs(a.run), a.move, s.runs[a.run], s.db, s'.runs[a.run], s'.db);
    }
  }

  lemma LaunchHolds(cfgs: Configs, s: System, i: nat, s': System)
    requires ValidConfigs(cfgs) && Moves(cfgs, s, i, Do(Invoke), s') && RunsOk(cfgs, s.runs, s.db)
    ensures s.runs[i].pc == AT_LAUNCH && s'.runs[i].pc == IN_TOOL
    ensures s.runs[i].holds.reserved && s'.runs[i].holds.reserved && s'.runs[i].request == s.runs[i].request
    ensures s'.runs[i].holds.leaseId == s.runs[i].holds.leaseId
  {
    hide NewLife, NewChecks, NewTrail, NewWork, NewDb, Guard, Facts, LifeOk, StepsOk, DecisionsOk, WorkOk, Stamped;
    assert RunOk(cfgs(i), s.runs[i], s.db);
  }

  lemma CallMade(cfgs: Configs, s: System, i: nat, s': System)
    requires ValidConfigs(cfgs) && Next(cfgs, s, Advance(i, Do(Invoke)), s') && Approvals.Inv(ApprovalSystem(s))
    requires RunsOk(cfgs, s.runs, s.db)
    ensures CallOk(cfgs, ToolCall(i, s.runs[i]), s'.runs, s'.db)
    ensures s.runs[i].pc == AT_LAUNCH
  {
    hide Step, RunOk, Approvals.Inv, Approvals.Next, CleanEvent, Stamped, Evolves, AppendEvent, NewEvents, Limiter.Step;
    LaunchHolds(cfgs, s, i, s');
    NextEvolves(cfgs, s, Advance(i, Do(Invoke)), s');
    RunStable(cfgs(i), s.runs[i], s.db, s'.db);
  }

  lemma CallsKept(cfgs: Configs, s: System, a: Action, s': System)
    requires ValidConfigs(cfgs) && Next(cfgs, s, a, s') && Approvals.Inv(ApprovalSystem(s))
    requires RunsOk(cfgs, s.runs, s.db) && CallsOk(cfgs, s.calls, s.runs, s.db)
    ensures CallsOk(cfgs, s'.calls, s'.runs, s'.db)
  {
    hide Step, CallOk, RunsOk, Approvals.Inv, Approvals.Next, CleanEvent, Stamped, AppendEvent;
    forall k | 0 <= k < |s.calls| ensures CallOk(cfgs, s.calls[k], s'.runs, s'.db) {
      CallStays(cfgs, s, a, s', s.calls[k]);
    }
    if a.Advance? && a.move == Do(Invoke) {
      CallMade(cfgs, s, a.run, s');
      forall k | 0 <= k < |s.calls| ensures s.calls[k].run != a.run {
        CalledRunsAreLater(cfgs, s.calls[k], s.runs, s.db);
      }
    }
  }

  lemma CalledRunsAreLater(cfgs: Configs, c: ToolCall, runs: map<nat, Run>, db: Db)
    requires ValidConfigs(cfgs) && CallOk(cfgs, c, runs, db)
    ensures c.run in runs && runs[c.run].pc > AT_LAUNCH && runs[c.run].holds.reserved
    ensures runs[c.run].request == c.before.request
  {
  }

  /* ---------- the limiter ---------- */

  // The limiter tables after these transactions.
  function Replay(events: seq<Limiter.Event>): Limiter.Tables {
    Limiter.After(Limiter.Tables([], []), events)
  }

  lemma ReplayMore(events: seq<Limiter.Event>, e: Limiter.Event)
    ensures Replay(events + [e]) == Limiter.Step(Replay(events), e)
  {
    Limiter.AfterSnoc(Limiter.Tables([], []), events, e);
  }

  // What a move does to the limiter is the one transaction it is recorded with.
  lemma MoveLimiter(cfg: Config, m: Move, r: Run, db: Db, r': Run, db': Db)
    requires ValidConfig(cfg) && Step(cfg, m, r, db, r', db')
    ensures Equipped(cfg, r)
    ensures NewEvents(cfg, m, r) == [] ==> db'.limiter == db.limiter
    ensures |NewEvents(cfg, m, r)| <= 1
    ensures NewEvents(cfg, m, r) != [] ==> db'.limiter == Limiter.Step(db.limiter, NewEvents(cfg, m, r)[0])
  {
    hide CleanEvent, Findings.Evaluate, Limiter.Acquire, Limiter.Release, NewRun, MayRaise, Fail;
  }

  lemma LimiterKept(cfgs: Configs, s: System, a: Action, s': System)
    requires ValidConfigs(cfgs) && Next(cfgs, s, a, s') && s.db.limiter == Replay(s.events)
    ensures s'.db.limiter == Replay(s'.events)
  {
    hide Step, CleanEvent, Approvals.Next, Limiter.Step, Stamped, NewEvents;
    if a.Recover? {
      ReplayMore(s.events, a.cleanup);
    } else if a.Advance? {
      var r := s.runs[a.run];
      MoveLimiter(cfgs(a.run), a.move, r, s.db, s'.runs[a.run], s'.db);
      var e := NewEvents(cfgs(a.run), a.move, r);
      if e == [] {
        assert s.events + e == s.events;
      } else {
        assert e == [e[0]];
        ReplayMore(s.events, e[0]);
      }
    }
  }

  /* ---------- the leases ---------- */

  ghost predicate HasLease(leases: seq<Limiter.Lease>, id: string, expires: real) {
    exists l :: l in leases && l.id == id && l.expires == expires
  }

  ghost predicate NoLease(leases: seq<Limiter.Lease>, id: string) {
    forall l | l in leases :: l.id != id
  }

  // From admission to release a run's lease is in the table until it expires; once it
  // has been released, it is gone.
  ghost predicate LeaseOk(r: Run, leases: seq<Limiter.Lease>, now: real) {
    && (AT_LEASED <= r.pc <= AT_CLEANUP && r.holds.executionId.Some? && now <= r.holds.leaseExpires ==>
          HasLease(leases, r.holds.executionId.value, r.holds.leaseExpires))
    && (r.pc > AT_CLEANUP && r.holds.leaseId.Some? && !ReleaseFailed(r) ==> NoLease(leases, r.holds.leaseId.value))
  }

  predicate ReleaseFailed(r: Run) {
    r.life.escaping || r.life.error == Some(LeaseCleanupFailed) || r.life.error == Some(AuditFailure)
  }

  ghost predicate LeaseIdsOk(runs: map<nat, Run>, leaseIds: set<string>) {
    && (forall i | i in runs && runs[i].holds.leaseId.Some? :: runs[i].holds.leaseId.value in leaseIds)
    && (forall i, j | i in runs && j in runs && i != j && runs[i].holds.leaseId.Some? ::
          runs[i].holds.leaseId != runs[j].holds.leaseId)
  }

  lemma MoveHolds(cfg: Config, m: Move, r: Run, db: Db, r': Run, db': Db)
    requires ValidConfig(cfg) && Step(cfg, m, r, db, r', db')
    ensures if m.Do? && m.act.ChooseLease? then r'.holds.leaseId == Some(m.act.leaseId)
            else r'.holds.leaseId == r.holds.leaseId
  {
    hide CleanEvent, Findings.Evaluate, Limiter.Acquire, Guard, NewChecks, NewWork, NewLife, NewTrail, NewDb,
         Refuses, Handled, FinallyFailed;
  }

  lemma LeaseIdsKept(cfgs: Configs, s: System, a: Action, s': System)
    requires ValidConfigs(cfgs) && Next(cfgs, s, a, s') && LeaseIdsOk(s.runs, s.leaseIds)
    ensures LeaseIdsOk(s'.runs, s'.leaseIds)
  {
    hide Step, CleanEvent, Approvals.Next, Limiter.Step, Stamped, NewEvents, AppendEvent;
    if a.Advance? {
      MoveHolds(cfgs(a.run), a.move, s.runs[a.run], s.db, s'.runs[a.run], s'.db);
    }
  }

  // A transaction of somebody else, stamped no later than now, leaves a run's lease alone.
  lemma LeaseStable(r: Run, tb: Limiter.Tables, e: Limiter.Event, now: real)
    requires LeaseOk(r, tb.leases, now)
    requires e.Ask? ==> r.holds.leaseId != Some(e.request.leaseId)
    requires e.Return? ==> r.holds.leaseId != Some(e.leaseId)
    requires !e.Return? ==> e.at <= now
    requires HoldsOk(r.pc, r.holds)
    ensures LeaseOk(r, Limiter.Step(tb, e).leases, now)
  {
    hide Limiter.Step;
    var after := Limiter.Step(tb, e).leases;
    if AT_LEASED <= r.pc <= AT_CLEANUP && r.holds.executionId.Some? && now <= r.holds.leaseExpires {
      var l :| l in tb.leases && l.id == r.holds.executionId.value && l.expires == r.holds.leaseExpires;
      Limiter.StepKeepsLease(tb, e, l);
    }
    if r.pc > AT_CLEANUP && r.holds.leaseId.Some? && !ReleaseFailed(r) {
      forall l | l in after ensures l.id != r.holds.leaseId.value {
        Limiter.StepLeases(tb, e, l);
      }
    }
  }

  lemma LeaseLater(r: Run, leases: seq<Limiter.Lease>, now: real, later: real)
    requires LeaseOk(r, leases, now) && now <= later
    ensures LeaseOk(r, leases, later)
  {
  }

  // The run's own admission and release.
  lemma OwnAdmission(cfg: Config, r: Run, db: Db, at: real, now: real)
    requires ValidConfig(cfg) && Equipped(cfg, r) && Enabled(cfg, Acquire(at), r, db)
    ensures LeaseOk(NewRun(cfg, Acquire(at), r, db), NewDb(cfg, Acquire(at), r, db).limiter.leases, now)
  {
    var q := LeaseRequest(cfg, r);
    assert Limiter.LeaseOf(q, at) in Limiter.Acquire(db.limiter, q, at).1.leases by {
      hide Limiter.Prune, Limiter.Judge, Enabled;
      assert Limiter.Acquire(db.limiter, q, at).0 == Limiter.Admitted by { AdmittedNow(cfg, r, db, at); }
    }
    hide Limiter.Acquire, Limiter.Prune, Limiter.Judge;
  }

  lemma AdmittedNow(cfg: Config, r: Run, db: Db, at: real)
    requires ValidConfig(cfg) && Equipped(cfg, r) && Enabled(cfg, Acquire(at), r, db)
    ensures Limiter.Acquire(db.limiter, LeaseRequest(cfg, r), at).0 == Limiter.Admitted
  {
  }

  lemma OwnRelease(cfg: Config, r: Run, db: Db, now: real)
    requires ValidConfig(cfg) && Equipped(cfg, r) && Enabled(cfg, Release, r, db)
    ensures LeaseOk(NewRun(cfg, Release, r, db), NewDb(cfg, Release, r, db).limiter.leases, now)
  {
    if r.holds.leaseId.Some? {
      var id := r.holds.leaseId.value;
      forall l | l in Limiter.Release(db.limiter, id).leases ensures l.id != id {
        Limiter.StepLeases(db.limiter, Limiter.Return(id), l);
      }
    }
  }

  lemma OwnOther(cfg: Config, act: Act, r: Run, db: Db, now: real)
    requires ValidConfig(cfg) && Equipped(cfg, r) && Enabled(cfg, act, r, db) && HoldsOk(r.pc, r.holds)
    requires !act.Acquire? && !act.Release? && LeaseOk(r, db.limiter.leases, now)
    ensures LeaseOk(NewRun(cfg, act, r, db), NewDb(cfg, act, r, db).limiter.leases, now)
  {
    hide CleanEvent, Findings.Evaluate, NewChecks, NewWork, NewTrail, HasLease, NoLease;
  }

  lemma OwnFailure(r: Run, f: Models.Fault, leases: seq<Limiter.Lease>, now: real)
    requires LeaseOk(r, leases, now) && HoldsOk(r.pc, r.holds) && r.pc < RETURNED
    ensures LeaseOk(Fail(r, f), leases, now)
  {
    hide HasLease, NoLease;
  }

  // A failing release or final step excuses the lease; a lost admission is excused
  // until the release.
  lemma OwnLoss(cfg: Config, act: Act, r: Run, db: Db, now: real)
    requires ValidConfig(cfg) && Equipped(cfg, r) && Enabled(cfg, act, r, db) && HoldsOk(r.pc, r.holds)
    requires LeaseOk(r, db.limiter.leases, now) && Commits(act, r)
    ensures LeaseOk(Fail(r, StoreError), NewDb(cfg, act, r, db).limiter.leases, now)
  {
    hide CleanEvent, Findings.Evaluate, HasLease, NoLease, Limiter.Acquire, Limiter.Release;
  }

  lemma OwnMove(cfg: Config, m: Move, r: Run, db: Db, r': Run, db': Db, now: real)
    requires ValidConfig(cfg) && Step(cfg, m, r, db, r', db') && HoldsOk(r.pc, r.holds)
    requires LeaseOk(r, db.limiter.leases, now)
    ensures LeaseOk(r', db'.limiter.leases, now)
  {
    hide Enabled, NewRun, NewDb, Fail, Refuses, LeaseOk, HoldsOk;
    match m {
      case Do(act) =>
        if act.Acquire? {
          OwnAdmission(cfg, r, db, act.at, now);
        } else if act.Release? {
          OwnRelease(cfg, r, db, now);
        } else {
          OwnOther(cfg, act, r, db, now);
        }
      case Lose(act) => OwnLoss(cfg, act, r, db, now);
      case Fault(f, at) => OwnFailure(r, f, db.limiter.leases, now);
    }
  }

  ghost predicate LeasesOk(s: System) {
    forall i | i in s.runs :: LeaseOk(s.runs[i], s.db.limiter.leases, s.now)
  }

  lemma EventOfMove(cfg: Config, m: Move, r: Run, db: Db, r': Run, db': Db, now: real)
    requires ValidConfig(cfg) && Step(cfg, m, r, db, r', db') && Stamped(m, now) && NewEvents(cfg, m, r) != []
    ensures var e := NewEvents(cfg, m, r)[0];
            && r.holds.leaseId.Some?
            && (e.Ask? ==> e.request.leaseId == r.holds.leaseId.value && e.at <= now)
            && (e.Return? ==> e.leaseId == r.holds.leaseId.value)
            && !Limiter.Cleanup(e)
  {
    hide Enabled, NewRun, NewDb, Fail, Refuses;
  }

  lemma OtherLeaseKept(cfgs: Configs, s: System, a: Action, s': System, i: nat)
    requires ValidConfigs(cfgs) && Next(cfgs, s, a, s') && LeaseIdsOk(s.runs, s.leaseIds)
    requires i in s.runs && !(a.Advance? && a.run == i)
    requires LeaseOk(s.runs[i], s.db.limiter.leases, s.now) && HoldsOk(s.runs[i].pc, s.runs[i].holds)
    ensures LeaseOk(s.runs[i], s'.db.limiter.leases, s'.now)
  {
    hide Step, CleanEvent, Approvals.Next, Limiter.Step, Stamped, NewEvents, LeaseOk, HoldsOk;
    if a.Tick? {
      LeaseLater(s.runs[i], s.db.limiter.leases, s.now, s'.now);
    } else if a.Recover? {
      LeaseStable(s.runs[i], s.db.limiter, a.cleanup, s.now);
    } else if a.Advance? {
      var r := s.runs[a.run];
      MoveLimiter(cfgs(a.run), a.move, r, s.db, s'.runs[a.run], s'.db);
      if NewEvents(cfgs(a.run), a.move, r) != [] {
        EventOfMove(cfgs(a.run), a.move, r, s.db, s'.runs[a.run], s'.db, s.now);
        LeaseStable(s.runs[i], s.db.limiter, NewEvents(cfgs(a.run), a.move, r)[0], s.now);
      }
    }
  }

  lemma LeasesKept(cfgs: Configs, s: System, a: Action, s': System)
    requires ValidConfigs(cfgs) && Next(cfgs, s, a, s') && LeaseIdsOk(s.runs, s.leaseIds)
    requires RunsOk(cfgs, s.runs, s.db) && LeasesOk(s)
    ensures LeasesOk(s')
  {
    hide Step, CleanEvent, Approvals.Next, Limiter.Step, Stamped, NewEvents, LeaseOk, HoldsOk, RunsOk, AppendEvent;
    RunsHold(cfgs, s.runs, s.db);
    forall i | i in s'.runs ensures LeaseOk(s'.runs[i], s'.db.limiter.leases, s'.now) {
      if a.Advance? && a.run == i {
        OwnMove(cfgs(i), a.move, s.runs[i], s.db, s'.runs[i], s'.db, s.now);
      } else if i in s.runs {
        OtherLeaseKept(cfgs, s, a, s', i);
      } else {
        FreshLease(a.request, s'.db.limiter.leases, s'.now);
      }
    }
  }

  lemma FreshLease(q: Request, leases: seq<Limiter.Lease>, now: real)
    ensures LeaseOk(Fresh(q), leases, now)
  {
  }

  /* ---------- admissions and the lease bound ---------- */

  // The n-th limiter transaction admitted this run's lease.
  ghost predicate AdmittedBy(cfg: Config, r: Run, events: seq<Limiter.Event>, n: nat)
    requires r.checks.target.Some? && r.holds.leaseId.Some? && r.request.tool in cfg.registry
  {
    && n < |events|
    && events[n].Ask?
    && events[n].request == LeaseRequest(cfg, r)
    && Limiter.Acquire(Replay(events[..n]), events[n].request, events[n].at).0 == Limiter.Admitted
    && r.holds.leaseExpires == Limiter.LeaseOf(events[n].request, events[n].at).expires
  }

  ghost predicate AdmittedOk(cfg: Config, r: Run, events: seq<Limiter.Event>) {
    r.holds.executionId.Some? ==>
      && r.checks.target.Some? && r.holds.leaseId.Some? && r.request.tool in cfg.registry
      && exists n :: AdmittedBy(cfg, r, events, n)
  }

  lemma AdmittedStable(cfg: Config, r: Run, events: seq<Limiter.Event>, more: seq<Limiter.Event>)
    requires AdmittedOk(cfg, r, events)
    ensures AdmittedOk(cfg, r, events + more)
  {
    if r.holds.executionId.Some? {
      hide Limiter.Acquire;
      var n: nat :| AdmittedBy(cfg, r, events, n);
      assert (events + more)[..n] == events[..n];
      assert AdmittedBy(cfg, r, events + more, n);
    }
  }

  // What AdmittedOk depends on.
  lemma AdmittedSame(cfg: Config, r: Run, r': Run, events: seq<Limiter.Event>)
    requires AdmittedOk(cfg, r, events)
    requires r'.holds == r.holds && r'.checks.target == r.checks.target && r'.request == r.request
    ensures AdmittedOk(cfg, r', events)
  {
    if r.holds.executionId.Some? {
      hide Limiter.Acquire;
      var n: nat :| AdmittedBy(cfg, r, events, n);
      assert AdmittedBy(cfg, r', events, n);
    }
  }

  lemma ActAdmitted(cfg: Config, act: Act, r: Run, db: Db, events: seq<Limiter.Event>)
    requires ValidConfig(cfg) && Equipped(cfg, r) && Enabled(cfg, act, r, db) && HoldsOk(r.pc, r.holds)
    requires AdmittedOk(cfg, r, events) && db.limiter == Replay(events)
    ensures AdmittedOk(cfg, NewRun(cfg, act, r, db), events + NewEvents(cfg, Do(act), r))
  {
    var r' := NewRun(cfg, act, r, db);
    var more := NewEvents(cfg, Do(act), r);
    if act.Acquire? {
      AdmittedNow(cfg, r, db, act.at);
      hide Limiter.Acquire;
      assert (events + more)[..|events|] == events;
      assert AdmittedBy(cfg, r', events + more, |events|);
    } else if r.holds.executionId.Some? {
      SameHolds(cfg, act, r, db);
      hide AdmittedOk, NewRun, Enabled, NewEvents, HoldsOk;
      AdmittedSame(cfg, r, r', events);
      AdmittedStable(cfg, r', events, more);
    }
  }

  lemma SameHolds(cfg: Config, act: Act, r: Run, db: Db)
    requires ValidConfig(cfg) && Equipped(cfg, r) && Enabled(cfg, act, r, db) && HoldsOk(r.pc, r.holds)
    requires r.holds.executionId.Some?
    ensures var r' := NewRun(cfg, act, r, db);
            r'.holds == r.holds && r'.checks.target == r.checks.target && r'.request == r.request
  {
    hide Guard, NewLife, NewTrail, NewWork;
  }

  lemma MoveAdmitted(cfg: Config, m: Move, r: Run, db: Db, r': Run, db': Db, events: seq<Limiter.Event>)
    requires ValidConfig(cfg) && Step(cfg, m, r, db, r', db') && HoldsOk(r.pc, r.holds)
    requires AdmittedOk(cfg, r, events) && db.limiter == Replay(events)
    ensures AdmittedOk(cfg, r', events + NewEvents(cfg, m, r))
  {
    hide Enabled, NewRun, NewDb, Refuses, HoldsOk, AdmittedOk, NewEvents, Handled, FinallyFailed;
    match m {
      case Do(act) => ActAdmitted(cfg, act, r, db, events);
      case Lose(_) =>
        AdmittedSame(cfg, r, r', events);
        AdmittedStable(cfg, r', events, NewEvents(cfg, m, r));
      case Fault(_, _) =>
        AdmittedSame(cfg, r, r', events);
        AdmittedStable(cfg, r', events, NewEvents(cfg, m, r));
    }
  }

  ghost predicate AdmissionsOk(cfgs: Configs, s: System) {
    && (forall i | i in s.runs :: AdmittedOk(cfgs(i), s.runs[i], s.events))
    && (forall k | 0 <= k < |s.calls| :: AdmittedOk(cfgs(s.calls[k].run), s.calls[k].before, s.events))
  }

  // What happened so far stays on record.
  lemma EventsGrow(cfgs: Configs, s: System, a: Action, s': System)
    requires ValidConfigs(cfgs) && Next(cfgs, s, a, s')
    ensures exists more :: s'.events == s.events + more
  {
    hide Step, CleanEvent, Approvals.Next, Limiter.Step, Stamped, NewEvents, AppendEvent;
    if a.Recover? {
      assert s'.events == s.events + [a.cleanup];
    } else if a.Advance? {
      MoveLimiter(cfgs(a.run), a.move, s.runs[a.run], s.db, s'.runs[a.run], s'.db);
      assert s'.events == s.events + NewEvents(cfgs(a.run), a.move, s.runs[a.run]);
    } else {
      assert s'.events == s.events + [];
    }
  }

  lemma AdmissionsKept(cfgs: Configs, s: System, a: Action, s': System)
    requires ValidConfigs(cfgs) && Next(cfgs, s, a, s') && RunsOk(cfgs, s.runs, s.db)
    requires AdmissionsOk(cfgs, s) && s.db.limiter == Replay(s.events)
    ensures AdmissionsOk(cfgs, s')
  {
    hide Step, CleanEvent, Approvals.Next, Limiter.Step, Stamped, NewEvents, HoldsOk, RunsOk, AppendEvent, AdmittedOk;
    RunsHold(cfgs, s.runs, s.db);
    EventsGrow(cfgs, s, a, s');
    var more :| s'.events == s.events + more;
    forall i | i in s'.runs ensures AdmittedOk(cfgs(i), s'.runs[i], s'.events) {
      if a.Advance? && a.run == i {
        MoveAdmitted(cfgs(i), a.move, s.runs[i], s.db, s'.runs[i], s'.db, s.events);
      } else if i in s.runs {
        AdmittedStable(cfgs(i), s.runs[i], s.events, more);
      } else {
        FreshAdmitted(cfgs(i), a.request, s'.events);
      }
    }
    forall k | 0 <= k < |s'.calls| ensures AdmittedOk(cfgs(s'.calls[k].run), s'.calls[k].before, s'.events) {
      if k < |s.calls| {
        AdmittedStable(cfgs(s.calls[k].run), s.calls[k].before, s.events, more);
      } else {
        AdmittedStable(cfgs(a.run), s.runs[a.run], s.events, more);
      }
    }
  }

  lemma FreshAdmitted(cfg: Config, q: Request, events: seq<Limiter.Event>)
    ensures AdmittedOk(cfg, Fresh(q), events)
  {
  }

  predicate Bounded(max: nat, tb: Limiter.Tables) {
    |tb.leases| <= max && Limiter.UniqueIds(tb.leases)
  }

  // The concurrency limits of all runs so far are at most this.
  ghost predicate LimitedTo(cfgs: Configs, runs: map<nat, Run>, max: nat) {
    forall i | i in runs :: cfgs(i).maxConcurrent <= max
  }

  lemma MoveLimits(cfg: Config, m: Move, r: Run)
    requires Equipped(cfg, r)
    ensures forall e | e in NewEvents(cfg, m, r) && e.Ask? :: e.request.limits.maxConcurrent == cfg.maxConcurrent
  {
  }

  lemma BoundKept(cfgs: Configs, s: System, a: Action, s': System, max: nat)
    requires ValidConfigs(cfgs) && Next(cfgs, s, a, s') && Bounded(max, s.db.limiter) && LimitedTo(cfgs, s'.runs, max)
    ensures Bounded(max, s'.db.limiter)
  {
    hide Step, CleanEvent, Approvals.Next, Limiter.Step, Stamped, Limiter.UniqueIds;
    if a.Recover? {
      Limiter.LeaseBound(s.db.limiter, a.cleanup, max);
    } else if a.Advance? {
      var cfg, r := cfgs(a.run), s.runs[a.run];
      MoveLimiter(cfg, a.move, r, s.db, s'.runs[a.run], s'.db);
      var es := NewEvents(cfg, a.move, r);
      if es != [] {
        MoveLimits(cfg, a.move, r);
        Limiter.LeaseBound(s.db.limiter, es[0], max);
      }
    }
  }

  /* ---------- the persisted results ---------- */

  // A run that returned without a final failure returned what is stored.
  ghost predicate StoredOk(r: Run, db: Db) {
    r.pc == RETURNED && r.holds.reserved && !r.life.escaping && r.life.error != Some(AuditFailure) ==>
      r.request.id in db.results && db.results[r.request.id] == ResultOf(r)
  }

  ghost predicate AllStored(runs: map<nat, Run>, db: Db) {
    forall i | i in runs :: StoredOk(runs[i], db)
  }

  lemma MoveStored(cfg: Config, m: Move, r: Run, db: Db, r': Run, db': Db)
    requires ValidConfig(cfg) && Step(cfg, m, r, db, r', db') && r.pc <= RETURNED
    ensures StoredOk(r', db')
  {
    hide CleanEvent, Findings.Evaluate, Limiter.Acquire, NewChecks, NewTrail, Refuses, AppendEvent;
  }

  lemma StoredStable(r: Run, db: Db, db': Db)
    requires StoredOk(r, db) && Evolves(db, db')
    ensures StoredOk(r, db')
  {
    hide Approvals.Evolves;
  }

  // No stored result carries the error of a failing final step.
  predicate NoFinalFailure(db: Db) {
    forall id | id in db.results :: db.results[id].error != Some(AuditFailure)
  }

  lemma NoFinalFailureKept(cfgs: Configs, s: System, a: Action, s': System)
    requires ValidConfigs(cfgs) && Next(cfgs, s, a, s') && RunsOk(cfgs, s.runs, s.db) && NoFinalFailure(s.db)
    ensures NoFinalFailure(s'.db)
  {
    hide Enabled, NewDb, NewRun, MayRaise, Fail, PointOk, Facts, Approvals.Next, CleanEvent, Limiter.Step;
    forall id | id in s'.db.results ensures s'.db.results[id].error != Some(AuditFailure) {
      if a.Advance? && !a.move.Fault? {
        assert RunOk(cfgs(a.run), s.runs[a.run], s.db);
        NoFinalFailureStep(cfgs(a.run), a.move.act, s.runs[a.run], s.db, id);
      }
    }
  }

  lemma NoFinalFailureStep(cfg: Config, act: Act, r: Run, db: Db, id: string)
    requires ValidConfig(cfg) && Equipped(cfg, r) && Enabled(cfg, act, r, db) && NoFinalFailure(db)
    requires id in NewDb(cfg, act, r, db).results && PointOk(cfg, r)
    ensures NewDb(cfg, act, r, db).results[id].error != Some(AuditFailure)
  {
    hide CleanEvent, Findings.Evaluate, Limiter.Acquire, StepsOk, DecisionsOk, WorkOk, HoldsOk, EndOk;
  }

  lemma StoredKept(cfgs: Configs, s: System, a: Action, s': System)
    requires ValidConfigs(cfgs) && Next(cfgs, s, a, s') && Approvals.Inv(ApprovalSystem(s))
    requires RunsOk(cfgs, s.runs, s.db) && AllStored(s.runs, s.db)
    ensures AllStored(s'.runs, s'.db)
  {
    hide Step, RunsOk, Approvals.Inv, Approvals.Next, CleanEvent, Stamped, AppendEvent, StoredOk, Evolves, NewEvents,
         Limiter.Step;
    NextEvolves(cfgs, s, a, s');
    RunsHold(cfgs, s.runs, s.db);
    forall i | i in s'.runs ensures StoredOk(s'.runs[i], s'.db) {
      if a.Advance? && a.run == i {
        MoveStored(cfgs(i), a.move, s.runs[i], s.db, s'.runs[i], s'.db);
      } else if i in s.runs {
        StoredStable(s.runs[i], s.db, s'.db);
      } else {
        FreshStored(a.request, s'.db);
      }
    }
  }

  lemma FreshStored(q: Request, db: Db)
    ensures StoredOk(Fresh(q), db)
  {
  }

  /* ---------- what the results refer to ---------- */

  ghost predicate EvidenceListed(ids: seq<string>, owner: string, evidence: map<string, Evidence>) {
    forall k | 0 <= k < |ids| :: ids[k] in evidence && evidence[ids[k]].origin.requestId == owner
  }

  ghost predicate FindingsListed(ids: seq<string>, owner: string, findings: map<string, Finding>) {
    forall k | 0 <= k < |ids| :: ids[k] in findings && findings[ids[k]].requestId == owner
  }

  // The ids a run has collected are stored, as its own.
  ghost predicate ListedOk(r: Run, db: Db) {
    && EvidenceListed(r.work.evidenceIds, r.request.id, db.evidence)
    && FindingsListed(r.work.findingIds, r.request.id, db.findings)
  }

  ghost predicate ResultListed(id: string, db: Db)
    requires id in db.results
  {
    && EvidenceListed(db.results[id].evidenceIds, id, db.evidence)
    && FindingsListed(db.results[id].findingIds, id, db.findings)
  }

  ghost predicate ResultsListed(db: Db) {
    forall id | id in db.results :: ResultListed(id, db)
  }

  lemma BuiltOwned(cfg: Config, origin: Origin, o: Observation, built: seq<(string, Evidence)>)
    requires BuiltFor(cfg, origin, o, built)
    ensures forall k | 0 <= k < |built| :: built[k].1.origin == origin
  {
  }

  lemma FindingOwned(cfg: Config, origin: Origin, o: Observation, built: seq<(string, Evidence)>)
    ensures var f := Findings.Evaluate(cfg, origin, o, built); f.Some? ==> f.value.requestId == origin.requestId
  {
  }

  lemma ActListed(cfg: Config, act: Act, r: Run, db: Db)
    requires ValidConfig(cfg) && Equipped(cfg, r) && Enabled(cfg, act, r, db) && WorkOk(cfg, r) && ListedOk(r, db)
    ensures ListedOk(NewRun(cfg, act, r, db), NewDb(cfg, act, r, db))
  {
    hide Findings.Evaluate, Findings.EvidenceFor, BuiltFor, CleanEvent, Limiter.Acquire, Limiter.Release, NewLife, NewChecks,
         NewTrail, Approvals.Evolves, StaysTaken, Validation.OutputOk;
    if act.StoreEvidence? {
      BuiltOwned(cfg, OriginOf(cfg, r), r.work.queue[0], r.work.built);
    } else if act.StoreFinding? {
      FindingOwned(cfg, OriginOf(cfg, r), r.work.queue[0], r.work.built);
    }
  }

  lemma ListedStable(r: Run, db: Db, db': Db)
    requires ListedOk(r, db) && Evolves(db, db')
    ensures ListedOk(r, db')
  {
    hide Approvals.Evolves, StaysTaken;
  }

  lemma MoveListed(cfg: Config, m: Move, r: Run, db: Db, r': Run, db': Db)
    requires ValidConfig(cfg) && Step(cfg, m, r, db, r', db') && WorkOk(cfg, r) && ListedOk(r, db)
    ensures ListedOk(r', db')
  {
    hide Enabled, NewRun, NewDb, Refuses, Handled, FinallyFailed, WorkOk, ListedOk, Evolves;
    StepEvolves(cfg, m, r, db, r', db');
    match m {
      case Do(act) => ActListed(cfg, act, r, db);
      case Lose(act) =>
        ListedStable(r, db, db');
        FailListed(r, StoreError, db');
      case Fault(f, _) => FailListed(r, f, db);
    }
  }

  lemma FailListed(r: Run, f: Models.Fault, db: Db)
    requires ListedOk(r, db)
    ensures ListedOk(Fail(r, f), db)
  {
  }

  lemma ResultStays(id: string, db: Db, db': Db)
    requires id in db.results && ResultListed(id, db) && Evolves(db, db')
    ensures id in db'.results && ResultListed(id, db')
  {
    hide Approvals.Evolves, StaysTaken;
  }

  // Only a persisting run writes a result, and it writes what it has collected.
  lemma ActResults(cfg: Config, act: Act, r: Run, db: Db, id: string)
    requires ValidConfig(cfg) && Equipped(cfg, r) && Enabled(cfg, act, r, db)
    requires id in NewDb(cfg, act, r, db).results && id !in db.results
    ensures id == r.request.id && NewDb(cfg, act, r, db).results[id] == ResultOf(r)
  {
    hide CleanEvent, Findings.Evaluate, Limiter.Acquire;
  }

  lemma ResultsKept(cfgs: Configs, s: System, a: Action, s': System)
    requires ValidConfigs(cfgs) && Next(cfgs, s, a, s') && Approvals.Inv(ApprovalSystem(s))
    requires (forall i | i in s.runs :: ListedOk(s.runs[i], s.db)) && ResultsListed(s.db)
    ensures ResultsListed(s'.db)
  {
    hide Enabled, NewDb, NewRun, MayRaise, Fail, Approvals.Inv, Approvals.Next, CleanEvent, Evolves, ResultListed, ListedOk;
    NextEvolves(cfgs, s, a, s');
    forall id | id in s'.db.results ensures ResultListed(id, s'.db) {
      if id in s.db.results {
        ResultStays(id, s.db, s'.db);
      } else {
        ActResults(cfgs(a.run), a.move.act, s.runs[a.run], s.db, id);
        ListedStable(s.runs[a.run], s.db, s'.db);
        NewResultListed(s.runs[a.run], s'.db);
      }
    }
  }

  lemma NewResultListed(r: Run, db: Db)
    requires ListedOk(r, db) && r.request.id in db.results && db.results[r.request.id] == ResultOf(r)
    ensures ResultListed(r.request.id, db)
  {
  }

  ghost predicate AllListed(s: System) {
    (forall i | i in s.runs :: ListedOk(s.runs[i], s.db)) && ResultsListed(s.db)
  }

  lemma RunWork(cfg: Config, r: Run, db: Db)
    requires ValidConfig(cfg) && RunOk(cfg, r, db)
    ensures Equipped(cfg, r) && WorkOk(cfg, r)
  {
    hide Facts, LifeOk, StepsOk, DecisionsOk, HoldsOk, WorkOk, Equipped;
  }

  lemma ListedKept(cfgs: Configs, s: System, a: Action, s': System)
    requires ValidConfigs(cfgs) && Next(cfgs, s, a, s') && Approvals.Inv(ApprovalSystem(s))
    requires RunsOk(cfgs, s.runs, s.db) && AllListed(s)
    ensures AllListed(s')
  {
    hide Step, RunOk, Approvals.Inv, Approvals.Next, CleanEvent, Stamped, ListedOk, ResultsListed, Evolves, NewEvents,
         Limiter.Step, AppendEvent, WorkOk;
    NextEvolves(cfgs, s, a, s');
    ResultsKept(cfgs, s, a, s');
    forall i | i in s'.runs ensures ListedOk(s'.runs[i], s'.db) {
      if a.Advance? && a.run == i {
        RunWork(cfgs(i), s.runs[i], s.db);
        MoveListed(cfgs(i), a.move, s.runs[i], s.db, s'.runs[i], s'.db);
      } else if i in s.runs {
        ListedStable(s.runs[i], s.db, s'.db);
      } else {
        FreshListed(a.request, s'.db);
      }
    }
  }

  lemma FreshListed(q: Request, db: Db)
    ensures ListedOk(Fresh(q), db)
  {
  }

  /* ---------- every reachable state ---------- */

  ghost predicate SysOk(cfgs: Configs, s: System)
    requires ValidConfigs(cfgs)
  {
    && RunsOk(cfgs, s.runs, s.db)
    && Approvals.Inv(ApprovalSystem(s))
    && OwnersOk(s.runs)
    && Disjoint(s.db)
    && AuditOk(cfgs(0), s.db.audit)
    && FindingsSound(cfgs(0), s.db)
    && CallsOk(cfgs, s.calls, s.runs, s.db)
    && s.db.limiter == Replay(s.events)
    && LeaseIdsOk(s.runs, s.leaseIds)
    && LeasesOk(s)
    && AdmissionsOk(cfgs, s)
    && AllStored(s.runs, s.db)
    && NoFinalFailure(s.db)
    && AllListed(s)
  }

  lemma NextKeeps(cfgs: Configs, s: System, a: Action, s': System)
    requires ValidConfigs(cfgs) && SysOk(cfgs, s) && Next(cfgs, s, a, s')
    ensures SysOk(cfgs, s') && Evolves(s.db, s'.db)
  {
    hide Next, RunsOk, Approvals.Inv, OwnersOk, Disjoint, AuditOk, FindingsSound, CallsOk, Replay, LeaseIdsOk,
         LeasesOk, AdmissionsOk, AllStored, NoFinalFailure, AllListed, Evolves;
    NextEvolves(cfgs, s, a, s');
    RunsKept(cfgs, s, a, s');
    OwnersKept(cfgs, s, a, s');
    DisjointKept(cfgs, s, a, s');
    AuditKept(cfgs, s, a, s');
    FindingsStay(cfgs, s, a, s');
    CallsKept(cfgs, s, a, s');
    LimiterKept(cfgs, s, a, s');
    LeaseIdsKept(cfgs, s, a, s');
    LeasesKept(cfgs, s, a, s');
    AdmissionsKept(cfgs, s, a, s');
    StoredKept(cfgs, s, a, s');
    NoFinalFailureKept(cfgs, s, a, s');
    ListedKept(cfgs, s, a, s');
  }

  predicate Initial(s: System) {
    && s.db == Db({}, map[], Limiter.Tables([], []), Approvals.Table(map[], map[]), [], map[], map[])
    && s.runs == map[] && s.ops == map[] && s.calls == [] && s.leaseIds == {} && s.events == []
  }

  lemma InitialOk(cfgs: Configs, s: System)
    requires ValidConfigs(cfgs) && Initial(s)
    ensures SysOk(cfgs, s)
  {
  }

  ghost predicate Trace(cfgs: Configs, states: seq<System>, actions: seq<Action>)
    requires ValidConfigs(cfgs)
  {
    && |states| == |actions| + 1
    && Initial(states[0])
    && forall n | 0 <= n < |actions| :: Next(cfgs, states[n], actions[n], states[n + 1])
  }

  lemma {:induction false} Reachable(cfgs: Configs, states: seq<System>, actions: seq<Action>, n: nat)
    requires ValidConfigs(cfgs) && Trace(cfgs, states, actions) && n < |states|
    ensures SysOk(cfgs, states[n])
  {
    hide SysOk, Next, Initial;
    if n == 0 {
      InitialOk(cfgs, states[0]);
    } else {
      Reachable(cfgs, states, actions, n - 1);
      NextKeeps(cfgs, states[n - 1], actions[n - 1], states[n]);
    }
  }

  lemma {:induction false} EvolvesAlong(cfgs: Configs, states: seq<System>, actions: seq<Action>, m: nat, n: nat)
    requires ValidConfigs(cfgs) && Trace(cfgs, states, actions) && m <= n < |states|
    ensures Evolves(states[m].db, states[n].db)
    decreases n - m
  {
    hide SysOk, Next, Initial, Evolves;
    if m == n {
      EvolvesLimiter(states[m].db, states[m].db.limiter);
    } else {
      EvolvesAlong(cfgs, states, actions, m, n - 1);
      Reachable(cfgs, states, actions, n - 1);
      NextKeeps(cfgs, states[n - 1], actions[n - 1], states[n]);
      EvolvesTransitive(states[m].db, states[n - 1].db, states[n].db);
    }
  }
}
