// The engine's run method: one request taken through its checks, the tool and the
// evidence loop, with both exception handlers and the finally block.
module Engine {
  import opened Models
  import opened Records
  import opened Runs
  import opened RunInvariant
  import opened Stores
  import Findings
  import Limiter
  import Scope
  import Validation
  import SM = StateMachine

  // What the surroundings do at one component call: an unexpected failure, the behaviour
  // of the database, the clock, ids drawn, the texts of an event, the outcome of the tool
  // runner, and what the tool put out.
  datatype Happening = Happening(
    fault: Option<Models.Fault>, io: Io, now: real, id: string, otherId: string, texts: seq<string>,
    runner: Option<Models.Fault>, size: nat, output: Option<Validation.Output>)

  // What a method that returns nothing does instead: it raises, or it does not.
  datatype Flow = Done | Raise(fault: Models.Fault) {
    predicate IsFailure() {
      Raise?
    }

    function PropagateFailure(): Flow
      requires Raise?
    {
      this
    }
  }

  /* ---------- the record of a run ---------- */

  type Path = seq<(Run, Db)>

  ghost predicate StepTo(cfg: Config, m: Move, a: (Run, Db), b: (Run, Db))
    requires ValidConfig(cfg)
  {
    Step(cfg, m, a.0, a.1, b.0, b.1)
  }

  ghost predicate Follows(cfg: Config, a: (Run, Db), b: (Run, Db))
    requires ValidConfig(cfg)
  {
    exists m :: StepTo(cfg, m, a, b)
  }

  // Every entry follows from the one before by one step of the machine.
  ghost predicate Linked(cfg: Config, path: Path)
    requires ValidConfig(cfg)
  {
    forall k | 0 <= k < |path| - 1 :: Follows(cfg, path[k], path[k + 1])
  }

  ghost predicate Sane(cfg: Config, path: Path) {
    && ValidConfig(cfg) && path != [] && Linked(cfg, path)
    && RunOk(cfg, Last(path).0, Last(path).1)
    && ProperTable(Last(path).1.approvals)
    && path[0].0 == Fresh(Last(path).0.request)
    && Evolves(path[0].1, Last(path).1)
  }

  lemma LinkedMore(cfg: Config, path: Path, m: Move, r': Run, db': Db)
    requires ValidConfig(cfg) && path != [] && Linked(cfg, path)
    requires Step(cfg, m, Last(path).0, Last(path).1, r', db')
    ensures Linked(cfg, path + [(r', db')])
  {
    hide Step;
    var longer := path + [(r', db')];
    assert StepTo(cfg, m, Last(path), (r', db'));
    forall k | 0 <= k < |longer| - 1 ensures Follows(cfg, longer[k], longer[k + 1]) {
      if k < |path| - 1 {
        assert Follows(cfg, path[k], path[k + 1]);
      }
    }
  }

  lemma Extend(cfg: Config, path: Path, m: Move, r': Run, db': Db)
    requires Sane(cfg, path) && Step(cfg, m, Last(path).0, Last(path).1, r', db')
    ensures Sane(cfg, path + [(r', db')])
  {
    hide Step, RunOk, ProperTable, Evolves, Linked;
    LinkedMore(cfg, path, m, r', db');
    StepKeepsRun(cfg, m, Last(path).0, Last(path).1, r', db');
    StepKeepsProper(cfg, m, Last(path).0, Last(path).1, r', db');
    StepEvolves(cfg, m, Last(path).0, Last(path).1, r', db');
    EvolvesTransitive(path[0].1, Last(path).1, db');
    PcAdvances(cfg, m, Last(path).0, Last(path).1, r', db');
  }

  /* ---------- failures and their causes ---------- */

  // An id the store already knows.
  ghost predicate IdUsed(id: string, r: Run, db: Db) {
    || (exists row :: row in db.audit && row.eventId == id)
    || id in db.approvals.approvals
    || id in db.findings
    || r.request.id in db.results
    || (exists l :: l in db.limiter.leases && r.holds.leaseId == Some(l.id))
    || (r.work.stored < |r.work.built| && r.work.built[r.work.stored].0 in db.evidence)
  }

  // Nothing is raised without a cause: the call failed unexpectedly, a check refused, or
  // the database failed or met an id twice.
  ghost predicate Caused(cfg: Config, h: Happening, r: Run, db: Db, f: Models.Fault) {
    || h.fault == Some(f)
    || (ValidConfig(cfg) && Equipped(cfg, r) && InBody(r.pc) && exists at :: Refuses(cfg, r, db, f, at))
    || (f.StoreError? && (h.io != Works || IdUsed(h.id, r, db)))
  }

  // Some moment on record is the cause of f.
  ghost predicate Explained(cfg: Config, world: nat -> Happening, path: Path, tick: nat, f: Models.Fault) {
    exists k, t :: 0 <= k < |path| && 0 <= t < tick && Caused(cfg, world(t), path[k].0, path[k].1, f)
  }

  ghost predicate StoreFailed(cfg: Config, world: nat -> Happening, path: Path, tick: nat) {
    exists f :: StoreFailure(f) && Explained(cfg, world, path, tick, f)
  }

  ghost predicate LibraryFailed(cfg: Config, world: nat -> Happening, path: Path, tick: nat) {
    exists f :: LibraryFault(f) && Explained(cfg, world, path, tick, f)
  }

  ghost predicate ErrorExplained(cfg: Config, world: nat -> Happening, path: Path, tick: nat, error: Option<Code>) {
    error.Some? ==>
      match error.value
      case Typed(f) => Explained(cfg, world, path, tick, f)
      case InternalFault => LibraryFailed(cfg, world, path, tick)
      case LeaseCleanupFailed => StoreFailed(cfg, world, path, tick)
      case AuditFailure => StoreFailed(cfg, world, path, tick)
  }

  lemma ExplainedLater(cfg: Config, world: nat -> Happening, path: Path, tick: nat, path': Path, tick': nat, f: Models.Fault)
    requires Explained(cfg, world, path, tick, f) && path <= path' && tick <= tick'
    ensures Explained(cfg, world, path', tick', f)
  {
    hide Caused;
    var k, t :| 0 <= k < |path| && 0 <= t < tick && Caused(cfg, world(t), path[k].0, path[k].1, f);
    assert Caused(cfg, world(t), path'[k].0, path'[k].1, f);
  }

  lemma ErrorLater(cfg: Config, world: nat -> Happening, path: Path, tick: nat, path': Path, tick': nat, error: Option<Code>)
    requires ErrorExplained(cfg, world, path, tick, error) && path <= path' && tick <= tick'
    ensures ErrorExplained(cfg, world, path', tick', error)
  {
    hide Explained;
    if error.Some? {
      match error.value {
        case Typed(f) => ExplainedLater(cfg, world, path, tick, path', tick', f);
        case InternalFault =>
          var f :| LibraryFault(f) && Explained(cfg, world, path, tick, f);
          ExplainedLater(cfg, world, path, tick, path', tick', f);
        case _ =>
          var f :| StoreFailure(f) && Explained(cfg, world, path, tick, f);
          ExplainedLater(cfg, world, path, tick, path', tick', f);
      }
    }
  }

  // A failure of the finally block is explained by the moment it happened at.
  lemma FinalExplained(cfg: Config, world: nat -> Happening, path: Path, tick: nat, path': Path, f: Models.Fault)
    requires path != [] && path <= path' && tick > 0 && StoreFailure(f)
    requires Caused(cfg, world(tick - 1), Last(path).0, Last(path).1, f)
    ensures StoreFailed(cfg, world, path', tick)
  {
    hide Caused;
    assert Caused(cfg, world(tick - 1), path'[|path| - 1].0, path'[|path| - 1].1, f);
    assert Explained(cfg, world, path', tick, f);
  }

  // The failing of f at the end of this path is a step of the machine.
  ghost predicate FailsBy(cfg: Config, m: Move, r: Run, db: Db, f: Models.Fault, db': Db) {
    && ValidConfig(cfg)
    && (m.Fault? ==> m.fault == f) && (m.Lose? ==> f.StoreError?) && !m.Do?
    && Step(cfg, m, r, db, Fail(r, f), db')
  }

  ghost predicate Failing(cfg: Config, path: Path, f: Models.Fault, db': Db, h: Happening) {
    && path != []
    && (exists m :: FailsBy(cfg, m, Last(path).0, Last(path).1, f, db'))
    && Caused(cfg, h, Last(path).0, Last(path).1, f)
  }

  predicate Strikes(h: Happening) {
    h.fault.Some? && (LibraryFault(h.fault.value) || h.fault.value.Uncaught?)
  }

  lemma Struck(cfg: Config, path: Path, h: Happening)
    requires Sane(cfg, path) && Strikes(h) && InBody(Last(path).0.pc)
    ensures Failing(cfg, path, h.fault.value, Last(path).1, h)
  {
    hide Refuses, Fail, Facts, Linked, Evolves, ProperTable, LifeOk, DecisionsOk, WorkOk, StepsOk, HoldsOk;
    var f := h.fault.value;
    assert FailsBy(cfg, Fault(f, 0.0), Last(path).0, Last(path).1, f, Last(path).1);
  }

  lemma Refused(cfg: Config, path: Path, h: Happening, f: Models.Fault, at: real)
    requires Sane(cfg, path) && InBody(Last(path).0.pc) && Equipped(cfg, Last(path).0)
    requires Refuses(cfg, Last(path).0, Last(path).1, f, at)
    ensures Failing(cfg, path, f, Last(path).1, h)
  {
    hide Refuses, Fail, RunOk, Linked, Evolves, ProperTable;
    assert FailsBy(cfg, Fault(f, at), Last(path).0, Last(path).1, f, Last(path).1);
  }

  // The database failed without committing, or met an id twice.
  lemma NotStored(cfg: Config, path: Path, h: Happening)
    requires Sane(cfg, path) && InBody(Last(path).0.pc)
    requires h.io != Works || IdUsed(h.id, Last(path).0, Last(path).1)
    ensures Failing(cfg, path, StoreError, Last(path).1, h)
  {
    hide Refuses, Fail, Facts, Linked, Evolves, ProperTable, LifeOk, DecisionsOk, WorkOk, StepsOk, HoldsOk, IdUsed;
    assert FailsBy(cfg, Fault(StoreError, 0.0), Last(path).0, Last(path).1, StoreError, Last(path).1);
  }

  // It committed, and failed.
  lemma LostStored(cfg: Config, path: Path, h: Happening, act: Act)
    requires Sane(cfg, path) && h.io.Lost? && InBody(Last(path).0.pc) && Equipped(cfg, Last(path).0)
    requires Enabled(cfg, act, Last(path).0, Last(path).1) && Commits(act, Last(path).0)
    ensures Failing(cfg, path, StoreError, NewDb(cfg, act, Last(path).0, Last(path).1), h)
  {
    hide Refuses, Fail, RunOk, Linked, Evolves, ProperTable, Enabled, NewDb, Commits;
    assert FailsBy(cfg, Lose(act), Last(path).0, Last(path).1, StoreError, NewDb(cfg, act, Last(path).0, Last(path).1));
  }

  lemma SaneEquipped(cfg: Config, path: Path)
    requires Sane(cfg, path)
    ensures path != [] && ValidConfig(cfg) && Equipped(cfg, Last(path).0) && Last(path).0.pc <= RETURNED
  {
    hide Facts, Linked, Evolves, ProperTable, LifeOk, DecisionsOk, WorkOk, StepsOk, HoldsOk;
  }

  /* ---------- the engine ---------- */

  class NobleEngine {
    const cfg: Config
    const store: Store
    const base: Validation.Expectation     // versions, limits and files; the rest is per run
    const world: nat -> Happening
    var tick: nat

    // The locals of a run and its result.
    var request: Request
    var life: Life
    var checks: Checks
    var holds: Holds
    var work: Work
    var invocations: nat

    ghost var pc: Pc
    ghost var trail: Trail
    ghost var path: Path

    constructor (cfg: Config, store: Store, base: Validation.Expectation, world: nat -> Happening)
      ensures this.cfg == cfg && this.store == store && this.base == base && this.world == world
    {
      this.cfg, this.store, this.base, this.world := cfg, store, base, world;
      tick, invocations, path := 0, 0, [];
      var blank := Fresh(Request("", "", "", "", "", "", "", "", ""));
      request, pc, life, checks := blank.request, blank.pc, blank.life, blank.checks;
      holds, trail, work := blank.holds, blank.trail, blank.work;
    }

    ghost function Snapshot(): Run
      reads this
    {
      Runs.Run.Run(request, pc, life, checks, holds, trail, work)
    }

    // The run stands at this point and everything so far is on record.
    ghost predicate At(p: Pc)
      reads this, store
    {
      && store.Valid() && store.cfg == cfg
      && Sane(cfg, path) && Last(path) == (Snapshot(), store.State())
      && pc == p
    }

    // The run is about to fail with f; the store may already have changed.
    ghost predicate Raising(f: Models.Fault)
      reads this, store
    {
      && store.Valid() && store.cfg == cfg
      && Sane(cfg, path) && Last(path).0 == Snapshot() && InBody(pc)
      && tick > 0 && Failing(cfg, path, f, store.State(), world(tick - 1))
    }

    method Observe() returns (h: Happening)
      modifies this`tick
      ensures tick == old(tick) + 1 && h == world(old(tick))
    {
      h := world(tick);
      tick := tick + 1;
    }

    // A step has been taken; put it on record.
    ghost method Record(m: Move)
      requires store.Valid() && store.cfg == cfg
      requires Sane(cfg, path) && Step(cfg, m, Last(path).0, Last(path).1, Snapshot(), store.State())
      modifies this`path
      ensures path == old(path) + [(Snapshot(), store.State())] && At(pc)
    {
      Extend(cfg, path, m, Snapshot(), store.State());
      path := path + [(Snapshot(), store.State())];
    }

    // What a method of the try block leaves alone or only extends.
    twostate predicate Grown()
      reads this
    {
      old(path) <= path && request == old(request)
    }

    // validate_transition never refuses: the points of a run follow its table.
    method Transition(ghost p: Pc, to: State) returns (flow: Flow)
      requires At(p) && EnterAt(p) == Some(to)
      modifies this
      ensures flow.Done? ==> At(p + 1)
      ensures flow.Raise? ==> Raising(flow.fault) && world(old(tick)).fault == Some(flow.fault)
      ensures Grown() && invocations == old(invocations)
    {
      hide Sane, Failing, SM.ValidTransition, Step, EnterAt, LibraryFault;
      TransitionAllowed(cfg, path);
      EnterStep(cfg, path, to);
      var h := Observe();
      if Strikes(h) {
        Struck(cfg, path, h);
        return Raise(h.fault.value);
      }
      assert SM.ValidTransition(life.state, to);
      life, pc := life.(state := to, states := life.states + [to]), pc + 1;
      Record(Do(Act.Enter));
      return Done;
    }

    method Audit(ghost p: Pc, stage: Stage) returns (flow: Flow)
      requires At(p) && InBody(p) && LogAt(p, DecisionOf(checks)) == Some(stage)
      modifies this, store
      ensures flow.Done? ==> At(p + 1)
      ensures flow.Raise? ==> Raising(flow.fault)
      ensures Grown() && invocations == old(invocations) && work == old(work)
    {
      hide Sane, Failing, CleanEvent, Step, Enabled, NewDb, Commits, LibraryFault, LogAt, Refuses, Fail, Caused;
      SaneEquipped(cfg, path);
      var h := Observe();
      if Strikes(h) {
        Struck(cfg, path, h);
        return Raise(h.fault.value);
      }
      ghost var rows := store.auditEvents;
      ghost var known := store.HasEvent(h.id);
      var logged, e := store.Emit(h.id, request.id, stage, h.texts, h.io);
      LogStep(cfg, path, h.id, e);
      if logged.Raised? {
        if known || !h.io.Lost? {
          NotStored(cfg, path, h);
        } else {
          LostStored(cfg, path, h, Act.Log(h.id, e.fields));
        }
        return Raise(logged.fault);
      }
      trail, pc := Trail(trail.steps + [stage], trail.rows + [|rows|]), pc + 1;
      Record(Do(Act.Log(h.id, e.fields)));
      return Done;
    }

    method Begin() returns (flow: Flow)
      requires At(AT_START)
      modifies this
      ensures flow.Done? ==> At(AT_VALIDATING)
      ensures flow.Raise? ==> Raising(flow.fault)
      ensures Grown() && invocations == old(invocations)
    {
      hide Sane, Failing;
      SaneEquipped(cfg, path);
      var h := Observe();
      if Strikes(h) {
        Struck(cfg, path, h);
        return Raise(h.fault.value);
      }
      life := life.(state := State.Validating, states := life.states + [State.Validating]);
      pc := AT_VALIDATING;
      Record(Do(Act.Start));
      return Done;
    }

    method Reserve() returns (flow: Flow)
      requires At(AT_VALIDATING)
      modifies this, store
      ensures flow.Done? ==> At(AT_RESERVED)
      ensures flow.Raise? ==> Raising(flow.fault)
      ensures Grown() && invocations == old(invocations)
    {
      hide Sane, Failing;
      SaneEquipped(cfg, path);
      var h := Observe();
      if Strikes(h) {
        Struck(cfg, path, h);
        return Raise(h.fault.value);
      }
      if !WellFormed(cfg, request) {
        Refused(cfg, path, h, InvalidInput, h.now);
        return Raise(InvalidInput);
      }
      if request.requester != cfg.actor {
        Refused(cfg, path, h, AuthorizationDenied, h.now);
        return Raise(AuthorizationDenied);
      }
      ghost var free := !Taken(store.State(), request.id);
      var reserved := store.ReserveRequest(request.id, h.io);
      if reserved.Raised? {
        if free && h.io.Lost? {
          LostStored(cfg, path, h, Act.Reserve);
        } else {
          NotStored(cfg, path, h);
        }
        return Raise(reserved.fault);
      }
      if !reserved.value {
        Refused(cfg, path, h, InvalidInput, h.now);
        return Raise(InvalidInput);
      }
      holds, pc := holds.(reserved := true), AT_RESERVED;
      Record(Do(Act.Reserve));
      return Done;
    }

    method CheckTool() returns (flow: Flow)
      requires At(AT_RESERVED)
      modifies this
      ensures flow.Done? ==> At(AT_CHECKED)
      ensures flow.Raise? ==> Raising(flow.fault)
      ensures Grown() && invocations == old(invocations)
    {
      hide Sane, Failing;
      SaneEquipped(cfg, path);
      var h := Observe();
      if Strikes(h) {
        Struck(cfg, path, h);
        return Raise(h.fault.value);
      }
      if request.action == "" || request.tool == "" {
        Refused(cfg, path, h, InvalidInput, h.now);
        return Raise(InvalidInput);
      }
      if request.tool !in cfg.registry {
        Refused(cfg, path, h, ToolUnknown, h.now);
        return Raise(ToolUnknown);
      }
      if !cfg.schemaOk(request) {
        Refused(cfg, path, h, InvalidInput, h.now);
        return Raise(InvalidInput);
      }
      pc := AT_CHECKED;
      Record(Do(Act.Check));
      return Done;
    }

    method EvaluateScope() returns (flow: Flow)
      requires At(AT_SCOPE)
      modifies this
      ensures flow.Done? ==> At(AT_RULING)
      ensures flow.Raise? ==> Raising(flow.fault)
      ensures Grown() && invocations == old(invocations)
    {
      hide Sane, Failing, Scope.Evaluate;
      SaneEquipped(cfg, path);
      var h := Observe();
      if Strikes(h) {
        Struck(cfg, path, h);
        return Raise(h.fault.value);
      }
      var target := cfg.normalise(request.target);
      if target.None? || cfg.redact(target.value.canonical) != target.value.canonical {
        Refused(cfg, path, h, InvalidInput, h.now);
        return Raise(InvalidInput);
      }
      var ruling := Scope.Evaluate(cfg.policy, target.value, request.action, h.now);
      checks, pc := checks.(target := target, ruling := Some(ruling), ruledAt := h.now), AT_RULING;
      Record(Do(Act.Rule(h.now)));
      return Done;
    }

    method SnapshotScope() returns (flow: Flow)
      requires At(AT_RULED)
      modifies this
      ensures flow.Done? ==> At(AT_SCOPED)
      ensures flow.Raise? ==> Raising(flow.fault)
      ensures Grown() && invocations == old(invocations)
    {
      hide Sane, Failing, Scope.Evaluate;
      TargetValid(cfg, path);
      var h := Observe();
      if Strikes(h) {
        Struck(cfg, path, h);
        return Raise(h.fault.value);
      }
      if checks.ruling.value.decision == Scope.Unknown {
        Refused(cfg, path, h, ScopeUnknown, h.now);
        return Raise(ScopeUnknown);
      }
      if checks.ruling.value.decision != Scope.Allow {
        Refused(cfg, path, h, ScopeDenied, h.now);
        return Raise(ScopeDenied);
      }
      if Scope.Evaluate(cfg.policy, checks.target.value, request.action, h.now).decision != Scope.Allow {
        Refused(cfg, path, h, InvalidInput, h.now);
        return Raise(InvalidInput);
      }
      checks, pc := checks.(snapshotAt := h.now), AT_SCOPED;
      Record(Do(Act.Snapshot(h.now)));
      return Done;
    }

    method CheckAuthorization() returns (flow: Flow)
      requires At(AT_AUTHORIZATION)
      modifies this
      ensures flow.Done? ==> At(AT_PERMITTED)
      ensures flow.Raise? ==> Raising(flow.fault)
      ensures Grown() && invocations == old(invocations)
    {
      hide Sane, Failing, GrantCovers;
      SaneEquipped(cfg, path);
      var h := Observe();
      if Strikes(h) {
        Struck(cfg, path, h);
        return Raise(h.fault.value);
      }
      if request.grantId == "" || request.grantId !in store.grants {
        Refused(cfg, path, h, AuthorizationDenied, h.now);
        return Raise(AuthorizationDenied);
      }
      var grant := store.grants[request.grantId];
      if !GrantCovers(grant, request, checks.target.value, cfg.registry[request.tool].permissions, h.now) {
        Refused(cfg, path, h, AuthorizationDenied, h.now);
        return Raise(AuthorizationDenied);
      }
      checks, pc := checks.(grant := Some(grant), grantAt := h.now), AT_PERMITTED;
      Record(Do(Act.CheckGrant(h.now)));
      return Done;
    }

    method AssessRisk() returns (flow: Flow)
      requires At(AT_RISK)
      modifies this
      ensures flow.Done? ==> At(AT_ASSESSED)
      ensures flow.Raise? ==> Raising(flow.fault)
      ensures Grown() && invocations == old(invocations)
    {
      hide Sane, Failing;
      SaneEquipped(cfg, path);
      var h := Observe();
      if Strikes(h) {
        Struck(cfg, path, h);
        return Raise(h.fault.value);
      }
      var tier := cfg.assess(request, checks.target.value);
      var floor := cfg.registry[request.tool].tier;
      if TierRank(tier) < TierRank(floor) {
        tier := floor;
      }
      checks, pc := checks.(tier := Some(tier)), AT_ASSESSED;
      Record(Do(Act.Assess));
      return Done;
    }

    // Without a token, a request for approval is put on file and the run still fails.
    method EnsureApproval() returns (flow: Flow)
      requires At(AT_WAITING)
      modifies this, store
      ensures flow.Done? ==> At(AT_CLEARED)
      ensures flow.Raise? ==> Raising(flow.fault)
      ensures Grown() && invocations == old(invocations)
    {
      hide Sane, Failing, ApprovalSatisfies;
      SaneEquipped(cfg, path);
      var approval: Option<Approval> := None;
      var h := Observe();
      if Strikes(h) {
        Struck(cfg, path, h);
        return Raise(h.fault.value);
      }
      if RequiresApproval(checks.tier.value) {
        if request.approvalToken == "" {
          flow := RequestApproval();
          return;
        }
        if request.approvalToken !in store.approvals {
          Refused(cfg, path, h, ApprovalInvalid, h.now);
          return Raise(ApprovalInvalid);
        }
        var record := store.approvals[request.approvalToken];
        if h.now > record.expiresAt {
          Refused(cfg, path, h, ApprovalExpired, h.now);
          return Raise(ApprovalExpired);
        }
        if !ApprovalSatisfies(record, request, checks.tier.value, cfg.fingerprint(request),
                              DigestOf(cfg, request.action, checks.target.value), h.now) {
          Refused(cfg, path, h, ApprovalInvalid, h.now);
          return Raise(ApprovalInvalid);
        }
        approval := Some(record);
      }
      checks, pc := checks.(cleared := true, approval := approval, clearedAt := h.now), AT_CLEARED;
      Record(Do(Act.Ensure(h.now)));
      return Done;
    }

    method RequestApproval() returns (flow: Flow)
      requires At(AT_WAITING) && Equipped(cfg, Snapshot())
      requires RequiresApproval(checks.tier.value) && request.approvalToken == ""
      modifies this, store
      ensures flow.Raise? && Raising(flow.fault)
      ensures Grown() && invocations == old(invocations)
    {
      hide At, Raising;
      flow := AnnounceRequest();
      if flow.Done? {
        flow := FileRequest();
        if flow.Done? {
          flow := Audit(ASK_STORED, ApprovalPending);
          if flow.Done? {
            flow := StillRequired();
          }
        }
      }
    }

    method AnnounceRequest() returns (flow: Flow)
      requires At(AT_WAITING) && Equipped(cfg, Snapshot())
      requires RequiresApproval(checks.tier.value) && request.approvalToken == ""
      modifies this, store
      ensures flow.Done? ==> At(ASK_LOGGED)
      ensures flow.Raise? ==> Raising(flow.fault)
      ensures Grown() && invocations == old(invocations)
    {
      hide Sane, Failing, CleanEvent;
      SaneEquipped(cfg, path);
      var h := Observe();
      if Strikes(h) {
        Struck(cfg, path, h);
        return Raise(h.fault.value);
      }
      ghost var known := store.HasEvent(h.id);
      var logged, e := store.Emit(h.id, request.id, Other("APPROVAL_REQUESTED"), h.texts, h.io);
      if logged.Raised? {
        if known || !h.io.Lost? {
          NotStored(cfg, path, h);
        } else {
          LostStored(cfg, path, h, Act.AskLog(h.id, e.fields));
        }
        return Raise(logged.fault);
      }
      pc := ASK_LOGGED;
      Record(Do(Act.AskLog(h.id, e.fields)));
      return Done;
    }

    method FileRequest() returns (flow: Flow)
      requires At(ASK_LOGGED)
      modifies this, store
      ensures flow.Done? ==> At(ASK_STORED)
      ensures flow.Raise? ==> Raising(flow.fault)
      ensures Grown() && invocations == old(invocations)
    {
      hide Linked, Evolves, ProperTable, RunOk, Failing, Step, Enabled, NewDb, Commits;
      SaneEquipped(cfg, path);
      var h := Observe();
      if Strikes(h) {
        Struck(cfg, path, h);
        return Raise(h.fault.value);
      }
      var approval := Approval(cfg.fingerprint(request), request.action, checks.target.value.canonical,
                               checks.tier.value, request.requester,
                               DigestOf(cfg, request.action, checks.target.value),
                               Pending, h.now + 1800.0, None, None, "");
      assert approval == NewApproval(cfg, Snapshot(), h.now);
      if h.id !in store.approvals {
        AskStep(cfg, path, h.id, h.now);
      }
      ghost var known := h.id in store.approvals;
      var stored := store.PutApproval(h.id, approval, h.io);
      if stored.Raised? {
        if known || !h.io.Lost? {
          NotStored(cfg, path, h);
        } else {
          LostStored(cfg, path, h, Act.AskStore(h.id, h.now));
        }
        return Raise(stored.fault);
      }
      pc := ASK_STORED;
      Record(Do(Act.AskStore(h.id, h.now)));
      return Done;
    }

    method StillRequired() returns (flow: Flow)
      requires At(ASK_DONE)
      modifies this
      ensures flow.Raise? && Raising(flow.fault)
      ensures Grown() && invocations == old(invocations)
    {
      hide Sane, Failing;
      SaneEquipped(cfg, path);
      var h := Observe();
      Refused(cfg, path, h, ApprovalRequired, h.now);
      return Raise(ApprovalRequired);
    }

    method SelectTool() returns (flow: Flow)
      requires At(AT_APPROVED)
      modifies this
      ensures flow.Done? ==> At(AT_PREPARED)
      ensures flow.Raise? ==> Raising(flow.fault)
      ensures Grown() && invocations == old(invocations)
    {
      hide Sane, Failing;
      SaneEquipped(cfg, path);
      var h := Observe();
      if Strikes(h) {
        Struck(cfg, path, h);
        return Raise(h.fault.value);
      }
      var tool := cfg.registry[request.tool];
      if tool.action != request.action || checks.target.value.kind !in tool.kinds {
        Refused(cfg, path, h, InvalidInput, h.now);
        return Raise(InvalidInput);
      }
      if tool.network || cfg.wantsNetwork(request) {
        Refused(cfg, path, h, NetworkDenied, h.now);
        return Raise(NetworkDenied);
      }
      if tool.sideEffects != ReadLocal || tool.sandbox != ProcessLocal {
        Refused(cfg, path, h, SandboxFailure, h.now);
        return Raise(SandboxFailure);
      }
      if !cfg.targetReady(tool.name, checks.target.value) {
        Refused(cfg, path, h, InvalidInput, h.now);
        return Raise(InvalidInput);
      }
      pc := AT_PREPARED;
      Record(Do(Act.Prepare));
      return Done;
    }

    method ChooseLease() returns (flow: Flow)
      requires At(AT_PRECONDITIONS)
      modifies this
      ensures flow.Done? ==> At(AT_LEASE_CHOSEN)
      ensures flow.Raise? ==> Raising(flow.fault)
      ensures Grown() && invocations == old(invocations)
    {
      hide Sane, Failing;
      SaneEquipped(cfg, path);
      var h := Observe();
      if Strikes(h) {
        Struck(cfg, path, h);
        return Raise(h.fault.value);
      }
      holds, pc := holds.(leaseId := Some(h.id)), AT_LEASE_CHOSEN;
      Record(Do(Act.ChooseLease(h.id)));
      return Done;
    }

    method AcquireLease() returns (flow: Flow)
      requires At(AT_LEASE_CHOSEN)
      modifies this, store
      ensures flow.Done? ==> At(AT_LEASED)
      ensures flow.Raise? ==> Raising(flow.fault)
      ensures Grown() && invocations == old(invocations)
    {
      hide Sane, Failing, Step, Limiter.Acquire, Enabled, NewDb, NewRun, Fail, Refuses, Caused, IdUsed, Commits, LibraryFault;
      SaneEquipped(cfg, path);
      var h := Observe();
      if Strikes(h) {
        Struck(cfg, path, h);
        return Raise(h.fault.value);
      }
      var tool := cfg.registry[request.tool];
      var q := Limiter.Request(holds.leaseId.value, request.requester, request.tool, checks.target.value.canonical,
                               Limiter.Limits(tool.perMinute, cfg.ratePerMinute, cfg.maxConcurrent), tool.timeout);
      AcquireOutcome(cfg, path, q, h);
      var admitted := store.AcquireLease(q, h.now, h.io);
      if admitted.Raised? {
        assert store.State() == if h.io.Fails? then Last(path).1
                                else Last(path).1.(limiter := Limiter.Acquire(Last(path).1.limiter, q, h.now).1);
        assert Failing(cfg, path, admitted.fault, store.State(), h);
        return Raise(admitted.fault);
      }
      holds := holds.(executionId := holds.leaseId, leaseExpires := h.now + tool.timeout + Limiter.GRACE);
      pc := AT_LEASED;
      Record(Do(Act.Acquire(h.now)));
      return Done;
    }

    // The one call of the tool runner.
    method InvokeTool() returns (flow: Flow)
      requires At(AT_LAUNCH)
      modifies this
      ensures flow.Done? ==> At(AT_TOOL_DONE) && invocations == old(invocations) + 1
      ensures flow.Raise? ==> Raising(flow.fault) && old(invocations) <= invocations <= old(invocations) + 1
      ensures invocations > old(invocations) ==>
                |path| > |old(path)| && path[|old(path)|].0.pc == IN_TOOL && path[|old(path)|].1 == old(store.State())
      ensures Grown()
    {
      hide Sane, Failing, Step, LibraryFault;
      LaunchStep(cfg, path);
      var h := Observe();
      if Strikes(h) {
        Struck(cfg, path, h);
        return Raise(h.fault.value);
      }
      invocations, pc := invocations + 1, IN_TOOL;
      Record(Do(Act.Invoke));
      flow := AwaitTool();
    }

    predicate RunnerFault(f: Models.Fault) {
      f.SandboxFailure? || f.ToolTimeout? || f.InvalidInput? || f.ToolUnavailable? || f.ToolExecutionFailed?
      || f.InvalidOutput?
    }

    method AwaitTool() returns (flow: Flow)
      requires At(IN_TOOL)
      modifies this
      ensures flow.Done? ==> At(AT_TOOL_DONE)
      ensures flow.Raise? ==> Raising(flow.fault)
      ensures Grown() && invocations == old(invocations)
    {
      hide Sane, Failing;
      SaneEquipped(cfg, path);
      var h := Observe();
      if Strikes(h) {
        Struck(cfg, path, h);
        return Raise(h.fault.value);
      }
      if h.runner.Some? && RunnerFault(h.runner.value) {
        Refused(cfg, path, h, h.runner.value, h.now);
        return Raise(h.runner.value);
      }
      if cfg.registry[request.tool].name.OtherTool? {
        Refused(cfg, path, h, ToolUnavailable, h.now);
        return Raise(ToolUnavailable);
      }
      pc := AT_TOOL_DONE;
      Record(Do(Act.Return));
      return Done;
    }

    method ValidateOutput() returns (flow: Flow)
      requires At(AT_VALIDATING_RESULT)
      modifies this
      ensures flow.Done? ==> At(AT_OUTPUT) && work.built == []
      ensures flow.Raise? ==> Raising(flow.fault)
      ensures Grown() && invocations == old(invocations)
    {
      hide Sane, Failing,
           Validation.Acceptable, Validation.OutputOk;
      SaneEquipped(cfg, path);
      var h := Observe();
      if Strikes(h) {
        Struck(cfg, path, h);
        return Raise(h.fault.value);
      }
      var x := base.(requestId := request.id, target := checks.target.value.canonical,
                     tool := cfg.registry[request.tool].name);
      var checked := Validation.Validate(x, h.size, h.output);
      if checked.Raised? {
        Refused(cfg, path, h, InvalidOutput, h.now);
        return Raise(InvalidOutput);
      }
      Validation.AcceptedOk(x, h.size, h.output);
      work := work.(queue := checked.value.observations, complete := checked.value.complete);
      pc := AT_OUTPUT;
      Record(Do(Act.Accept(checked.value.observations, checked.value.complete)));
      return Done;
    }

    // Evidence is stored item by item before the finding that refers to it.
    method CollectFindings() returns (flow: Flow)
      requires At(AT_EVIDENCE) && work.built == []
      modifies this, store
      ensures flow.Done? ==> At(AT_EVIDENCE) && work.queue == []
      ensures flow.Raise? ==> Raising(flow.fault)
      ensures Grown() && invocations == old(invocations)
    {
      hide Sane, Failing;
      while work.queue != []
        invariant At(AT_EVIDENCE) && work.built == []
        invariant Grown() && invocations == old(invocations)
        decreases |work.queue|
      {
        :- BuildEvidence();
        :- StoreEvidenceItems();
        :- StoreFinding();
      }
      return Done;
    }

    method BuildEvidence() returns (flow: Flow)
      requires At(AT_EVIDENCE) && work.built == [] && work.queue != []
      modifies this
      ensures flow.Done? ==> At(AT_EVIDENCE) && work.built != [] && work.stored == 0 && work.queue == old(work.queue)
      ensures flow.Raise? ==> Raising(flow.fault)
      ensures Grown() && invocations == old(invocations)
    {
      hide Sane, Failing;
      SaneEquipped(cfg, path);
      var h := Observe();
      if Strikes(h) {
        Struck(cfg, path, h);
        return Raise(h.fault.value);
      }
      var origin := Origin(request.id, holds.executionId.value, cfg.registry[request.tool].name,
                           checks.target.value.canonical);
      work := work.(built := Findings.EvidenceFor(cfg, origin, work.queue[0], h.id, h.otherId), stored := 0);
      Record(Do(Act.Build(h.id, h.otherId)));
      return Done;
    }

    method StoreEvidenceItems() returns (flow: Flow)
      requires At(AT_EVIDENCE) && work.built != [] && work.stored == 0
      modifies this, store
      ensures flow.Done? ==>
                At(AT_EVIDENCE) && work.built != [] && work.stored == |work.built| && work.queue == old(work.queue)
      ensures flow.Raise? ==> Raising(flow.fault)
      ensures Grown() && invocations == old(invocations)
    {
      hide Sane, Failing;
      while work.stored < |work.built|
        invariant At(AT_EVIDENCE) && work.built != [] && work.stored <= |work.built| && work.queue == old(work.queue)
        invariant Grown() && invocations == old(invocations)
        decreases |work.built| - work.stored
      {
        :- StoreItem();
      }
      return Done;
    }

    method StoreItem() returns (flow: Flow)
      requires At(AT_EVIDENCE) && work.stored < |work.built|
      modifies this, store
      ensures flow.Done? ==>
                && At(AT_EVIDENCE) && work.built == old(work.built) && work.stored == old(work.stored) + 1
                && work.queue == old(work.queue)
      ensures flow.Raise? ==> Raising(flow.fault)
      ensures Grown() && invocations == old(invocations)
    {
      hide Sane, Failing, Step, Enabled, NewDb, Commits, LibraryFault;
      SaneEquipped(cfg, path);
      var h := Observe();
      if Strikes(h) {
        Struck(cfg, path, h);
        return Raise(h.fault.value);
      }
      var (id, item) := work.built[work.stored];
      ghost var known := id in store.evidence;
      if !known {
        ItemStep(cfg, path);
      }
      var stored := store.PutEvidence(id, item, h.io);
      if stored.Raised? {
        if known || !h.io.Lost? {
          NotStored(cfg, path, h);
        } else {
          LostStored(cfg, path, h, Act.StoreEvidence);
        }
        return Raise(stored.fault);
      }
      work := work.(stored := work.stored + 1, evidenceIds := work.evidenceIds + [id]);
      Record(Do(Act.StoreEvidence));
      return Done;
    }

    method StoreFinding() returns (flow: Flow)
      requires At(AT_EVIDENCE) && work.built != [] && work.stored == |work.built|
      modifies this, store
      ensures flow.Done? ==> At(AT_EVIDENCE) && work.built == [] && |work.queue| < |old(work.queue)|
      ensures flow.Raise? ==> Raising(flow.fault)
      ensures Grown() && invocations == old(invocations)
    {
      hide Sane, Failing, Step, Enabled, NewDb, Commits, LibraryFault, Findings.Evaluate, IdUsed;
      SaneEquipped(cfg, path);
      FindingReady(cfg, path);
      var h := Observe();
      if Strikes(h) {
        Struck(cfg, path, h);
        return Raise(h.fault.value);
      }
      var origin := Origin(request.id, holds.executionId.value, cfg.registry[request.tool].name,
                           checks.target.value.canonical);
      var finding := Findings.Evaluate(cfg, origin, work.queue[0], work.built);
      assert finding == NextFinding(cfg, Snapshot()) && finding.Some?;
      ghost var known := h.id in store.findings;
      if known {
        KnownFinding(h.id, Snapshot(), store.State());
      } else {
        FindingStep(cfg, path, h.id);
      }
      var stored := store.PutFinding(h.id, finding.value, h.io);
      if stored.Raised? {
        if known || !h.io.Lost? {
          NotStored(cfg, path, h);
        } else {
          LostStored(cfg, path, h, Act.StoreFinding(h.id));
        }
        return Raise(stored.fault);
      }
      work := work.(queue := work.queue[1..], built := [], stored := 0, findingIds := work.findingIds + [h.id]);
      Record(Do(Act.StoreFinding(h.id)));
      return Done;
    }

    // The ids of everything stored are entered in the result.
    method Publish() returns (flow: Flow)
      requires At(AT_EVIDENCE) && work.queue == []
      modifies this
      ensures flow.Done? ==> At(AT_EVIDENCE) && work == old(work).(listed := true)
      ensures flow.Raise? ==> Raising(flow.fault)
      ensures Grown() && invocations == old(invocations)
    {
      hide Sane, Failing;
      SaneEquipped(cfg, path);
      var h := Observe();
      if Strikes(h) {
        Struck(cfg, path, h);
        return Raise(h.fault.value);
      }
      work := work.(listed := true);
      Record(Do(Act.Publish));
      return Done;
    }

    method Complete() returns (flow: Flow)
      requires At(AT_EVIDENCE) && work.queue == [] && work.listed
      modifies this
      ensures flow.Done? ==> At(AT_CLEANUP) && life.state.Completed? && life.error.None?
      ensures flow.Raise? ==> Raising(flow.fault)
      ensures Grown() && invocations == old(invocations)
    {
      hide Sane, Failing;
      SaneEquipped(cfg, path);
      NoErrorYet(cfg, path);
      var h := Observe();
      if Strikes(h) {
        Struck(cfg, path, h);
        return Raise(h.fault.value);
      }
      life := life.(state := State.Completed, states := life.states + [State.Completed]);
      life := life.(outcome := if !work.complete then Inconclusive
                               else if work.findingIds != [] then SuccessWithFindings else SuccessNoFindings);
      pc := AT_CLEANUP;
      Record(Do(Act.Complete));
      return Done;
    }

    /* ---------- the try block ---------- */

    // Validation, scope and authorization.
    method Admit() returns (flow: Flow)
      requires At(AT_START)
      modifies this, store
      ensures flow.Done? ==> At(AT_AUTHORIZED)
      ensures flow.Raise? ==> Raising(flow.fault)
      ensures Grown() && invocations == old(invocations)
    {
      hide At, Raising;
      :- Begin();
      :- Reserve();
      :- CheckTool();
      :- Audit(AT_CHECKED, Requested);
      :- Transition(AT_REQUESTED, State.ScopeCheck);
      :- EvaluateScope();
      :- Audit(AT_RULING, ScopeRuled(DecisionOf(checks)));
      :- SnapshotScope();
      :- Transition(AT_SCOPED, State.AuthorizationCheck);
      :- CheckAuthorization();
      :- Audit(AT_PERMITTED, Authorized);
      return Done;
    }

    // Risk and approval.
    method Approve() returns (flow: Flow)
      requires At(AT_AUTHORIZED)
      modifies this, store
      ensures flow.Done? ==> At(AT_APPROVED)
      ensures flow.Raise? ==> Raising(flow.fault)
      ensures Grown() && invocations == old(invocations)
    {
      hide At, Raising;
      :- Transition(AT_AUTHORIZED, State.RiskAssessment);
      :- AssessRisk();
      :- Audit(AT_ASSESSED, Classified);
      :- Transition(AT_CLASSIFIED, State.WaitingForApproval);
      :- EnsureApproval();
      :- Audit(AT_CLEARED, ApprovalChecked);
      :- Transition(AT_APPROVAL_LOGGED, State.Approved);
      return Done;
    }

    // Tool selection and the lease.
    method Clear() returns (flow: Flow)
      requires At(AT_APPROVED)
      modifies this, store
      ensures flow.Done? ==> At(AT_LEASED)
      ensures flow.Raise? ==> Raising(flow.fault)
      ensures Grown() && invocations == old(invocations)
    {
      hide At, Raising;
      :- SelectTool();
      :- Audit(AT_PREPARED, PreconditionsPassed);
      :- ChooseLease();
      :- AcquireLease();
      return Done;
    }

    // The tool was called: the record holds the call, and the run just before it.
    ghost predicate Called()
      reads this
    {
      exists k :: 0 <= k < |path| && path[k].0.pc == IN_TOOL
    }

    // The tool and what becomes of its output.
    method Execute() returns (flow: Flow)
      requires At(AT_LEASED)
      modifies this, store
      ensures flow.Done? ==> At(AT_CLEANUP) && life.state.Completed? && life.error.None? && invocations == old(invocations) + 1
      ensures flow.Raise? ==> Raising(flow.fault) && old(invocations) <= invocations <= old(invocations) + 1
      ensures invocations > old(invocations) ==> Called()
      ensures Grown()
    {
      hide At, Raising;
      :- Transition(AT_LEASED, State.Executing);
      :- Audit(AT_EXECUTING, Stage.Executing);
      ghost var before := |path|;
      flow := InvokeTool();
      if flow.Done? {
        assert path[before].0.pc == IN_TOOL;
        ghost var called := path;
        flow := Digest();
        assert path[before] == called[before];
      }
    }

    method Digest() returns (flow: Flow)
      requires At(AT_TOOL_DONE)
      modifies this, store
      ensures flow.Done? ==> At(AT_CLEANUP) && life.state.Completed? && life.error.None?
      ensures flow.Raise? ==> Raising(flow.fault)
      ensures Grown() && invocations == old(invocations)
    {
      hide At, Raising;
      :- Transition(AT_TOOL_DONE, State.CollectingEvidence);
      :- Audit(AT_COLLECTING, ToolFinished);
      :- Transition(AT_TOOL_LOGGED, State.ValidatingResult);
      :- ValidateOutput();
      :- Audit(AT_OUTPUT, OutputValidated);
      :- CollectFindings();
      :- Publish();
      :- Complete();
      return Done;
    }

    method TryBody() returns (flow: Flow)
      requires At(AT_START)
      modifies this, store
      ensures flow.Done? ==> At(AT_CLEANUP) && life.state.Completed? && life.error.None? && invocations == old(invocations) + 1
      ensures flow.Raise? ==> Raising(flow.fault) && old(invocations) <= invocations <= old(invocations) + 1
      ensures invocations > old(invocations) ==> Called()
      ensures Grown()
    {
      hide At, Raising;
      :- Admit();
      :- Approve();
      :- Clear();
      flow := Execute();
    }

    /* ---------- the handlers and the finally block ---------- */

    // The two except clauses, and none for anything else.
    method Catch(f: Models.Fault)
      modifies this`life
      ensures life == Handled(old(life), f)
    {
      if TypedFault(f) {
        life := life.(error := Some(Typed(f)), outcome := OutcomeOf(f));
        var to := if f.ToolTimeout? then State.TimedOut else if Blocks(f) then State.Blocked else State.Failed;
        life := life.(state := to, states := life.states + [to]);
      } else if LibraryFault(f) {
        life := life.(error := Some(InternalFault), outcome := InternalError);
        if !(life.state.Completed? || life.state.Blocked? || life.state.Failed?) {
          life := life.(state := State.Failed, states := life.states + [State.Failed]);
        }
      } else {
        life := life.(escaping := true);
      }
    }

    method Handle(f: Models.Fault)
      requires Raising(f)
      modifies this
      ensures At(AT_CLEANUP) && Grown() && invocations == old(invocations)
      ensures life == Handled(old(life), f)
      ensures ErrorExplained(cfg, world, path, tick, life.error)
    {
      hide Sane, Step, Failing, Handled, ErrorExplained;
      ghost var m := HandleStep(cfg, world, path, tick, f, store.State());
      Catch(f);
      work, pc := Abandoned(work), AT_CLEANUP;
      Record(m);
    }

    // The finally block is about to fail with f, by move m.
    ghost predicate Ending(m: Move, f: Models.Fault)
      reads this, store
    {
      && store.Valid() && store.cfg == cfg
      && Sane(cfg, path) && path != [] && Last(path).0 == Snapshot()
      && AT_CLEANUP <= pc < RETURNED && StoreFailure(f) && tick > 0
      && Step(cfg, m, Snapshot(), Last(path).1, Fail(Snapshot(), f), store.State())
      && Caused(cfg, world(tick - 1), Snapshot(), Last(path).1, f)
    }

    // A failing release marks the run failed; FAILED is appended unless that is the
    // state already.
    method MarkReleaseFailed(ghost m: Move, ghost f: Models.Fault)
      requires Ending(m, f) && pc == AT_CLEANUP
      modifies this
      ensures At(AT_RELEASED) && life == FinallyFailed(AT_CLEANUP, old(life), StoreError)
      ensures Grown() && invocations == old(invocations)
      ensures ErrorExplained(cfg, world, path, tick, life.error)
    {
      hide Sane, Step, Caused, ErrorExplained, StoreFailed;
      ghost var r, path0 := Snapshot(), path;
      FailsAtEnd(r, f);
      if life.state != State.Failed {
        life := life.(states := life.states + [State.Failed]);
      }
      life := life.(state := State.Failed, outcome := InternalError, error := Some(LeaseCleanupFailed));
      pc := AT_RELEASED;
      Record(m);
      FinalExplained(cfg, world, path0, tick, path, f);
      StoreExplained(cfg, world, path, tick, life.error);
    }

    // A failing final audit or persist marks it failed and leaves the history alone.
    method MarkAuditFailed(ghost m: Move, ghost f: Models.Fault)
      requires Ending(m, f) && pc > AT_CLEANUP
      modifies this
      ensures At(RETURNED) && life == FinallyFailed(AT_RELEASED, old(life), StoreError)
      ensures Grown() && invocations == old(invocations)
      ensures ErrorExplained(cfg, world, path, tick, life.error)
    {
      hide Sane, Step, Caused, ErrorExplained, StoreFailed;
      ghost var r, path0 := Snapshot(), path;
      FailsAtEnd(r, f);
      life := life.(state := State.Failed, outcome := InternalError, error := Some(AuditFailure));
      pc := RETURNED;
      Record(m);
      FinalExplained(cfg, world, path0, tick, path, f);
      StoreExplained(cfg, world, path, tick, life.error);
    }

    // A failure of the finally block that is neither an OSError nor a database error.
    method Escape(f: Models.Fault)
      requires At(pc) && AT_CLEANUP <= pc < RETURNED && !StoreFailure(f)
      requires Step(cfg, Fault(f, 0.0), Snapshot(), store.State(), Fail(Snapshot(), f), store.State())
      requires ErrorExplained(cfg, world, path, tick, life.error)
      modifies this
      ensures At(RETURNED) && life == old(life).(escaping := true)
      ensures Grown() && invocations == old(invocations)
      ensures ErrorExplained(cfg, world, path, tick, life.error)
    {
      hide Sane, Step, Caused, ErrorExplained;
      ghost var r, path0, tick0 := Snapshot(), path, tick;
      life, pc := life.(escaping := true), RETURNED;
      assert Snapshot() == Fail(r, f);
      Record(Fault(f, 0.0));
      ErrorLater(cfg, world, path0, tick0, path, tick, life.error);
    }

    // What the surroundings did is not one of the failures that escape.
    ghost predicate Stays(h: Happening)
      reads this
    {
      tick > 0 && h == world(tick - 1) && (Strikes(h) ==> StoreFailure(h.fault.value))
    }

    method ReleaseLease() returns (ended: bool)
      requires At(AT_CLEANUP) && ErrorExplained(cfg, world, path, tick, life.error)
      modifies this, store
      ensures At(if ended then RETURNED else AT_RELEASED)
      ensures Grown() && invocations == old(invocations)
      ensures ErrorExplained(cfg, world, path, tick, life.error)
      ensures life == old(life) || life == old(life).(escaping := true)
              || life == FinallyFailed(AT_CLEANUP, old(life), StoreError)
    {
      hide Sane, Step, Fail, Refuses, Enabled, NewDb, NewRun, Caused, ErrorExplained, LibraryFault, FinallyFailed, Failing;
      ghost var path0, tick0 := path, tick;
      SaneEquipped(cfg, path);
      if holds.leaseId.None? {
        ReleaseNothing(cfg, path);
        pc := AT_RELEASED;
        Record(Do(Act.Release));
        ErrorLater(cfg, world, path0, tick0, path, tick, life.error);
        return false;
      }
      var h := Observe();
      ErrorLater(cfg, world, path0, tick0, path, tick, life.error);
      if Strikes(h) && !StoreFailure(h.fault.value) {
        ReleaseSteps(cfg, path, h);
        Escape(h.fault.value);
        return true;
      }
      TryRelease(h);
      return false;
    }

    method TryRelease(h: Happening)
      requires At(AT_CLEANUP) && holds.leaseId.Some? && Stays(h)
      requires ErrorExplained(cfg, world, path, tick, life.error)
      modifies this, store
      ensures At(AT_RELEASED)
      ensures Grown() && invocations == old(invocations)
      ensures ErrorExplained(cfg, world, path, tick, life.error)
      ensures life == old(life) || life == FinallyFailed(AT_CLEANUP, old(life), StoreError)
    {
      hide Sane, Step, Fail, Refuses, Enabled, NewDb, NewRun, Caused, ErrorExplained, LibraryFault, FinallyFailed, Failing;
      ghost var path0 := path;
      SaneEquipped(cfg, path);
      ReleaseSteps(cfg, path, h);
      ghost var f := if Strikes(h) then h.fault.value else StoreError;
      var io := if Strikes(h) then Fails else h.io;
      var released := store.ReleaseLease(holds.leaseId.value, io);
      if released.Raised? {
        EndCaused(cfg, Snapshot(), Last(path).1, h, f);
        MarkReleaseFailed(if io.Lost? then Lose(Act.Release) else Fault(f, 0.0), f);
        return;
      }
      pc := AT_RELEASED;
      Record(Do(Act.Release));
      ErrorLater(cfg, world, path0, tick, path, tick, life.error);
    }

    method FinalAudit() returns (ended: bool)
      requires At(AT_RELEASED) && ErrorExplained(cfg, world, path, tick, life.error)
      modifies this, store
      ensures At(if ended then RETURNED else AT_FINISHED)
      ensures Grown() && invocations == old(invocations)
      ensures ErrorExplained(cfg, world, path, tick, life.error)
      ensures life == old(life) || life == old(life).(escaping := true)
              || life == FinallyFailed(AT_RELEASED, old(life), StoreError)
    {
      hide Sane, Step, Fail, Refuses, Enabled, NewDb, NewRun, Caused, ErrorExplained, LibraryFault, FinallyFailed, Failing;
      ghost var path0, tick0 := path, tick;
      var h := Observe();
      ErrorLater(cfg, world, path0, tick0, path, tick, life.error);
      if Strikes(h) && !StoreFailure(h.fault.value) {
        SaneEquipped(cfg, path);
        FinalSteps(cfg, path, h);
        Escape(h.fault.value);
        return true;
      }
      ended := TryFinish(h);
    }

    method TryFinish(h: Happening) returns (ended: bool)
      requires At(AT_RELEASED) && Stays(h) && ErrorExplained(cfg, world, path, tick, life.error)
      modifies this, store
      ensures At(if ended then RETURNED else AT_FINISHED)
      ensures Grown() && invocations == old(invocations)
      ensures ErrorExplained(cfg, world, path, tick, life.error)
      ensures life == old(life) || life == FinallyFailed(AT_RELEASED, old(life), StoreError)
    {
      hide Sane, Step, Fail, Refuses, Enabled, NewDb, NewRun, Caused, ErrorExplained, LibraryFault, FinallyFailed, Failing,
           CleanEvent;
      ghost var path0, rows := path, store.auditEvents;
      SaneEquipped(cfg, path);
      FinalSteps(cfg, path, h);
      ghost var f := if Strikes(h) then h.fault.value else StoreError;
      var io := if Strikes(h) then Fails else h.io;
      ghost var known := store.HasEvent(h.id);
      var logged, e := store.Emit(h.id, request.id, Stage.Finished, h.texts, io);
      FinishStep(cfg, path, h.id, e);
      if logged.Raised? {
        EndCaused(cfg, Snapshot(), Last(path).1, h, f);
        MarkAuditFailed(if io.Lost? && !known then Lose(Act.Log(h.id, e.fields)) else Fault(f, 0.0), f);
        return true;
      }
      trail, pc := Trail(trail.steps + [Stage.Finished], trail.rows + [|rows|]), AT_FINISHED;
      Record(Do(Act.Log(h.id, e.fields)));
      ErrorLater(cfg, world, path0, tick, path, tick, life.error);
      return false;
    }

    // The result is stored only for a request this run reserved.
    method Persist()
      requires At(AT_FINISHED) && ErrorExplained(cfg, world, path, tick, life.error)
      modifies this, store
      ensures At(RETURNED) && Grown() && invocations == old(invocations)
      ensures ErrorExplained(cfg, world, path, tick, life.error)
      ensures life == old(life) || life == old(life).(escaping := true)
              || life == FinallyFailed(AT_RELEASED, old(life), StoreError)
    {
      hide Sane, Step, Fail, Refuses, Enabled, NewDb, NewRun, Caused, ErrorExplained, LibraryFault, FinallyFailed, Failing;
      ghost var path0, tick0 := path, tick;
      SaneEquipped(cfg, path);
      if !holds.reserved {
        PersistNothing(cfg, path);
        pc := RETURNED;
        Record(Do(Act.Persist));
        ErrorLater(cfg, world, path0, tick0, path, tick, life.error);
        return;
      }
      var h := Observe();
      ErrorLater(cfg, world, path0, tick0, path, tick, life.error);
      if Strikes(h) && !StoreFailure(h.fault.value) {
        PersistSteps(cfg, path, h);
        Escape(h.fault.value);
        return;
      }
      TryPersist(h);
    }

    method TryPersist(h: Happening)
      requires At(AT_FINISHED) && holds.reserved && Stays(h)
      requires ErrorExplained(cfg, world, path, tick, life.error)
      modifies this, store
      ensures At(RETURNED) && Grown() && invocations == old(invocations)
      ensures ErrorExplained(cfg, world, path, tick, life.error)
      ensures life == old(life) || life == FinallyFailed(AT_RELEASED, old(life), StoreError)
    {
      hide Sane, Step, Fail, Refuses, Enabled, NewDb, NewRun, Caused, ErrorExplained, LibraryFault, FinallyFailed, Failing;
      ghost var path0 := path;
      SaneEquipped(cfg, path);
      PersistSteps(cfg, path, h);
      ghost var f := if Strikes(h) then h.fault.value else StoreError;
      var io := if Strikes(h) then Fails else h.io;
      ghost var known := request.id in store.requests;
      var result := Result(life.state, life.outcome, life.states, life.error, holds.executionId,
                           work.evidenceIds, work.findingIds);
      var stored := store.PutResult(request.id, result, io);
      if stored.Raised? {
        EndCaused(cfg, Snapshot(), Last(path).1, h, f);
        MarkAuditFailed(if io.Lost? && !known then Lose(Act.Persist) else Fault(f, 0.0), f);
        return;
      }
      pc := RETURNED;
      Record(Do(Act.Persist));
      ErrorLater(cfg, world, path0, tick, path, tick, life.error);
    }

    method Finally()
      requires At(AT_CLEANUP) && ErrorExplained(cfg, world, path, tick, life.error)
      modifies this, store
      ensures At(RETURNED) && Grown() && invocations == old(invocations)
      ensures ErrorExplained(cfg, world, path, tick, life.error)
      ensures life.state.Completed? ==> old(life.state.Completed?)
    {
      hide At, ErrorExplained;
      var ended := ReleaseLease();
      if !ended {
        ended := FinalAudit();
        if !ended {
          Persist();
        }
      }
    }

    // The locals of a fresh run.
    method Open(q: Request)
      requires store.Valid() && store.cfg == cfg && ValidConfig(cfg) && ProperTable(store.State().approvals)
      modifies this
      ensures At(AT_START) && request == q && path == [(Fresh(q), old(store.State()))] && invocations == 0
    {
      hide At, Sane, ValidConfig, ProperTable;
      var r := Fresh(q);
      request, life, checks, holds, work := q, r.life, r.checks, r.holds, r.work;
      pc, trail, invocations := r.pc, r.trail, 0;
      path := [(r, store.State())];
      AtStart(q);
    }

    // One request, from its reservation to its stored result.
    method Run(q: Request) returns (result: Result, escaped: bool)
      requires store.Valid() && store.cfg == cfg && ValidConfig(cfg) && ProperTable(store.State().approvals)
      modifies this, store
      ensures At(RETURNED) && request == q && path[0] == (Fresh(q), old(store.State()))
      ensures result == ResultOf(Snapshot()) && escaped == life.escaping
      ensures LifeOk(RETURNED, life)
      ensures invocations <= 1 && (invocations == 1 ==> Called())
      ensures result.state.Completed? ==> invocations == 1
      ensures !escaped ==> ErrorExplained(cfg, world, path, tick, result.error)
    {
      hide At, Raising, Sane, ErrorExplained, LifeOk, Evolves, ProperTable, ValidConfig, Handled;
      Open(q);
      var flow := TryBody();
      ghost var tried := path;
      if flow.Raise? {
        RaisingLife(flow.fault);
        Handle(flow.fault);
      } else {
        NoError();
      }
      Finally();
      assert path[..|tried|] == tried;
      assert forall k | 0 <= k < |tried| :: path[k] == tried[k];
      RunSane(RETURNED);
      result := Result(life.state, life.outcome, life.states, life.error, holds.executionId,
                       work.evidenceIds, work.findingIds);
      escaped := life.escaping;
    }

    lemma AtStart(q: Request)
      requires store.Valid() && store.cfg == cfg && ValidConfig(cfg) && ProperTable(store.State().approvals)
      requires Snapshot() == Fresh(q) && path == [(Fresh(q), store.State())]
      ensures At(AT_START)
    {
      FreshSane(cfg, q, store.State());
    }

    lemma RaisingLife(f: Models.Fault)
      requires Raising(f)
      ensures !Handled(life, f).state.Completed?
    {
      hide Sane, Failing;
      SaneLife(cfg, path);
      NotCompleted(pc, life, f);
    }

    lemma NoError()
      requires life.error.None?
      ensures ErrorExplained(cfg, world, path, tick, life.error)
    {
    }

    lemma RunSane(p: Pc)
      requires At(p)
      ensures path != [] && path[0].0 == Fresh(request) && LifeOk(p, life) && Evolves(path[0].1, store.State())
    {
      SaneLife(cfg, path);
    }
  }

  // The point of a run at which a transition is due determines the state it is in.
  lemma TransitionAllowed(cfg: Config, path: Path)
    requires Sane(cfg, path) && EnterAt(Last(path).0.pc).Some?
    ensures SM.ValidTransition(Last(path).0.life.state, EnterAt(Last(path).0.pc).value)
  {
    hide Facts, Linked, Evolves, ProperTable, DecisionsOk, WorkOk, StepsOk, HoldsOk, SM.History;
  }

  lemma EnterStep(cfg: Config, path: Path, to: State)
    requires Sane(cfg, path) && EnterAt(Last(path).0.pc) == Some(to)
    ensures var (r, db) := Last(path);
            && InBody(r.pc)
            && Step(cfg, Do(Act.Enter), r, db, r.(pc := r.pc + 1, life := Entered(r.life, to)), db)
  {
    hide Facts, Linked, Evolves, ProperTable, DecisionsOk, WorkOk, StepsOk, HoldsOk, LifeOk, SM.History;
  }

  lemma LogStep(cfg: Config, path: Path, id: string, e: Event)
    requires Sane(cfg, path) && InBody(Last(path).0.pc) && Equipped(cfg, Last(path).0) && CleanEvent(cfg, e)
    requires e.requestId == Last(path).0.request.id
    requires LogAt(Last(path).0.pc, DecisionOf(Last(path).0.checks)) == Some(e.stage)
    ensures var (r, db) := Last(path);
            var db' := AppendEvent(cfg, db, id, e);
            && Enabled(cfg, Act.Log(id, e.fields), r, db) && Commits(Act.Log(id, e.fields), r)
            && NewDb(cfg, Act.Log(id, e.fields), r, db) == db'
            && Step(cfg, Do(Act.Log(id, e.fields)), r, db,
                    r.(pc := r.pc + 1, trail := Trail(r.trail.steps + [e.stage], r.trail.rows + [|db.audit|])), db')
  {
    hide RunOk, Linked, Evolves, ProperTable, CleanEvent;
    assert e == Event(Last(path).0.request.id, e.stage, e.fields);
  }

  lemma AskStep(cfg: Config, path: Path, id: string, at: real)
    requires Sane(cfg, path) && Last(path).0.pc == ASK_LOGGED && Equipped(cfg, Last(path).0)
    requires id !in Last(path).1.approvals.approvals
    ensures var (r, db) := Last(path);
            && Enabled(cfg, AskStore(id, at), r, db) && Commits(AskStore(id, at), r)
            && NewDb(cfg, AskStore(id, at), r, db) == Asked(cfg, r, db, id, at)
            && Step(cfg, Do(AskStore(id, at)), r, db, r.(pc := ASK_STORED), Asked(cfg, r, db, id, at))
  {
    hide RunOk, Linked, Evolves, ProperTable;
  }

  lemma TargetValid(cfg: Config, path: Path)
    requires Sane(cfg, path) && AT_RULING <= Last(path).0.pc && InBody(Last(path).0.pc)
    ensures ValidConfig(cfg) && Equipped(cfg, Last(path).0)
    ensures Scope.ValidTarget(Last(path).0.checks.target.value)
  {
    hide Facts, Linked, Evolves, ProperTable, LifeOk, WorkOk, StepsOk, HoldsOk, Scope.Evaluate, TierFact, Selectable;
  }

  lemma FindingReady(cfg: Config, path: Path)
    requires Sane(cfg, path) && Equipped(cfg, Last(path).0)
    requires Last(path).0.work.built != [] && Last(path).0.work.stored == |Last(path).0.work.built|
    ensures NextFinding(cfg, Last(path).0).Some?
  {
    hide Linked, Evolves, ProperTable, LifeOk, DecisionsOk, WorkOk, StepsOk, HoldsOk, TrailOk, GrantFact, ApprovalFact,
         Findings.Evaluate, EvidenceFact;
    FindingIsSound(cfg, Last(path).0, Last(path).1);
  }

  lemma AcquireOutcome(cfg: Config, path: Path, q: Limiter.Request, h: Happening)
    requires Sane(cfg, path) && Last(path).0.pc == AT_LEASE_CHOSEN && Equipped(cfg, Last(path).0)
    requires q == LeaseRequest(cfg, Last(path).0)
    ensures var (r, db) := Last(path);
            var (verdict, tables) := Limiter.Acquire(db.limiter, q, h.now);
            var after := if h.io.Fails? then db else db.(limiter := tables);
            && (h.io != Works || verdict.IdTaken? ==> Failing(cfg, path, StoreError, after, h))
            && (h.io.Works? && verdict.RateLimited? ==> Failing(cfg, path, Models.Fault.RateLimited, after, h))
            && (verdict.Admitted? ==>
                  Step(cfg, Do(Act.Acquire(h.now)), r, db,
                       r.(pc := AT_LEASED,
                          holds := r.holds.(executionId := r.holds.leaseId, leaseExpires := Limiter.LeaseOf(q, h.now).expires)),
                       db.(limiter := tables)))
  {
    hide RunOk, Linked, Evolves, ProperTable, Failing;
    var (r, db) := Last(path);
    var verdict := Limiter.Acquire(db.limiter, q, h.now).0;
    if verdict.RateLimited? {
      Refused(cfg, path, h, Models.Fault.RateLimited, h.now);
    }
    if verdict.IdTaken? {
      Limiter.TakenLease(db.limiter, q, h.now);
      NotStored(cfg, path, h);
    }
    if h.io != Works {
      NotStored(cfg, path, h);
    }
    if verdict.Admitted? && h.io.Lost? {
      LostStored(cfg, path, h, Act.Acquire(h.now));
    }
  }

  lemma LaunchStep(cfg: Config, path: Path)
    requires Sane(cfg, path) && Last(path).0.pc == AT_LAUNCH
    ensures var (r, db) := Last(path);
            Step(cfg, Do(Act.Invoke), r, db, r.(pc := IN_TOOL), db)
  {
    hide Sane;
    SaneEquipped(cfg, path);
  }

  lemma ItemStep(cfg: Config, path: Path)
    requires Sane(cfg, path) && Last(path).0.pc == AT_EVIDENCE && Equipped(cfg, Last(path).0)
    requires var w := Last(path).0.work;
             w.stored < |w.built| && w.built[w.stored].0 !in Last(path).1.evidence
    ensures var (r, db) := Last(path);
            var (id, item) := r.work.built[r.work.stored];
            && Enabled(cfg, Act.StoreEvidence, r, db) && Commits(Act.StoreEvidence, r)
            && NewDb(cfg, Act.StoreEvidence, r, db) == db.(evidence := db.evidence[id := item])
            && Step(cfg, Do(Act.StoreEvidence), r, db,
                    r.(work := r.work.(stored := r.work.stored + 1, evidenceIds := r.work.evidenceIds + [id])),
                    db.(evidence := db.evidence[id := item]))
  {
    hide RunOk, Linked, Evolves, ProperTable;
  }

  lemma FindingStep(cfg: Config, path: Path, id: string)
    requires Sane(cfg, path) && Last(path).0.pc == AT_EVIDENCE && Equipped(cfg, Last(path).0)
    requires Last(path).0.work.built != [] && Last(path).0.work.stored == |Last(path).0.work.built|
    requires NextFinding(cfg, Last(path).0).Some? && id !in Last(path).1.findings
    ensures var (r, db) := Last(path);
            var db' := db.(findings := db.findings[id := NextFinding(cfg, r).value]);
            && Enabled(cfg, Act.StoreFinding(id), r, db) && Commits(Act.StoreFinding(id), r)
            && NewDb(cfg, Act.StoreFinding(id), r, db) == db'
            && Step(cfg, Do(Act.StoreFinding(id)), r, db,
                    r.(work := r.work.(queue := r.work.queue[1..], built := [], stored := 0,
                                       findingIds := r.work.findingIds + [id])), db')
  {
    hide RunOk, Linked, Evolves, ProperTable, Findings.Evaluate;
  }

  // Inside the try block nothing has been caught yet.
  lemma NoErrorYet(cfg: Config, path: Path)
    requires Sane(cfg, path) && InBody(Last(path).0.pc)
    ensures Last(path).0.life.error.None? && !Last(path).0.life.escaping
  {
    hide Facts, Linked, Evolves, ProperTable, DecisionsOk, WorkOk, StepsOk, HoldsOk, SM.History;
  }

  lemma FailInBody(r: Run, f: Models.Fault)
    requires InBody(r.pc)
    ensures Fail(r, f) == r.(pc := AT_CLEANUP, life := Handled(r.life, f), work := Abandoned(r.work))
  {
  }

  lemma HandleStep(cfg: Config, world: nat -> Happening, path: Path, tick: nat, f: Models.Fault, db': Db) returns (m: Move)
    requires Sane(cfg, path) && InBody(Last(path).0.pc) && tick > 0
    requires Failing(cfg, path, f, db', world(tick - 1))
    ensures var r := Last(path).0;
            var r' := r.(pc := AT_CLEANUP, life := Handled(r.life, f), work := Abandoned(r.work));
            && Step(cfg, m, r, Last(path).1, r', db')
            && ErrorExplained(cfg, world, path + [(r', db')], tick, r'.life.error)
  {
    hide Sane, Step, Caused, Handled;
    var r := Last(path).0;
    NoErrorYet(cfg, path);
    FailInBody(r, f);
    m :| FailsBy(cfg, m, r, Last(path).1, f, db');
    var longer := path + [(Fail(r, f), db')];
    assert Caused(cfg, world(tick - 1), longer[|path| - 1].0, longer[|path| - 1].1, f);
    assert Explained(cfg, world, longer, tick, f);
    HandledError(r.life, f);
  }

  lemma HandledError(life: Life, f: Models.Fault)
    requires life.error.None?
    ensures Handled(life, f).error == if TypedFault(f) then Some(Typed(f))
                                      else if LibraryFault(f) then Some(InternalFault) else None
  {
  }

  lemma ReleaseNothing(cfg: Config, path: Path)
    requires Sane(cfg, path) && Last(path).0.pc == AT_CLEANUP && Last(path).0.holds.leaseId.None?
    ensures var (r, db) := Last(path); Step(cfg, Do(Act.Release), r, db, r.(pc := AT_RELEASED), db)
  {
    hide Sane;
    SaneEquipped(cfg, path);
  }

  lemma ReleaseSteps(cfg: Config, path: Path, h: Happening)
    requires Sane(cfg, path) && Last(path).0.pc == AT_CLEANUP && Last(path).0.holds.leaseId.Some?
    ensures var (r, db) := Last(path);
            && Step(cfg, Do(Act.Release), r, db, r.(pc := AT_RELEASED), Released(r, db))
            && Step(cfg, Lose(Act.Release), r, db, Fail(r, StoreError), Released(r, db))
            && Step(cfg, Fault(StoreError, 0.0), r, db, Fail(r, StoreError), db)
            && (Strikes(h) ==> Step(cfg, Fault(h.fault.value, 0.0), r, db, Fail(r, h.fault.value), db))
  {
    hide Sane, FinallyFailed;
    SaneEquipped(cfg, path);
  }

  // How the finally block fails at each of its points.
  lemma FailsAtEnd(r: Run, f: Models.Fault)
    requires AT_CLEANUP <= r.pc < RETURNED && StoreFailure(f)
    ensures Fail(r, f) == r.(pc := if r.pc == AT_CLEANUP then AT_RELEASED else RETURNED,
                             life := FinallyFailed(r.pc, r.life, StoreError))
    ensures r.pc > AT_CLEANUP ==> FinallyFailed(r.pc, r.life, StoreError) == FinallyFailed(AT_RELEASED, r.life, StoreError)
  {
  }

  lemma EndCaused(cfg: Config, r: Run, db: Db, h: Happening, f: Models.Fault)
    requires h.fault == Some(f) || (f.StoreError? && (h.io != Works || IdUsed(h.id, r, db)))
    ensures Caused(cfg, h, r, db, f)
  {
  }

  lemma StoreExplained(cfg: Config, world: nat -> Happening, path: Path, tick: nat, error: Option<Code>)
    requires error == Some(LeaseCleanupFailed) || error == Some(AuditFailure)
    requires StoreFailed(cfg, world, path, tick)
    ensures ErrorExplained(cfg, world, path, tick, error)
  {
  }

  lemma KnownFinding(id: string, r: Run, db: Db)
    requires id in db.findings
    ensures IdUsed(id, r, db)
  {
  }

  lemma FinalSteps(cfg: Config, path: Path, h: Happening)
    requires Sane(cfg, path) && Last(path).0.pc == AT_RELEASED
    ensures var (r, db) := Last(path);
            && Step(cfg, Fault(StoreError, 0.0), r, db, Fail(r, StoreError), db)
            && (Strikes(h) ==> Step(cfg, Fault(h.fault.value, 0.0), r, db, Fail(r, h.fault.value), db))
  {
    hide Sane, FinallyFailed;
    SaneEquipped(cfg, path);
  }

  lemma FinishStep(cfg: Config, path: Path, id: string, e: Event)
    requires Sane(cfg, path) && Last(path).0.pc == AT_RELEASED
    requires e.requestId == Last(path).0.request.id && e.stage == Stage.Finished && CleanEvent(cfg, e)
    ensures var (r, db) := Last(path);
            var db' := AppendEvent(cfg, db, id, e);
            && Step(cfg, Lose(Act.Log(id, e.fields)), r, db, Fail(r, StoreError), db')
            && Step(cfg, Do(Act.Log(id, e.fields)), r, db,
                    r.(pc := AT_FINISHED, trail := Trail(r.trail.steps + [Stage.Finished], r.trail.rows + [|db.audit|])), db')
  {
    hide Sane, FinallyFailed, CleanEvent;
    SaneEquipped(cfg, path);
    assert e == Event(Last(path).0.request.id, Stage.Finished, e.fields);
  }

  lemma PersistNothing(cfg: Config, path: Path)
    requires Sane(cfg, path) && Last(path).0.pc == AT_FINISHED && !Last(path).0.holds.reserved
    ensures var (r, db) := Last(path); Step(cfg, Do(Act.Persist), r, db, r.(pc := RETURNED), db)
  {
    hide Sane;
    SaneEquipped(cfg, path);
  }

  lemma PersistSteps(cfg: Config, path: Path, h: Happening)
    requires Sane(cfg, path) && Last(path).0.pc == AT_FINISHED && Last(path).0.holds.reserved
    ensures var (r, db) := Last(path);
            && Step(cfg, Fault(StoreError, 0.0), r, db, Fail(r, StoreError), db)
            && (Strikes(h) ==> Step(cfg, Fault(h.fault.value, 0.0), r, db, Fail(r, h.fault.value), db))
            && (r.request.id !in db.results ==>
                  && Step(cfg, Lose(Act.Persist), r, db, Fail(r, StoreError), Persisted(r, db))
                  && Step(cfg, Do(Act.Persist), r, db, r.(pc := RETURNED), Persisted(r, db)))
  {
    hide Sane, FinallyFailed, Persisted;
    SaneEquipped(cfg, path);
  }

  lemma FreshSane(cfg: Config, q: Request, db: Db)
    requires ValidConfig(cfg) && ProperTable(db.approvals)
    ensures Sane(cfg, [(Fresh(q), db)])
  {
    hide RunOk, ProperTable, Follows, Evolves;
    FreshOk(cfg, q, db);
    EvolvesLimiter(db, db.limiter);
  }

  lemma SaneLife(cfg: Config, path: Path)
    requires Sane(cfg, path)
    ensures path != [] && LifeOk(Last(path).0.pc, Last(path).0.life)
  {
    hide Facts, Linked, Evolves, ProperTable, LifeOk, DecisionsOk, WorkOk, StepsOk, HoldsOk;
  }

  lemma NotCompleted(pc: Pc, life: Life, f: Models.Fault)
    requires InBody(pc) && LifeOk(pc, life)
    ensures !Handled(life, f).state.Completed?
  {
    hide SM.History;
  }
}
