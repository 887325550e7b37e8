// One run of the engine as a machine whose steps are single store transactions or
// local computations. Between two steps of one run, any other run may move.
module Runs {
  import opened Models
  import opened Records
  import Findings
  import Limiter
  import Scope
  import Validation

  type State = ExecutionState

  // Program points, in the order a run passes them. Up to AT_EVIDENCE they are inside
  // the try block; AT_CLEANUP to AT_FINISHED are the finally block. The three ASK points
  // branch off at AT_WAITING and end in an exception.
  type Pc = nat

  const AT_START: Pc := 0
  const AT_VALIDATING: Pc := 1
  const AT_RESERVED: Pc := 2
  const AT_CHECKED: Pc := 3
  const AT_REQUESTED: Pc := 4
  const AT_SCOPE: Pc := 5
  const AT_RULING: Pc := 6
  const AT_RULED: Pc := 7
  const AT_SCOPED: Pc := 8
  const AT_AUTHORIZATION: Pc := 9
  const AT_PERMITTED: Pc := 10
  const AT_AUTHORIZED: Pc := 11
  const AT_RISK: Pc := 12
  const AT_ASSESSED: Pc := 13
  const AT_CLASSIFIED: Pc := 14
  const AT_WAITING: Pc := 15
  const ASK_LOGGED: Pc := 16
  const ASK_STORED: Pc := 17
  const ASK_DONE: Pc := 18
  const AT_CLEARED: Pc := 19
  const AT_APPROVAL_LOGGED: Pc := 20
  const AT_APPROVED: Pc := 21
  const AT_PREPARED: Pc := 22
  const AT_PRECONDITIONS: Pc := 23
  const AT_LEASE_CHOSEN: Pc := 24
  const AT_LEASED: Pc := 25
  const AT_EXECUTING: Pc := 26
  const AT_LAUNCH: Pc := 27
  const IN_TOOL: Pc := 28
  const AT_TOOL_DONE: Pc := 29
  const AT_COLLECTING: Pc := 30
  const AT_TOOL_LOGGED: Pc := 31
  const AT_VALIDATING_RESULT: Pc := 32
  const AT_OUTPUT: Pc := 33
  const AT_EVIDENCE: Pc := 34
  const AT_CLEANUP: Pc := 35
  const AT_RELEASED: Pc := 36
  const AT_FINISHED: Pc := 37
  const RETURNED: Pc := 38

  predicate InBody(pc: Pc) {
    pc <= AT_EVIDENCE
  }

  // The state, history and outcome of the result object; escaping marks an exception no
  // handler takes.
  datatype Life = Life(
    state: State, states: seq<State>, outcome: Outcome, error: Option<Code>, escaping: bool)

  // What the checks before the tool found, and when.
  datatype Checks = Checks(
    target: Option<Scope.Target>, ruling: Option<Scope.Ruling>, ruledAt: real, snapshotAt: real,
    grant: Option<Grant>, grantAt: real,
    tier: Option<Tier>,
    cleared: bool, approval: Option<Approval>, clearedAt: real)

  datatype Holds = Holds(reserved: bool, leaseId: Option<string>, leaseExpires: real, executionId: Option<string>)

  // The events this run emitted and the rows of the audit table that hold them.
  datatype Trail = Trail(steps: seq<Stage>, rows: seq<nat>)

  // Observations still to be processed, evidence built for the first of them, how much
  // of that is stored, the ids of everything stored so far, and whether the result has them.
  datatype Work = Work(
    complete: bool, queue: seq<Observation>, built: seq<(string, Evidence)>, stored: nat,
    evidenceIds: seq<string>, findingIds: seq<string>, listed: bool)

  // The locals of a run and the fields of its result object.
  datatype Run = Run(
    request: Request, pc: Pc, life: Life, checks: Checks, holds: Holds, trail: Trail, work: Work)

  function Fresh(request: Request): Run {
    Run(request, AT_START,
        Life(State.Created, [State.Created], InternalError, None, false),
        Checks(None, None, 0.0, 0.0, None, 0.0, None, false, None, 0.0),
        Holds(false, None, 0.0, None), Trail([], []), Work(false, [], [], 0, [], [], false))
  }

  /* ---------- checks ---------- */

  predicate Hex(c: char) {
    '0' <= c <= '9' || 'a' <= c <= 'f'
  }

  predicate ValidId(id: string) {
    |id| == 36 && id[..4] == "req-" && forall i | 4 <= i < 36 :: Hex(id[i])
  }

  predicate ValidPrincipal(p: string) {
    1 <= |p| <= 64
    && forall i | 0 <= i < |p| ::
         'a' <= p[i] <= 'z' || 'A' <= p[i] <= 'Z' || '0' <= p[i] <= '9' || p[i] == '.' || p[i] == '_' || p[i] == '-'
  }

  predicate WellFormed(cfg: Config, q: Request) {
    ValidId(q.id) && ValidPrincipal(q.requester)
  }

  predicate KnownTool(cfg: Config, q: Request) {
    q.action != "" && q.tool != "" && q.tool in cfg.registry && cfg.schemaOk(q)
  }

  // The target normalises and its canonical form holds nothing credential-shaped.
  predicate Targetable(cfg: Config, q: Request) {
    cfg.normalise(q.target).Some?
    && cfg.redact(cfg.normalise(q.target).value.canonical) == cfg.normalise(q.target).value.canonical
  }

  predicate GrantOk(cfg: Config, r: Run, db: Db, at: real)
    requires r.checks.target.Some? && r.request.tool in cfg.registry
  {
    && r.request.grantId != ""
    && r.request.grantId in db.approvals.grants
    && GrantCovers(db.approvals.grants[r.request.grantId], r.request, r.checks.target.value,
                   cfg.registry[r.request.tool].permissions, at)
  }

  predicate ApprovalOk(cfg: Config, r: Run, db: Db, at: real)
    requires r.checks.target.Some? && r.checks.tier.Some?
  {
    !RequiresApproval(r.checks.tier.value)
    || (&& r.request.approvalToken != ""
        && r.request.approvalToken in db.approvals.approvals
        && ApprovalSatisfies(db.approvals.approvals[r.request.approvalToken], r.request, r.checks.tier.value,
                             cfg.fingerprint(r.request), DigestOf(cfg, r.request.action, r.checks.target.value), at))
  }

  // The tool takes this action and kind of target, reads only, needs neither network
  // nor a stronger sandbox, and the target is there.
  predicate Selectable(cfg: Config, q: Request, target: Scope.Target)
    requires q.tool in cfg.registry
  {
    var tool := cfg.registry[q.tool];
    && tool.action == q.action
    && target.kind in tool.kinds
    && !tool.network && !cfg.wantsNetwork(q)
    && tool.sideEffects == ReadLocal
    && tool.sandbox == ProcessLocal
    && cfg.targetReady(tool.name, target)
  }

  function LeaseRequest(cfg: Config, r: Run): Limiter.Request
    requires r.checks.target.Some? && r.holds.leaseId.Some? && r.request.tool in cfg.registry
  {
    var tool := cfg.registry[r.request.tool];
    Limiter.Request(r.holds.leaseId.value, r.request.requester, r.request.tool, r.checks.target.value.canonical,
                    Limiter.Limits(tool.perMinute, cfg.ratePerMinute, cfg.maxConcurrent), tool.timeout)
  }

  // What the evidence of this run has in common.
  function OriginOf(cfg: Config, r: Run): Origin
    requires r.checks.target.Some? && r.holds.executionId.Some? && r.request.tool in cfg.registry
  {
    Origin(r.request.id, r.holds.executionId.value, cfg.registry[r.request.tool].name, r.checks.target.value.canonical)
  }

  // The finding for the first observation of the queue.
  function NextFinding(cfg: Config, r: Run): Option<Finding>
    requires r.checks.target.Some? && r.holds.executionId.Some? && r.request.tool in cfg.registry
    requires r.work.queue != []
  {
    Findings.Evaluate(cfg, OriginOf(cfg, r), r.work.queue[0], r.work.built)
  }

  /* ---------- steps of the try block ---------- */

  datatype Act =
    | Start
    | Reserve
    | Check
    | Log(eventId: string, fields: seq<string>)
    | Enter
    | Rule(at: real)
    | Snapshot(at: real)
    | CheckGrant(at: real)
    | Assess
    | Ensure(at: real)
    | AskLog(eventId: string, fields: seq<string>)
    | AskStore(approvalId: string, at: real)
    | Prepare
    | ChooseLease(leaseId: string)
    | Acquire(at: real)
    | Invoke
    | Return
    | Accept(observations: seq<Observation>, complete: bool)
    | Build(sourceId: string, testId: string)
    | StoreEvidence
    | StoreFinding(findingId: string)
    | Publish
    | Complete
    | Release
    | Persist

  // The state a transition at this point enters.
  function EnterAt(pc: Pc): Option<State> {
    if pc == AT_REQUESTED then Some(State.ScopeCheck)
    else if pc == AT_SCOPED then Some(State.AuthorizationCheck)
    else if pc == AT_AUTHORIZED then Some(State.RiskAssessment)
    else if pc == AT_CLASSIFIED then Some(State.WaitingForApproval)
    else if pc == AT_APPROVAL_LOGGED then Some(State.Approved)
    else if pc == AT_LEASED then Some(State.Executing)
    else if pc == AT_TOOL_DONE then Some(State.CollectingEvidence)
    else if pc == AT_TOOL_LOGGED then Some(State.ValidatingResult)
    else None
  }

  function DecisionOf(checks: Checks): Scope.Decision {
    if checks.ruling.Some? then checks.ruling.value.decision else Scope.Unknown
  }

  // The event logged at this point.
  function LogAt(pc: Pc, ruled: Scope.Decision): Option<Stage> {
    if pc == AT_CHECKED then Some(Requested)
    else if pc == AT_RULING then Some(ScopeRuled(ruled))
    else if pc == AT_PERMITTED then Some(Authorized)
    else if pc == AT_ASSESSED then Some(Classified)
    else if pc == ASK_STORED then Some(ApprovalPending)
    else if pc == AT_CLEARED then Some(ApprovalChecked)
    else if pc == AT_PREPARED then Some(PreconditionsPassed)
    else if pc == AT_EXECUTING then Some(Stage.Executing)
    else if pc == AT_COLLECTING then Some(ToolFinished)
    else if pc == AT_OUTPUT then Some(OutputValidated)
    else if pc == AT_RELEASED then Some(Stage.Finished)
    else None
  }

  // The point an action is taken from.
  predicate TakenAt(act: Act, pc: Pc) {
    match act
    case Start => pc == AT_START
    case Reserve => pc == AT_VALIDATING
    case Check => pc == AT_RESERVED
    case Log(_, _) => LogAt(pc, Scope.Unknown).Some?
    case Enter => EnterAt(pc).Some?
    case Rule(_) => pc == AT_SCOPE
    case Snapshot(_) => pc == AT_RULED
    case CheckGrant(_) => pc == AT_AUTHORIZATION
    case Assess => pc == AT_RISK
    case Ensure(_) => pc == AT_WAITING
    case AskLog(_, _) => pc == AT_WAITING
    case AskStore(_, _) => pc == ASK_LOGGED
    case Prepare => pc == AT_APPROVED
    case ChooseLease(_) => pc == AT_PRECONDITIONS
    case Acquire(_) => pc == AT_LEASE_CHOSEN
    case Invoke => pc == AT_LAUNCH
    case Return => pc == IN_TOOL
    case Accept(_, _) => pc == AT_VALIDATING_RESULT
    case Build(_, _) => pc == AT_EVIDENCE
    case StoreEvidence => pc == AT_EVIDENCE
    case StoreFinding(_) => pc == AT_EVIDENCE
    case Publish => pc == AT_EVIDENCE
    case Complete => pc == AT_EVIDENCE
    case Release => pc == AT_CLEANUP
    case Persist => pc == AT_FINISHED
  }

  // Where it leads: on to the next point, except that a satisfied approval check skips
  // the three ASK points and the evidence loop stays where it is.
  function NextPc(act: Act, pc: Pc): Pc {
    if act.Ensure? then AT_CLEARED
    else if act.Build? || act.StoreEvidence? || act.StoreFinding? || act.Publish? then pc
    else pc + 1
  }

  // The tool of a run past the schema check, its target, and so on: what the code
  // holds in locals at these points.
  predicate Equipped(cfg: Config, r: Run) {
    && r.pc <= RETURNED
    && (r.pc >= AT_CHECKED && InBody(r.pc) ==> r.request.tool in cfg.registry)
    && (r.pc >= AT_RULING && InBody(r.pc) ==> r.checks.target.Some? && r.checks.ruling.Some?)
    && (r.pc >= AT_ASSESSED && InBody(r.pc) ==> r.checks.tier.Some?)
    && (r.pc >= AT_LEASE_CHOSEN && InBody(r.pc) ==> r.holds.leaseId.Some?)
    && (r.pc >= AT_EXECUTING && InBody(r.pc) ==> r.holds.executionId.Some?)
    && r.work.stored <= |r.work.built|
    && (r.work.built != [] ==> r.pc == AT_EVIDENCE && r.work.queue != [])
  }

  // What the point demands before the action succeeds.
  ghost predicate Guard(cfg: Config, act: Act, r: Run, db: Db)
    requires ValidConfig(cfg) && Equipped(cfg, r) && TakenAt(act, r.pc)
  {
    match act
    case Reserve => WellFormed(cfg, r.request) && r.request.requester == cfg.actor && !Taken(db, r.request.id)
    case Check => KnownTool(cfg, r.request)
    case Log(_, fields) => CleanEvent(cfg, Event(r.request.id, LogAt(r.pc, DecisionOf(r.checks)).value, fields))
    case Rule(_) => Targetable(cfg, r.request)
    case Snapshot(at) =>
      && DecisionOf(r.checks) == Scope.Allow
      && Scope.ValidTarget(r.checks.target.value)
      && Scope.Evaluate(cfg.policy, r.checks.target.value, r.request.action, at).decision == Scope.Allow
    case CheckGrant(at) => GrantOk(cfg, r, db, at)
    case Ensure(at) => ApprovalOk(cfg, r, db, at)
    case AskLog(_, fields) =>
      && RequiresApproval(r.checks.tier.value) && r.request.approvalToken == ""
      && CleanEvent(cfg, Event(r.request.id, Other("APPROVAL_REQUESTED"), fields))
    case AskStore(id, _) => id !in db.approvals.approvals
    case Prepare => Selectable(cfg, r.request, r.checks.target.value)
    case Acquire(at) => Limiter.Acquire(db.limiter, LeaseRequest(cfg, r), at).0 == Limiter.Admitted
    case Return => !cfg.registry[r.request.tool].name.OtherTool?
    case Accept(observations, complete) => Validation.OutputOk(cfg.registry[r.request.tool].name, observations, complete)
    case Build(sourceId, testId) => r.work.queue != [] && r.work.built == []
    case StoreEvidence => r.work.stored < |r.work.built| && r.work.built[r.work.stored].0 !in db.evidence
    case StoreFinding(id) =>
      && r.work.built != [] && r.work.stored == |r.work.built| && id !in db.findings
      && NextFinding(cfg, r).Some?
    case Publish => r.work.queue == []
    case Complete => r.work.queue == [] && r.work.listed
    case Persist => r.holds.reserved ==> r.request.id !in db.results
    case _ => true
  }

  ghost predicate Enabled(cfg: Config, act: Act, r: Run, db: Db)
    requires ValidConfig(cfg) && Equipped(cfg, r)
  {
    TakenAt(act, r.pc) && Guard(cfg, act, r, db)
  }

  /* ---------- what a step does to the run ---------- */

  function Entered(life: Life, to: State): Life {
    life.(state := to, states := life.states + [to])
  }

  function NewLife(act: Act, r: Run): Life
    requires TakenAt(act, r.pc)
  {
    match act
    case Start => Entered(r.life, State.Validating)
    case Enter => Entered(r.life, EnterAt(r.pc).value)
    case Complete =>
      Entered(r.life, State.Completed).(
        outcome := if !r.work.complete then Inconclusive
                   else if r.work.findingIds != [] then SuccessWithFindings else SuccessNoFindings)
    case _ => r.life
  }

  ghost function NewChecks(cfg: Config, act: Act, r: Run, db: Db): Checks
    requires ValidConfig(cfg) && Equipped(cfg, r) && Enabled(cfg, act, r, db)
  {
    match act
    case Rule(at) =>
      var target := cfg.normalise(r.request.target).value;
      r.checks.(target := Some(target), ruledAt := at,
                ruling := Some(Scope.Evaluate(cfg.policy, target, r.request.action, at)))
    case Snapshot(at) => r.checks.(snapshotAt := at)
    case CheckGrant(at) => r.checks.(grant := Some(db.approvals.grants[r.request.grantId]), grantAt := at)
    case Assess =>
      r.checks.(tier := Some(Floored(cfg.assess(r.request, r.checks.target.value), cfg.registry[r.request.tool].tier)))
    case Ensure(at) =>
      r.checks.(cleared := true, clearedAt := at,
                approval := if RequiresApproval(r.checks.tier.value)
                            then Some(db.approvals.approvals[r.request.approvalToken]) else None)
    case _ => r.checks
  }

  function NewHolds(cfg: Config, act: Act, r: Run): Holds
    requires TakenAt(act, r.pc) && Equipped(cfg, r)
  {
    match act
    case Reserve => r.holds.(reserved := true)
    case ChooseLease(id) => r.holds.(leaseId := Some(id))
    case Acquire(at) =>
      r.holds.(executionId := r.holds.leaseId, leaseExpires := Limiter.LeaseOf(LeaseRequest(cfg, r), at).expires)
    case _ => r.holds
  }

  function NewTrail(act: Act, r: Run, db: Db): Trail
    requires TakenAt(act, r.pc)
  {
    if act.Log?
    then Trail(r.trail.steps + [LogAt(r.pc, DecisionOf(r.checks)).value], r.trail.rows + [|db.audit|])
    else r.trail
  }

  ghost function NewWork(cfg: Config, act: Act, r: Run, db: Db): Work
    requires ValidConfig(cfg) && Equipped(cfg, r) && Enabled(cfg, act, r, db)
  {
    match act
    case Accept(observations, complete) => r.work.(queue := observations, complete := complete)
    case Build(sourceId, testId) =>
      r.work.(built := Findings.EvidenceFor(cfg, OriginOf(cfg, r), r.work.queue[0], sourceId, testId), stored := 0)
    case StoreEvidence =>
      r.work.(stored := r.work.stored + 1, evidenceIds := r.work.evidenceIds + [r.work.built[r.work.stored].0])
    case StoreFinding(id) =>
      r.work.(queue := r.work.queue[1..], built := [], stored := 0, findingIds := r.work.findingIds + [id])
    case Publish => r.work.(listed := true)
    case _ => r.work
  }

  ghost function NewRun(cfg: Config, act: Act, r: Run, db: Db): Run
    requires ValidConfig(cfg) && Equipped(cfg, r) && Enabled(cfg, act, r, db)
  {
    Run(r.request, NextPc(act, r.pc), NewLife(act, r), NewChecks(cfg, act, r, db), NewHolds(cfg, act, r),
        NewTrail(act, r, db), NewWork(cfg, act, r, db))
  }

  /* ---------- what a step does to the store ---------- */

  function ResultOf(r: Run): Result {
    Result(r.life.state, r.life.outcome, r.life.states, r.life.error, r.holds.executionId,
           r.work.evidenceIds, r.work.findingIds)
  }

  function Persisted(r: Run, db: Db): Db {
    if r.holds.reserved
    then db.(results := db.results[r.request.id := ResultOf(r)], reservations := db.reservations - {r.request.id})
    else db
  }

  function Released(r: Run, db: Db): Db {
    if r.holds.leaseId.Some? then db.(limiter := Limiter.Release(db.limiter, r.holds.leaseId.value)) else db
  }

  function NewApproval(cfg: Config, r: Run, at: real): Approval
    requires r.checks.target.Some? && r.checks.tier.Some?
  {
    Approval(cfg.fingerprint(r.request), r.request.action, r.checks.target.value.canonical, r.checks.tier.value,
             r.request.requester, DigestOf(cfg, r.request.action, r.checks.target.value),
             Pending, at + 1800.0, None, None, "")
  }

  function Asked(cfg: Config, r: Run, db: Db, id: string, at: real): Db
    requires r.checks.target.Some? && r.checks.tier.Some?
  {
    db.(approvals := db.approvals.(approvals := db.approvals.approvals[id := NewApproval(cfg, r, at)]))
  }

  ghost function NewDb(cfg: Config, act: Act, r: Run, db: Db): Db
    requires ValidConfig(cfg) && Equipped(cfg, r) && Enabled(cfg, act, r, db)
  {
    match act
    case Reserve => db.(reservations := db.reservations + {r.request.id})
    case Log(eventId, fields) =>
      AppendEvent(cfg, db, eventId, Event(r.request.id, LogAt(r.pc, DecisionOf(r.checks)).value, fields))
    case AskLog(eventId, fields) =>
      AppendEvent(cfg, db, eventId, Event(r.request.id, Other("APPROVAL_REQUESTED"), fields))
    case AskStore(id, at) => Asked(cfg, r, db, id, at)
    case Acquire(at) => db.(limiter := Limiter.Acquire(db.limiter, LeaseRequest(cfg, r), at).1)
    case StoreEvidence => db.(evidence := db.evidence[r.work.built[r.work.stored].0 := r.work.built[r.work.stored].1])
    case StoreFinding(id) => db.(findings := db.findings[id := NextFinding(cfg, r).value])
    case Release => Released(r, db)
    case Persist => Persisted(r, db)
    case _ => db
  }

  /* ---------- exceptions ---------- */

  predicate TypedFault(f: Fault) {
    !LibraryFault(f) && !f.Uncaught?
  }

  predicate LibraryFault(f: Fault) {
    f.OsError? || f.StoreError? || f.RuntimeFault? || f.ValueFault? || f.TypeFault?
  }

  // Failures that end in BLOCKED. A ScopeUnknown is a ScopeDenied.
  predicate Blocks(f: Fault) {
    f.ScopeDenied? || f.ScopeUnknown? || f.AuthorizationDenied? || f.ApprovalRequired? || f.ApprovalExpired?
    || f.ApprovalInvalid? || f.NetworkDenied? || f.RateLimited? || f.InvalidInput? || f.SandboxFailure?
    || f.ToolUnknown?
  }

  function OutcomeOf(f: Fault): Outcome {
    match f
    case ScopeDenied => InvalidScope
    case ScopeUnknown => InvalidScope
    case AuthorizationDenied => DeniedAuthorization
    case ApprovalRequired => ApprovalIsRequired
    case ApprovalExpired => ApprovalHasExpired
    case ApprovalInvalid => ApprovalIsInvalid
    case ToolUnknown => BlockedPolicy
    case ToolUnavailable => ToolIsUnavailable
    case ToolExecutionFailed => ToolHasFailed
    case ToolTimeout => Timeout
    case InvalidOutput => OutputInvalid
    case InvalidInput => InputInvalid
    case SandboxFailure => SandboxUnavailable
    case NetworkDenied => NetworkIsDenied
    case RateLimited => RateIsLimited
    case _ => BlockedPolicy
  }

  function EndState(f: Fault): State {
    if f.ToolTimeout? then State.TimedOut else if Blocks(f) then State.Blocked else State.Failed
  }

  // The two handlers of the try block. Anything they do not catch passes on to the
  // finally block with the state as it was.
  function Handled(life: Life, f: Fault): Life {
    if TypedFault(f) then
      Entered(life, EndState(f)).(error := Some(Typed(f)), outcome := OutcomeOf(f))
    else if LibraryFault(f) then
      var failed := life.(error := Some(InternalFault), outcome := InternalError);
      if life.state.Completed? || life.state.Blocked? || life.state.Failed? then failed else Entered(failed, State.Failed)
    else
      life.(escaping := true)
  }

  predicate StoreFailure(f: Fault) {
    f.OsError? || f.StoreError?
  }

  // In the finally block, a failing release marks the run failed and appends FAILED
  // unless that is its state already; a failing final audit or persist marks it failed
  // without touching the history; any other failure passes on to the caller.
  function FinallyFailed(pc: Pc, life: Life, f: Fault): Life {
    if !StoreFailure(f) then life.(escaping := true)
    else if pc == AT_CLEANUP then
      life.(state := State.Failed, outcome := InternalError, error := Some(LeaseCleanupFailed),
            states := if life.state.Failed? then life.states else life.states + [State.Failed])
    else
      life.(state := State.Failed, outcome := InternalError, error := Some(AuditFailure))
  }

  // The ids of evidence and findings reach the result only after the loop has ended.
  function Abandoned(w: Work): Work {
    if w.listed then w.(built := [], stored := 0)
    else w.(built := [], stored := 0, evidenceIds := [], findingIds := [])
  }

  // A failure at this point of the run.
  function Fail(r: Run, f: Fault): Run {
    if InBody(r.pc) then
      r.(pc := AT_CLEANUP, life := Handled(r.life, f), work := Abandoned(r.work))
    else
      r.(pc := if r.pc == AT_CLEANUP && StoreFailure(f) then AT_RELEASED else RETURNED,
         life := FinallyFailed(r.pc, r.life, f))
  }

  // Which typed failures a component raises in the try block, and under which condition.
  ghost predicate Refuses(cfg: Config, r: Run, db: Db, f: Fault, at: real)
    requires ValidConfig(cfg) && Equipped(cfg, r) && InBody(r.pc)
  {
    if r.pc == AT_VALIDATING then
      if !WellFormed(cfg, r.request) then f.InvalidInput?
      else if r.request.requester != cfg.actor then f.AuthorizationDenied?
      else f.InvalidInput? && Taken(db, r.request.id)
    else if r.pc == AT_RESERVED then
      if r.request.action == "" || r.request.tool == "" then f.InvalidInput?
      else if r.request.tool !in cfg.registry then f.ToolUnknown?
      else f.InvalidInput? && !cfg.schemaOk(r.request)
    else if r.pc == AT_SCOPE then f.InvalidInput? && !Targetable(cfg, r.request)
    else if r.pc == AT_RULED then
      if DecisionOf(r.checks) == Scope.Unknown then f.ScopeUnknown?
      else if DecisionOf(r.checks) == Scope.Deny then f.ScopeDenied?
      else f.InvalidInput? && Scope.ValidTarget(r.checks.target.value)
           && Scope.Evaluate(cfg.policy, r.checks.target.value, r.request.action, at).decision != Scope.Allow
    else if r.pc == AT_AUTHORIZATION then f.AuthorizationDenied? && !GrantOk(cfg, r, db, at)
    else if r.pc == AT_WAITING then
      && RequiresApproval(r.checks.tier.value) && r.request.approvalToken != ""
      && if r.request.approvalToken !in db.approvals.approvals then f.ApprovalInvalid?
         else if at > db.approvals.approvals[r.request.approvalToken].expiresAt then f.ApprovalExpired?
         else f.ApprovalInvalid? && !ApprovalOk(cfg, r, db, at)
    else if r.pc == ASK_DONE then f.ApprovalRequired?
    else if r.pc == AT_APPROVED then
      var tool := cfg.registry[r.request.tool];
      if tool.action != r.request.action || r.checks.target.value.kind !in tool.kinds then f.InvalidInput?
      else if tool.network || cfg.wantsNetwork(r.request) then f.NetworkDenied?
      else if tool.sideEffects != ReadLocal || tool.sandbox != ProcessLocal then f.SandboxFailure?
      else f.InvalidInput? && !cfg.targetReady(tool.name, r.checks.target.value)
    else if r.pc == AT_LEASE_CHOSEN then
      f.RateLimited? && Limiter.Acquire(db.limiter, LeaseRequest(cfg, r), at).0 == Limiter.RateLimited
    else if r.pc == IN_TOOL then
      f.SandboxFailure? || f.ToolTimeout? || f.InvalidInput? || f.ToolUnavailable?
      || f.ToolExecutionFailed? || f.InvalidOutput?
    else if r.pc == AT_VALIDATING_RESULT then f.InvalidOutput?
    else if r.pc == AT_EVIDENCE then
      f.EvidenceValidationFailed? && r.work.built != [] && r.work.stored == |r.work.built|
      && NextFinding(cfg, r).None?
    else false
  }

  // The library failures, and those nobody catches, may come from anywhere.
  ghost predicate MayRaise(cfg: Config, r: Run, db: Db, f: Fault, at: real)
    requires ValidConfig(cfg) && Equipped(cfg, r)
  {
    if InBody(r.pc) then LibraryFault(f) || f.Uncaught? || Refuses(cfg, r, db, f, at)
    else
      && (LibraryFault(f) || f.Uncaught?)
      && (r.pc == AT_RELEASED || (r.pc == AT_CLEANUP && r.holds.leaseId.Some?) || (r.pc == AT_FINISHED && r.holds.reserved))
  }

  // A commit can be lost only where there is one.
  predicate Commits(act: Act, r: Run) {
    || act.Reserve? || act.Log? || act.AskLog? || act.AskStore? || act.Acquire? || act.StoreEvidence?
    || act.StoreFinding? || (act.Release? && r.holds.leaseId.Some?) || (act.Persist? && r.holds.reserved)
  }

  // One step of a run: an action, an action whose transaction commits although the
  // call reports a failure, or a failure that changed nothing.
  datatype Move = Do(act: Act) | Lose(act: Act) | Fault(fault: Fault, at: real)

  ghost predicate Step(cfg: Config, m: Move, r: Run, db: Db, r': Run, db': Db)
    requires ValidConfig(cfg)
  {
    && Equipped(cfg, r)
    && match m
       case Do(act) => Enabled(cfg, act, r, db) && r' == NewRun(cfg, act, r, db) && db' == NewDb(cfg, act, r, db)
       case Lose(act) =>
         && Enabled(cfg, act, r, db) && Commits(act, r)
         && db' == NewDb(cfg, act, r, db) && r' == Fail(r, StoreError)
       case Fault(f, at) => MayRaise(cfg, r, db, f, at) && db' == db && r' == Fail(r, f)
  }
}
