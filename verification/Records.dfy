// What the store holds and what a control plane is configured with.
module Records {
  import opened Models
  import AuditChain
  import Approvals
  import Limiter
  import Quarantine
  import Scope
  import ScopeDigest

  /* ---------- audit events ---------- */

  // What an audit event of a run records, in the order a completed run emits them.
  datatype Stage =
    | Requested
    | ScopeRuled(decision: Scope.Decision)
    | Authorized
    | Classified
    | ApprovalPending
    | ApprovalChecked
    | PreconditionsPassed
    | Executing
    | ToolFinished
    | OutputValidated
    | Finished
    | Other(text: string)       // events of approvals, grants and other commands

  // Fields are the free-text ones: operator, action, target, policy, risk, approval,
  // tool, execution, result and reason.
  datatype Event = Event(requestId: string, stage: Stage, fields: seq<string>)

  /* ---------- tools ---------- */

  datatype ToolName = StaticScan | FixtureVerify | OtherTool(name: string)

  datatype SideEffects = NoEffects | ReadLocal | WriteWorkspace | NetworkEffects

  datatype Sandbox = NoSandbox | ProcessLocal | Container

  datatype Tool = Tool(
    name: ToolName, action: string, tier: Tier, permissions: seq<string>, kinds: set<Scope.Kind>,
    network: bool, sideEffects: SideEffects, sandbox: Sandbox, timeout: real, perMinute: int)

  /* ---------- evidence and findings ---------- */

  // Row counts of the two queries of a reproduction.
  datatype Rows = Rows(unsafeRows: int, parameterizedRows: int, synthetic: bool)

  // Line numbers start at 1.
  type Line = n: int | n >= 1 witness 1

  // What a tool claims to have seen.
  datatype Observation = Observation(
    file: string, line: Line, snippet: string, verified: bool, reproduction: Option<Rows>)

  datatype Category = SourceCode | TestResult

  // What all evidence of one execution has in common.
  datatype Origin = Origin(requestId: string, executionId: string, tool: ToolName, target: string)

  datatype Evidence = Evidence(
    origin: Origin, category: Category, content: string, contentHash: string, independent: bool)

  datatype Finding = Finding(
    requestId: string, target: string, tool: ToolName, evidenceIds: seq<string>,
    confirmed: bool, reproduction: bool)

  /* ---------- results ---------- */

  datatype Code = Typed(fault: Fault) | InternalFault | LeaseCleanupFailed | AuditFailure

  datatype Result = Result(
    state: ExecutionState, outcome: Outcome, history: seq<ExecutionState>, error: Option<Code>,
    executionId: Option<string>, evidenceIds: seq<string>, findingIds: seq<string>)

  /* ---------- the tables ---------- */

  datatype Db = Db(
    reservations: set<string>,
    results: map<string, Result>,
    limiter: Limiter.Tables,
    approvals: Approvals.Table,
    audit: AuditChain.Table,
    evidence: map<string, Evidence>,
    findings: map<string, Finding>)

  // A request id that some run has reserved, whether or not it has finished.
  predicate Taken(db: Db, id: string) {
    id in db.reservations || id in db.results
  }

  /* ---------- configuration ---------- */

  // Library behaviour enters as functions: parsing and hashing, schemas, risk tables.
  datatype Config = Config(
    actor: string,
    policy: Scope.Policy,
    registry: map<string, Tool>,
    ratePerMinute: int,
    maxConcurrent: nat,
    hash: AuditChain.Hash,
    json: Event -> string,
    redact: string -> string,
    signatures: seq<Quarantine.Signature>,
    token: Quarantine.Token,
    schemaOk: Request -> bool,
    wantsNetwork: Request -> bool,
    normalise: string -> Option<Scope.Target>,
    targetReady: (ToolName, Scope.Target) -> bool,
    assess: (Request, Scope.Target) -> Tier,
    fingerprint: Request -> string,
    isoformat: real -> string,
    summary: Observation -> string)

  ghost predicate ValidConfig(cfg: Config) {
    && Scope.ValidPolicy(cfg.policy)
    && forall s :: cfg.normalise(s).Some? ==> Scope.ValidTarget(cfg.normalise(s).value)
  }

  function Printed(cfg: Config, moment: Option<real>): string {
    if moment.Some? then cfg.isoformat(moment.value) else ""
  }

  // The snapshot of the policy of this configuration for one action on one target.
  function SnapshotOf(cfg: Config, action: string, target: Scope.Target): ScopeDigest.Scope {
    var p := cfg.policy;
    ScopeDigest.Snapshot(
      ScopeDigest.Scope(p.name, [], [], p.forbiddenTargets, p.forbiddenActions,
                        Printed(cfg, p.validFrom), Printed(cfg, p.validUntil), []),
      target.canonical, action)
  }

  // What an approval is bound to: the digest of the snapshot's text.
  function DigestOf(cfg: Config, action: string, target: Scope.Target): string {
    cfg.hash(ScopeDigest.Text(SnapshotOf(cfg, action, target)))
  }

  // No field matches any injection signature.
  ghost predicate CleanEvent(cfg: Config, e: Event) {
    forall k | 0 <= k < |e.fields| :: Quarantine.Free(cfg.signatures, e.fields[k])
  }

  // This row holds a clean event.
  ghost predicate CleanRow(cfg: Config, row: AuditChain.Row) {
    exists e: Event :: row.data == cfg.json(e) && CleanEvent(cfg, e)
  }

  // Row i of the audit table is an event of this stage of this request.
  ghost predicate LoggedAt(cfg: Config, audit: AuditChain.Table, i: nat, requestId: string, stage: Stage) {
    && i < |audit|
    && exists e: Event :: audit[i].data == cfg.json(e) && e.requestId == requestId && e.stage == stage
  }

  function AppendEvent(cfg: Config, db: Db, eventId: string, e: Event): Db {
    db.(audit := AuditChain.Append(cfg.hash, db.audit, eventId, cfg.json(e)))
  }

  /* ---------- capability grants ---------- */

  function RoleCapabilities(role: string): set<string> {
    if role == "operator" then {"scan", "report"}
    else if role == "security-auditor" then {"scan", "verify", "report"}
    else if role == "approver" then {"approve"}
    else {}
  }

  // The grant authorizes exactly this principal, target, purpose and action, now, and
  // carries every permission the tool needs.
  predicate GrantCovers(g: Grant, r: Request, t: Scope.Target, permissions: seq<string>, moment: real) {
    && g.principal == r.requester
    && g.targetPattern == t.canonical
    && g.purpose == r.purpose
    && g.action == r.action
    && ActiveAt(g, moment)
    && g.capability in RoleCapabilities(g.role)
    && forall p | p in permissions :: p in g.privileges
  }

  // The stored record satisfies the approval check of this request at this moment.
  predicate ApprovalSatisfies(a: Approval, r: Request, tier: Tier, fingerprint: string, digest: string, moment: real) {
    && moment <= a.expiresAt
    && a.state == Granted
    && a.approver != Some(r.requester)
    && a.fingerprint == fingerprint
    && a.scopeDigest == digest
    && a.tier == tier
    && a.requester == r.requester
  }
}
