// One configuration and one request, all the way through: the request is filed for
// approval, a second person approves it, the fixture verifier runs, and a confirmed
// finding is stored.
module Example {
  import opened Models
  import opened Records
  import opened Runs
  import opened RunInvariant
  import opened System
  import opened Progress
  import AuditChain
  import Approvals
  import Limiter
  import Quarantine
  import Scope

  const WORKSPACE := Scope.Target(Scope.LocalWorkspace, "/srv/app", None, None, None, ["srv", "app"])

  const POLICY := Scope.Policy("demo", None, None, ["verify"], [], [], [], [], [], [], [["srv"]])

  const VERIFIER := Tool(
    FixtureVerify, "verify", High, ["read"], {Scope.LocalWorkspace}, false, ReadLocal, ProcessLocal, 60.0, 5)

  // A verifier of tier HIGH, so that its runs need an approval. Any signatures will do.
  function Demo(sigs: seq<Quarantine.Signature>): Config {
    Config("alice", POLICY, map["verifier" := VERIFIER], 10, 2, _ => AuditChain.GENESIS, (e: Event) => e.requestId,
           s => s, sigs, "[removed]", _ => true, _ => false, _ => Some(WORKSPACE),
           (_, _) => true, (_, _) => Low, _ => "fingerprint", _ => "", _ => "reproduced")
  }

  function Everywhere(sigs: seq<Quarantine.Signature>): Configs {
    _ => Demo(sigs)
  }

  lemma DemoValid(sigs: seq<Quarantine.Signature>)
    ensures ValidConfigs(Everywhere(sigs))
  {
  }

  // What the verifier will report.
  const SEEN := Outlook([Observation("fixture.py", 1, "query", true, Some(Rows(3, 1, true)))], true)

  function RequestId(digit: char): string {
    "req-" + seq(32, _ => digit)
  }

  // The request as it is first made, and again once it has been approved.
  function Ask(digit: char, token: string): Request {
    Request(RequestId(digit), "alice", "verify", "app", "verifier", "audit", "", token, "operator")
  }

  const FIRST := Ask('1', "")
  const SECOND := Ask('2', "approval")

  const OPERATOR := Grant("alice", "security-auditor", "verify", "verify", "/srv/app", "audit", ["read"], 0.0, 900.0)
  const APPROVER := Grant("bob", "approver", "approve", "verify", "/srv/app", "audit", ["approve"], 0.0, 900.0)
  const DECISION := Approvals.Decide("approval", "bob", "approver", true, "checked", 0.0)

  function Filed(sigs: seq<Quarantine.Signature>): Approval {
    Approval("fingerprint", "verify", "/srv/app", High, "alice", DigestOf(Demo(sigs), "verify", WORKSPACE), Pending, 1800.0,
             None, None, "")
  }

  function Grants(): map<string, Grant> {
    map["operator" := OPERATOR, "approver" := APPROVER]
  }

  function Blank(grants: map<string, Grant>, runs: map<nat, Run>): System {
    System(Db({}, map[], Limiter.Tables([], []), Approvals.Table(map[], grants), [], map[], map[]),
           runs, {}, map[], [], {}, [], 0.0)
  }

  // The state s with these approvals and approver calls.
  function With(s: System, table: Approvals.Table, ops: map<nat, Approvals.Op>): System {
    s.(db := s.db.(approvals := table), ops := ops)
  }

  lemma Approving(sigs: seq<Quarantine.Signature>, s: System, a: Approvals.Action, table: Approvals.Table,
                  ops: map<nat, Approvals.Op>)
    requires ValidConfigs(Everywhere(sigs)) && Arises(Everywhere(sigs), s) && !a.Request?
    requires Approvals.Next(ApprovalSystem(s), a, Approvals.System(table, ops))
    ensures Arises(Everywhere(sigs), With(s, table, ops))
  {
    hide Arises, ValidConfigs, Approvals.Next;
    ArisesOn(Everywhere(sigs), s, Approve(a), With(s, table, ops));
  }

  /* ---------- the request is filed ---------- */

  lemma Empty(sigs: seq<Quarantine.Signature>)
    requires ValidConfigs(Everywhere(sigs))
    ensures Arises(Everywhere(sigs), Blank(map[], map[]))
  {
    hide ValidConfigs, Next;
    assert Trace(Everywhere(sigs), [Blank(map[], map[])], []);
  }

  // The grants are issued, and Alice makes her request.
  lemma Beginning(sigs: seq<Quarantine.Signature>) returns (s: System)
    requires ValidConfigs(Everywhere(sigs))
    ensures s == Blank(Grants(), map[1 := Fresh(FIRST)]) && Arises(Everywhere(sigs), s)
  {
    hide ValidConfigs, Arises;
    Empty(sigs);
    var s0 := Blank(map[], map[]);
    var one := Approvals.Table(map[], map["operator" := OPERATOR]);
    Approving(sigs, s0, Approvals.Issue("operator", OPERATOR), one, map[]);
    var two := Approvals.Table(map[], Grants());
    assert two.grants == one.grants["approver" := APPROVER];
    Approving(sigs, With(s0, one, map[]), Approvals.Issue("approver", APPROVER), two, map[]);
    var s2 := With(With(s0, one, map[]), two, map[]);
    assert s2 == Blank(Grants(), map[]);
    s := Blank(Grants(), map[1 := Fresh(FIRST)]);
    assert s.runs == s2.runs[1 := Fresh(FIRST)];
    ArisesOn(Everywhere(sigs), s2, Begin(1, FIRST), s);
  }

  lemma ScopeAllows(now: real)
    ensures Scope.Evaluate(POLICY, WORKSPACE, "verify", now).decision == Scope.Allow
  {
    assert POLICY.allowedActions[0] == "verify";
    assert Scope.UnderRoot(WORKSPACE.parts, POLICY.roots[0]);
  }

  lemma AskAdmissible(sigs: seq<Quarantine.Signature>, digit: char, token: string)
    requires ValidConfigs(Everywhere(sigs)) && Hex(digit)
    ensures Admissible(Demo(sigs), Ask(digit, token), Grants(), 0.0) && Reports(Demo(sigs), Ask(digit, token), SEEN)
    ensures TierOf(Demo(sigs), Ask(digit, token)) == High
    ensures HasRoom(Demo(sigs), Ask(digit, token), Limiter.Tables([], []), 0.0)
  {
    ScopeAllows(0.0);
    forall id
      ensures Limiter.Acquire(Limiter.Tables([], []), AskOf(Demo(sigs), Ask(digit, token), id), 0.0).0 != Limiter.RateLimited
    {
      Limiter.CrashRecovery(Limiter.Tables([], []), AskOf(Demo(sigs), Ask(digit, token), id), 0.0);
    }
  }

  /* ---------- Bob approves it ---------- */

  function Awaiting(sigs: seq<Quarantine.Signature>): Approvals.Table {
    Approvals.Table(map["approval" := Filed(sigs)], Grants())
  }

  function Given(sigs: seq<Quarantine.Signature>): Approvals.Table {
    Approvals.Table(map["approval" := Approvals.Decided(Filed(sigs), DECISION)], Grants())
  }

  function Call(at: Approvals.Progress): map<nat, Approvals.Op> {
    map[0 := Approvals.Op(DECISION, at)]
  }

  lemma FirstFiled(sigs: seq<Quarantine.Signature>) returns (s: System)
    requires ValidConfigs(Everywhere(sigs))
    ensures Arises(Everywhere(sigs), s) && s.db.approvals == Awaiting(sigs) && s.ops == map[]
    ensures s.now == 0.0 && s.crashed == {} && 0 !in s.runs && s.calls == []
    ensures !Taken(s.db, SECOND.id) && s.db.limiter == Limiter.Tables([], [])
  {
    hide ValidConfigs, Arises, Leads, Admissible, HasRoom, Reports, SysOk, DigestOf, KnownTool, Targetable;
    var s0 := Beginning(sigs);
    AskAdmissible(sigs, '1', "");
    assert Ready(Everywhere(sigs), SEEN, s0, 1);
    ArisenOk(Everywhere(sigs), s0);
    s := CanFile(Everywhere(sigs), SEEN, s0, 1, "approval");
    ArisesFrom(Everywhere(sigs), s0, s);
    assert s.db.approvals.approvals == map["approval" := Filed(sigs)];
    assert RequestId('1')[4] != RequestId('2')[4];
  }

  lemma BobApproves(sigs: seq<Quarantine.Signature>, s: System) returns (t: System)
    requires ValidConfigs(Everywhere(sigs)) && Arises(Everywhere(sigs), s)
    requires s.db.approvals == Awaiting(sigs) && s.ops == map[]
    ensures Arises(Everywhere(sigs), t) && t == With(s, Given(sigs), t.ops)
  {
    hide ValidConfigs, Arises, DigestOf;
    var filed, pending := Filed(sigs), Awaiting(sigs);
    Approving(sigs, s, Approvals.Begin(0, DECISION), pending, Call(Approvals.Started));
    var s1 := With(s, pending, Call(Approvals.Started));
    Approving(sigs, s1, Approvals.Advance(0), pending, Call(Approvals.ReadPending(filed)));
    var s2 := With(s, pending, Call(Approvals.ReadPending(filed)));
    Approving(sigs, s2, Approvals.Advance(0), pending, Call(Approvals.Cleared(filed)));
    var s3 := With(s, pending, Call(Approvals.Cleared(filed)));
    Approving(sigs, s3, Approvals.Advance(0), pending, Call(Approvals.Audited(filed)));
    var s4 := With(s, pending, Call(Approvals.Audited(filed)));
    var decided := Approvals.Decided(filed, DECISION);
    assert pending.approvals["approval" := decided] == Given(sigs).approvals;
    Approving(sigs, s4, Approvals.Advance(0), Given(sigs), Call(Approvals.Finished(Approvals.Success(decided))));
    t := With(s, Given(sigs), Call(Approvals.Finished(Approvals.Success(decided))));
  }

  /* ---------- and it runs ---------- */

  // Alice makes her request again, with the approval.
  lemma Again(sigs: seq<Quarantine.Signature>) returns (s: System)
    requires ValidConfigs(Everywhere(sigs))
    ensures Arises(Everywhere(sigs), s) && Startable(Everywhere(sigs), SEEN, s, 0)
    ensures s.runs[0].request == SECOND && s.calls == []
  {
    hide ValidConfigs, Arises, Admissible, HasRoom, Reports, DigestOf, KnownTool, Targetable;
    var s0 := FirstFiled(sigs);
    var s1 := BobApproves(sigs, s0);
    s := s1.(runs := s1.runs[0 := Fresh(SECOND)]);
    ArisesOn(Everywhere(sigs), s1, Begin(0, SECOND), s);
    AskAdmissible(sigs, '2', "approval");
  }

  // The guarantees are about something: there is a run of the whole system in which a
  // request of tier HIGH is filed for approval, approved by somebody else and made again,
  // a tool is called, once, and a confirmed finding is stored.
  lemma SomethingHappens(sigs: seq<Quarantine.Signature>) returns (states: seq<System>, actions: seq<Action>)
    ensures ValidConfigs(Everywhere(sigs)) && Trace(Everywhere(sigs), states, actions)
    ensures var s := states[|actions|];
            && |s.calls| == 1 && s.calls[0].run == 0 && 0 in s.runs && s.runs[0].request == SECOND
            && s.runs[0].pc == RETURNED && s.runs[0].life.outcome == SuccessWithFindings
            && |s.runs[0].work.findingIds| == 1
            && s.runs[0].work.findingIds[0] in s.db.findings && s.db.findings[s.runs[0].work.findingIds[0]].confirmed
            && SECOND.id in s.db.results && s.db.results[SECOND.id] == ResultOf(s.runs[0])
  {
    hide Leads, Startable, Trace;
    DemoValid(sigs);
    var s := Again(sigs);
    var begun, steps := Witnessed(sigs, s);
    var t := CanComplete(Everywhere(sigs), SEEN, begun, steps, |steps|, 0);
    ArisesFrom(Everywhere(sigs), s, t);
    states, actions := Witnessed(sigs, t);
    assert FindingOf(t.db, SECOND, t.runs[0].work.findingIds[0], SEEN.observations[0]);
  }

  lemma Witnessed(sigs: seq<Quarantine.Signature>, s: System) returns (states: seq<System>, actions: seq<Action>)
    requires ValidConfigs(Everywhere(sigs)) && Arises(Everywhere(sigs), s)
    ensures Trace(Everywhere(sigs), states, actions) && |states| == |actions| + 1 && states[|actions|] == s
  {
    hide Next, Initial, ValidConfigs;
    states, actions :| Trace(Everywhere(sigs), states, actions) && states[|actions|] == s;
  }
}
