// Deciding and revoking approvals while other processes do the same.
//
// A call reads the record, checks its copy, reads a grant, writes an audit event, and
// finally swaps the record if its stored state is still the one it read. Each of these
// is a separate step here, and the steps of any number of calls interleave freely.
module Approvals {
  import opened Models

  datatype Table = Table(approvals: map<string, Approval>, grants: map<string, Grant>)

  /* ---------- the calls ---------- */

  datatype Call =
    | Decide(id: string, approver: string, grantId: string, approve: bool, reason: string, moment: real)
    | Revoke(id: string, approver: string, at: real)

  datatype Answer = Success(record: Approval) | Refused(fault: Fault)

  // Where a call is. The copy it works on is the record as it was read.
  datatype Progress =
    | Started
    | ReadPending(copy: Approval)        // decide: state and expiry and identity checked
    | Cleared(copy: Approval)            // all checks passed; the audit event comes next
    | Audited(copy: Approval)            // next: compare and swap
    | Expiring(copy: Approval)           // decide found it expired; next: mark it so
    | Finished(answer: Answer)

  datatype Op = Op(call: Call, at: Progress)

  function Truncated(reason: string): string {
    if |reason| <= 200 then reason else reason[..200]
  }

  // The approver's grant covers this decision at this moment.
  predicate ApproverGrant(g: Grant, record: Approval, approver: string, moment: real) {
    && g.principal == approver
    && g.role == "approver"
    && g.capability == "approve"
    && g.action == record.action
    && "approve" in g.privileges
    && ActiveAt(g, moment)
    && g.targetPattern == record.target
  }

  // The record a successful decide writes, from the copy it read.
  function Decided(copy: Approval, c: Call): Approval
    requires c.Decide?
  {
    copy.(state := if c.approve then Granted else Rejected,
          approver := Some(c.approver), decidedAt := Some(c.moment), reason := Truncated(c.reason))
  }

  function RevokedFrom(copy: Approval, c: Call): Approval
    requires c.Revoke?
  {
    copy.(state := Revoked, decidedAt := Some(c.at))
  }

  function Written(copy: Approval, c: Call): Approval {
    if c.Decide? then Decided(copy, c) else RevokedFrom(copy, c)
  }

  function Expected(c: Call): ApprovalState {
    if c.Decide? then Pending else Granted
  }

  // Compare and swap on the stored state alone.
  function Swap(t: Table, id: string, expected: ApprovalState, record: Approval): (bool, Table) {
    if id in t.approvals && t.approvals[id].state == expected
    then (true, t.(approvals := t.approvals[id := record]))
    else (false, t)
  }

  /* ---------- steps ---------- */

  // The read and the checks on the copy. None: go on.
  function Read(t: Table, c: Call): Progress {
    if c.id !in t.approvals then Finished(Refused(ApprovalInvalid))
    else
      var copy := t.approvals[c.id];
      match c
      case Decide(_, approver, _, _, _, moment) =>
        if copy.state != Pending then Finished(Refused(ApprovalInvalid))
        else if moment > copy.expiresAt then Expiring(copy)
        else if approver == copy.requester || approver == "" then Finished(Refused(SelfApprovalDenied))
        else ReadPending(copy)
      case Revoke(_, revoker, _) =>
        if copy.state != Granted then Finished(Refused(ApprovalInvalid))
        else if copy.approver != Some(revoker) then Finished(Refused(AuthorizationDenied))
        else Cleared(copy)
  }

  function CheckGrant(t: Table, c: Call, copy: Approval): Progress
    requires c.Decide?
  {
    if c.grantId in t.grants && ApproverGrant(t.grants[c.grantId], copy, c.approver, c.moment)
    then Cleared(copy)
    else Finished(Refused(AuthorizationDenied))
  }

  // One step of one call. The audit append concerns another table.
  function StepOp(t: Table, op: Op): (Op, Table)
    requires op.at.ReadPending? ==> op.call.Decide?
  {
    match op.at
    case Started => (op.(at := Read(t, op.call)), t)
    case ReadPending(copy) => (op.(at := CheckGrant(t, op.call, copy)), t)
    case Cleared(copy) => (op.(at := Audited(copy)), t)
    case Audited(copy) =>
      var record := Written(copy, op.call);
      var (done, t') := Swap(t, op.call.id, Expected(op.call), record);
      (op.(at := Finished(if done then Success(record) else Refused(ApprovalInvalid))), t')
    case Expiring(copy) =>
      var (_, t') := Swap(t, op.call.id, Pending, copy.(state := Expired));
      (op.(at := Finished(Refused(ApprovalExpired))), t')
    case Finished(_) => (op, t)
  }

  function Failing(op: Op): Op {
    op.(at := Finished(Refused(StoreError)))
  }

  datatype System = System(table: Table, ops: map<nat, Op>)

  datatype Action =
    | Begin(op: nat, call: Call)
    | Advance(op: nat)
    | Lose(op: nat)                         // the step commits, but the call fails with it
    | Abort(op: nat)                        // a store or audit failure, or a crash
    | Request(id: string, record: Approval) // put_approval: a fresh id, still pending
    | Issue(grantId: string, grant: Grant)  // put_grant: a fresh id

  predicate FreshRecord(a: Approval) {
    a.state == Pending && a.approver.None? && a.decidedAt.None?
  }

  predicate Next(s: System, a: Action, s': System) {
    match a
    case Begin(i, call) => i !in s.ops && s' == s.(ops := s.ops[i := Op(call, Started)])
    case Advance(i) =>
      && i in s.ops && (s.ops[i].at.ReadPending? ==> s.ops[i].call.Decide?)
      && var (op, t) := StepOp(s.table, s.ops[i]);
         s' == System(t, s.ops[i := op])
    case Lose(i) =>
      && i in s.ops && !s.ops[i].at.Finished? && (s.ops[i].at.ReadPending? ==> s.ops[i].call.Decide?)
      && s' == System(StepOp(s.table, s.ops[i]).1, s.ops[i := Failing(s.ops[i])])
    case Abort(i) =>
      && i in s.ops && !s.ops[i].at.Finished?
      && s' == s.(ops := s.ops[i := Failing(s.ops[i])])
    case Request(id, record) =>
      && id !in s.table.approvals && FreshRecord(record)
      && s' == s.(table := s.table.(approvals := s.table.approvals[id := record]))
    case Issue(id, grant) =>
      && id !in s.table.grants
      && s' == s.(table := s.table.(grants := s.table.grants[id := grant]))
  }

  /* ---------- the invariant ---------- */

  function Stage(s: ApprovalState): nat {
    match s
    case Pending => 0
    case Granted => 1
    case Rejected => 2
    case Expired => 2
    case Revoked => 2
  }

  predicate SameTerms(a: Approval, b: Approval) {
    && a.fingerprint == b.fingerprint && a.action == b.action && a.target == b.target && a.tier == b.tier
    && a.requester == b.requester && a.scopeDigest == b.scopeDigest && a.expiresAt == b.expiresAt
  }

  // PENDING -> APPROVED | REJECTED | EXPIRED, APPROVED -> REVOKED.
  predicate LegalMove(a: ApprovalState, b: ApprovalState) {
    || (a == Pending && (b == Granted || b == Rejected || b == Expired))
    || (a == Granted && b == Revoked)
  }

  // b is a, or what legal moves made of it. A state never comes back, so a record
  // whose state is unchanged is unchanged.
  predicate Descends(a: Approval, b: Approval) {
    && SameTerms(a, b)
    && (a == b || Stage(a.state) < Stage(b.state))
  }

  // A decided record was decided in time by somebody other than its requester who
  // held a grant for it.
  ghost predicate Proper(a: Approval, grants: map<string, Grant>) {
    && (a.state == Pending ==> a.approver.None? && a.decidedAt.None?)
    && (a.state == Granted || a.state == Rejected ==>
          && a.approver.Some? && a.decidedAt.Some?
          && a.approver.value != "" && a.approver.value != a.requester
          && a.decidedAt.value <= a.expiresAt
          && exists g | g in grants :: ApproverGrant(grants[g], a, a.approver.value, a.decidedAt.value))
    && (a.state == Revoked ==> a.approver.Some? && a.approver.value != "" && a.approver.value != a.requester)
  }

  // The copy a call carries was in the table, and passed the checks done so far.
  ghost predicate OpOk(op: Op, t: Table) {
    match op.at
    case Started => true
    case ReadPending(copy) =>
      && op.call.Decide? && copy.state == Pending
      && op.call.moment <= copy.expiresAt && op.call.approver != copy.requester && op.call.approver != ""
      && op.call.id in t.approvals && Descends(copy, t.approvals[op.call.id])
    case Cleared(copy) => Checked(op.call, copy, t)
    case Audited(copy) => Checked(op.call, copy, t)
    case Expiring(copy) =>
      && op.call.Decide? && copy.state == Pending && op.call.moment > copy.expiresAt
      && op.call.id in t.approvals && Descends(copy, t.approvals[op.call.id])
    case Finished(Success(record)) =>
      && op.call.id in t.approvals && Descends(record, t.approvals[op.call.id])
      && (op.call.Decide? ==> record.state == Granted || record.state == Rejected)
      && (op.call.Revoke? ==> record.state == Revoked)
    case Finished(Refused(_)) => true
  }

  ghost predicate Checked(c: Call, copy: Approval, t: Table) {
    && c.id in t.approvals && Descends(copy, t.approvals[c.id])
    && copy.state == Expected(c)
    && (c.Decide? ==>
          && c.moment <= copy.expiresAt && c.approver != copy.requester && c.approver != ""
          && c.grantId in t.grants && ApproverGrant(t.grants[c.grantId], copy, c.approver, c.moment))
    && (c.Revoke? ==> copy.approver == Some(c.approver))
  }

  // Two calls that succeeded at the same kind of move on the same record.
  predicate Rivals(a: Op, b: Op) {
    && a.call.id == b.call.id && a.call.Decide? == b.call.Decide?
    && a.at.Finished? && a.at.answer.Success?
    && b.at.Finished? && b.at.answer.Success?
  }

  ghost predicate Inv(s: System) {
    && (forall id | id in s.table.approvals :: Proper(s.table.approvals[id], s.table.grants))
    && (forall i | i in s.ops :: OpOk(s.ops[i], s.table))
    && (forall i, j | i in s.ops && j in s.ops && i != j :: !Rivals(s.ops[i], s.ops[j]))
  }

  // How a table may change in one step, seen by everybody else.
  ghost predicate Evolves(t: Table, t': Table) {
    && (forall id | id in t.approvals :: id in t'.approvals && Descends(t.approvals[id], t'.approvals[id]))
    && (forall g | g in t.grants :: g in t'.grants && t'.grants[g] == t.grants[g])
  }

  lemma OpStable(op: Op, t: Table, t': Table)
    requires OpOk(op, t) && Evolves(t, t')
    ensures OpOk(op, t')
  {
  }

  lemma ProperStable(a: Approval, t: Table, t': Table)
    requires Proper(a, t.grants) && Evolves(t, t')
    ensures Proper(a, t'.grants)
  {
    if a.state == Granted || a.state == Rejected {
      var g :| g in t.grants && ApproverGrant(t.grants[g], a, a.approver.value, a.decidedAt.value);
      assert g in t'.grants && t'.grants[g] == t.grants[g];
    }
  }

  // What a step of one call does to the table and to the call itself.
  lemma StepOpKeeps(t: Table, op: Op)
    requires OpOk(op, t)
    requires op.call.id in t.approvals ==> Proper(t.approvals[op.call.id], t.grants)
    ensures var (op', t') := StepOp(t, op);
            && Evolves(t, t') && OpOk(op', t')
            && t'.grants == t.grants
            && (forall id | id in t'.approvals && (id !in t.approvals || t'.approvals[id] != t.approvals[id]) ::
                  id == op.call.id && Proper(t'.approvals[id], t'.grants))
  {
    var (op', t') := StepOp(t, op);
    if op.at.Audited? && op'.at.answer.Success? && op.call.Decide? {
      var record := Written(op.at.copy, op.call);
      assert ApproverGrant(t.grants[op.call.grantId], record, op.call.approver, op.call.moment);
    }
  }

  // A success moves the record out of the state every rival would need.
  lemma NoRival(s: System, i: nat, j: nat)
    requires Inv(s) && i in s.ops && j in s.ops && i != j
    ensures !Rivals(StepOp(s.table, s.ops[i]).0, s.ops[j])
    ensures !Rivals(s.ops[j], StepOp(s.table, s.ops[i]).0)
  {
    assert OpOk(s.ops[i], s.table) && OpOk(s.ops[j], s.table);
    assert !Rivals(s.ops[i], s.ops[j]) && !Rivals(s.ops[j], s.ops[i]);
  }

  lemma AdvanceKeeps(s: System, a: Action, s': System)
    requires Inv(s) && Next(s, a, s') && (a.Advance? || a.Lose?)
    ensures Inv(s') && Evolves(s.table, s'.table)
  {
    var i := a.op;
    StepOpKeeps(s.table, s.ops[i]);
    forall id | id in s'.table.approvals ensures Proper(s'.table.approvals[id], s'.table.grants) {
      if id in s.table.approvals && s'.table.approvals[id] == s.table.approvals[id] {
        ProperStable(s.table.approvals[id], s.table, s'.table);
      }
    }
    forall k | k in s'.ops ensures OpOk(s'.ops[k], s'.table) {
      if k != i {
        OpStable(s.ops[k], s.table, s'.table);
      }
    }
    forall j, k | j in s'.ops && k in s'.ops && j != k ensures !Rivals(s'.ops[j], s'.ops[k]) {
      if j == i {
        NoRival(s, i, k);
      } else if k == i {
        NoRival(s, i, j);
      } else {
        assert !Rivals(s.ops[j], s.ops[k]);
      }
    }
  }

  lemma OtherKeeps(s: System, a: Action, s': System)
    requires Inv(s) && Next(s, a, s') && !a.Advance? && !a.Lose?
    ensures Inv(s') && Evolves(s.table, s'.table)
  {
    hide OpOk, ApproverGrant, StepOp;
    assert Evolves(s.table, s'.table);
    forall id | id in s.table.approvals ensures Proper(s.table.approvals[id], s'.table.grants) {
      ProperStable(s.table.approvals[id], s.table, s'.table);
    }
    forall k | k in s'.ops ensures OpOk(s'.ops[k], s'.table) {
      if k in s.ops && s'.ops[k] == s.ops[k] {
        OpStable(s.ops[k], s.table, s'.table);
      } else {
        IdleOk(s'.ops[k], s'.table);
      }
    }
  }

  // A call that has not read yet or has failed carries no copy.
  lemma IdleOk(op: Op, t: Table)
    requires op.at.Started? || (op.at.Finished? && op.at.answer.Refused?)
    ensures OpOk(op, t)
  {
  }

  // Every step keeps the invariant; records only move along legal edges and keep
  // their terms; grants are write-once.
  lemma StepKeeps(s: System, a: Action, s': System)
    requires Inv(s) && Next(s, a, s')
    ensures Inv(s') && Evolves(s.table, s'.table)
  {
    hide Inv, Evolves, StepOp;
    if a.Advance? || a.Lose? {
      AdvanceKeeps(s, a, s');
    } else {
      OtherKeeps(s, a, s');
    }
  }

  ghost predicate MovedLegally(a: Approval, b: Approval) {
    SameTerms(a, b) && (b == a || LegalMove(a.state, b.state))
  }

  lemma StepOpMoves(t: Table, op: Op, id: string)
    requires OpOk(op, t) && id in t.approvals
    ensures id in StepOp(t, op).1.approvals
    ensures MovedLegally(t.approvals[id], StepOp(t, op).1.approvals[id])
  {
  }

  // The state of a stored record only follows the edges of the state machine.
  lemma LegalMovesOnly(s: System, a: Action, s': System, id: string)
    requires Inv(s) && Next(s, a, s') && id in s.table.approvals
    ensures id in s'.table.approvals
    ensures MovedLegally(s.table.approvals[id], s'.table.approvals[id])
  {
    if a.Advance? || a.Lose? {
      StepOpMoves(s.table, s.ops[a.op], id);
    }
  }

  /* ---------- linearization ---------- */

  // The same calls as atomic operations: every check is made against the table of
  // this one moment.
  function Atomic(t: Table, c: Call): (Answer, Table) {
    if c.id !in t.approvals then (Refused(ApprovalInvalid), t)
    else
      var record := t.approvals[c.id];
      match c
      case Decide(id, approver, grantId, approve, reason, moment) =>
        if record.state != Pending then (Refused(ApprovalInvalid), t)
        else if moment > record.expiresAt then
          (Refused(ApprovalExpired), t.(approvals := t.approvals[id := record.(state := Expired)]))
        else if approver == record.requester || approver == "" then (Refused(SelfApprovalDenied), t)
        else if grantId !in t.grants || !ApproverGrant(t.grants[grantId], record, approver, moment) then
          (Refused(AuthorizationDenied), t)
        else
          (Success(Decided(record, c)), t.(approvals := t.approvals[id := Decided(record, c)]))
      case Revoke(id, revoker, at) =>
        if record.state != Granted then (Refused(ApprovalInvalid), t)
        else if record.approver != Some(revoker) then (Refused(AuthorizationDenied), t)
        else (Success(RevokedFrom(record, c)), t.(approvals := t.approvals[id := RevokedFrom(record, c)]))
  }

  // Every step is invisible in the table, or is the swap of one call and then equals
  // the atomic form of that call on the table of that moment; a call that succeeds
  // answers what the atomic form answers.
  lemma Linearizable(s: System, i: nat, s': System)
    requires Inv(s) && i in s.ops && !s.ops[i].at.Finished?
    requires Next(s, Advance(i), s') || Next(s, Lose(i), s')
    ensures s'.table == s.table || s'.table == Atomic(s.table, s.ops[i].call).1
    ensures s'.ops[i].at.Finished? && s'.ops[i].at.answer.Success? ==>
              (s'.ops[i].at.answer, s'.table) == Atomic(s.table, s.ops[i].call)
    ensures s'.table != s.table ==> s.ops[i].at.Audited? || s.ops[i].at.Expiring?
  {
    assert OpOk(s.ops[i], s.table);
  }

  /* ---------- whole runs ---------- */

  ghost predicate Trace(states: seq<System>, actions: seq<Action>) {
    && |states| == |actions| + 1
    && states[0].ops == map[]
    && states[0].table.approvals == map[]
    && forall n | 0 <= n < |actions| :: Next(states[n], actions[n], states[n + 1])
  }

  lemma {:induction false} Reachable(states: seq<System>, actions: seq<Action>, n: nat)
    requires Trace(states, actions) && n < |states|
    ensures Inv(states[n])
  {
    if n > 0 {
      Reachable(states, actions, n - 1);
      StepKeeps(states[n - 1], actions[n - 1], states[n]);
    }
  }

  lemma DescendsTransitive(a: Approval, b: Approval, c: Approval)
    requires Descends(a, b) && Descends(b, c)
    ensures Descends(a, c)
  {
  }

  lemma {:induction false} EvolvesAlong(states: seq<System>, actions: seq<Action>, m: nat, n: nat)
    requires Trace(states, actions) && m <= n < |states|
    ensures Evolves(states[m].table, states[n].table)
    decreases n - m
  {
    if m < n {
      Reachable(states, actions, n - 1);
      StepKeeps(states[n - 1], actions[n - 1], states[n]);
      EvolvesAlong(states, actions, m, n - 1);
      forall id | id in states[m].table.approvals
        ensures id in states[n].table.approvals
        ensures Descends(states[m].table.approvals[id], states[n].table.approvals[id])
      {
        DescendsTransitive(states[m].table.approvals[id], states[n - 1].table.approvals[id],
                           states[n].table.approvals[id]);
      }
    }
  }

  // Over every run with any number of calls: a record's terms never change and its
  // state never returns, at most one decision and at most one revocation of it ever
  // succeeds, and an approved record was approved in time by a distinct grant holder.
  lemma ApprovalsOverRuns(states: seq<System>, actions: seq<Action>, m: nat, n: nat, i: nat, j: nat, id: string)
    requires Trace(states, actions) && m <= n < |states|
    ensures id in states[m].table.approvals ==>
              && id in states[n].table.approvals
              && Descends(states[m].table.approvals[id], states[n].table.approvals[id])
              && Proper(states[n].table.approvals[id], states[n].table.grants)
    ensures i in states[n].ops && j in states[n].ops && i != j ==> !Rivals(states[n].ops[i], states[n].ops[j])
  {
    Reachable(states, actions, n);
    EvolvesAlong(states, actions, m, n);
  }

  /* ---------- whole calls ---------- */

  // When the call read its copy, which passed the checks that come before the grant.
  lemma {:induction false} ReadMoment(states: seq<System>, actions: seq<Action>, n: nat, i: nat) returns (r: nat)
    requires Trace(states, actions) && n < |states|
    requires i in states[n].ops && states[n].ops[i].at.ReadPending?
    ensures r < n && actions[r] == Advance(i) && i in states[r].ops && states[r].ops[i].at.Started?
    ensures states[r].ops[i].call == states[n].ops[i].call && states[n].ops[i].call.Decide?
    ensures Read(states[r].table, states[r].ops[i].call) == states[n].ops[i].at
    ensures states[r + 1].table == states[r].table
  {
    assert n > 0;
    assert Next(states[n - 1], actions[n - 1], states[n]);
    if i in states[n - 1].ops && states[n - 1].ops[i].at.ReadPending? {
      r := ReadMoment(states, actions, n - 1, i);
    } else {
      r := n - 1;
    }
  }

  // The answers of one step that finishes a call, at that moment.
  lemma FinishingStep(s: System, i: nat, s': System)
    requires Inv(s) && i in s.ops && !s.ops[i].at.Finished? && Next(s, Advance(i), s') && s'.ops[i].at.Finished?
    requires !s.ops[i].at.ReadPending?
    requires s.ops[i].at.Expiring? ==>
               s.ops[i].call.id in s.table.approvals && s.table.approvals[s.ops[i].call.id].state == Pending
    ensures Atomic(s.table, s.ops[i].call) == (s'.ops[i].at.answer, s'.table)
  {
    assert OpOk(s.ops[i], s.table);
  }

  // A decide that found the record expired, and found it changed when it came to mark it.
  ghost predicate LostExpiry(s: System, i: nat, s': System) {
    && i in s.ops && s.ops[i].call.Decide? && s.ops[i].at.Expiring?
    && s.ops[i].call.id in s.table.approvals && s.table.approvals[s.ops[i].call.id].state != Pending
    && s'.table == s.table
  }

  lemma LostExpiryStep(s: System, i: nat, s': System)
    requires Inv(s) && i in s.ops && Next(s, Advance(i), s') && s.ops[i].at.Expiring?
    requires s.ops[i].call.id in s.table.approvals && s.table.approvals[s.ops[i].call.id].state != Pending
    ensures LostExpiry(s, i, s') && s'.ops[i].at == Finished(Refused(ApprovalExpired))
  {
    assert OpOk(s.ops[i], s.table);
  }

  // A missing or unfit grant was missing or unfit when the record was read, too.
  lemma GrantRefusal(t: Table, t': Table, call: Call, copy: Approval)
    requires call.Decide? && Read(t, call) == ReadPending(copy) && Evolves(t, t')
    requires CheckGrant(t', call, copy).Finished?
    ensures Atomic(t, call) == (Refused(AuthorizationDenied), t)
    ensures CheckGrant(t', call, copy) == Finished(Refused(AuthorizationDenied))
  {
  }

  // Every call that finishes without a failure of the store answers what its atomic form
  // answers at one moment between its steps, and has the same effect there. The one
  // exception is a decide that lost the race to mark an expired record: it still answers
  // that the record has expired, and has no effect.
  lemma {:induction false} LinearizableRuns(states: seq<System>, actions: seq<Action>, n: nat, i: nat) returns (m: nat)
    requires Trace(states, actions) && n < |states| && i in states[n].ops
    requires states[n].ops[i].at.Finished? && states[n].ops[i].at.answer != Refused(StoreError)
    ensures m < n && actions[m] == Advance(i) && i in states[m].ops && states[m].ops[i].call == states[n].ops[i].call
    ensures !states[m].ops[i].at.Finished?
    ensures Atomic(states[m].table, states[n].ops[i].call) == (states[n].ops[i].at.answer, states[m + 1].table)
         || (states[n].ops[i].at.answer == Refused(ApprovalExpired) && LostExpiry(states[m], i, states[m + 1]))
  {
    hide Atomic, LostExpiry, Inv;
    assert n > 0;
    assert Next(states[n - 1], actions[n - 1], states[n]);
    var s := states[n - 1];
    if i in s.ops && s.ops[i].at.Finished? {
      m := LinearizableRuns(states, actions, n - 1, i);
    } else {
      Reachable(states, actions, n - 1);
      m := FinishingMoment(states, actions, n, i);
    }
  }

  lemma FinishingMoment(states: seq<System>, actions: seq<Action>, n: nat, i: nat) returns (m: nat)
    requires Trace(states, actions) && 0 < n < |states| && i in states[n].ops && Inv(states[n - 1])
    requires states[n].ops[i].at.Finished? && states[n].ops[i].at.answer != Refused(StoreError)
    requires i in states[n - 1].ops ==> !states[n - 1].ops[i].at.Finished?
    ensures m < n && actions[m] == Advance(i) && i in states[m].ops && states[m].ops[i].call == states[n].ops[i].call
    ensures !states[m].ops[i].at.Finished?
    ensures Atomic(states[m].table, states[n].ops[i].call) == (states[n].ops[i].at.answer, states[m + 1].table)
         || (states[n].ops[i].at.answer == Refused(ApprovalExpired) && LostExpiry(states[m], i, states[m + 1]))
  {
    hide Atomic, LostExpiry, Inv, OpOk, Evolves, Proper;
    var s := states[n - 1];
    assert Next(s, actions[n - 1], states[n]);
    var op := s.ops[i];
    m := n - 1;
    if op.at.ReadPending? {
      m := ReadMoment(states, actions, n - 1, i);
      EvolvesAlong(states, actions, m, n - 1);
      GrantRefusal(states[m].table, s.table, op.call, op.at.copy);
    } else if op.at.Expiring? {
      ExpiringHas(s, i);
      if s.table.approvals[op.call.id].state != Pending {
        LostExpiryStep(s, i, states[n]);
      } else {
        FinishingStep(s, i, states[n]);
      }
    } else {
      FinishingStep(s, i, states[n]);
    }
  }

  lemma ExpiringHas(s: System, i: nat)
    requires Inv(s) && i in s.ops && s.ops[i].at.Expiring?
    ensures s.ops[i].call.id in s.table.approvals
  {
    assert OpOk(s.ops[i], s.table);
  }

  // Call i takes its own step m.
  ghost predicate OwnStep(states: seq<System>, actions: seq<Action>, i: nat, m: nat)
    requires |states| == |actions| + 1
  {
    m < |actions| && actions[m] == Advance(i) && i in states[m].ops && !states[m].ops[i].at.Finished?
  }

  // The answer and the effect of call i are those of its atomic form at step m.
  ghost predicate LinearizesAt(states: seq<System>, call: Call, answer: Answer, m: nat)
    requires m + 1 < |states|
  {
    Atomic(states[m].table, call) == (answer, states[m + 1].table)
  }

  // A finished call stays as it is.
  lemma {:induction false} FinishedStays(states: seq<System>, actions: seq<Action>, m: nat, n: nat, i: nat)
    requires Trace(states, actions) && m <= n < |states|
    requires i in states[m].ops && states[m].ops[i].at.Finished?
    ensures i in states[n].ops && states[n].ops[i] == states[m].ops[i]
    decreases n - m
  {
    if m < n {
      FinishedStays(states, actions, m, n - 1, i);
      assert Next(states[n - 1], actions[n - 1], states[n]);
    }
  }

  // A call keeps its arguments, and never goes back to an earlier progress.
  lemma {:induction false} CallStays(states: seq<System>, actions: seq<Action>, m: nat, n: nat, i: nat)
    requires Trace(states, actions) && m <= n < |states| && i in states[m].ops
    ensures i in states[n].ops && states[n].ops[i].call == states[m].ops[i].call
    decreases n - m
  {
    if m < n {
      CallStays(states, actions, m, n - 1, i);
      assert Next(states[n - 1], actions[n - 1], states[n]);
    }
  }

  // A call that goes through Expiring takes two steps of its own: it reads, and it marks.
  lemma {:induction false} BeforeExpiring(states: seq<System>, actions: seq<Action>, m: nat, n: nat, i: nat)
    requires Trace(states, actions) && m <= n < |states| && i in states[m].ops
    requires i in states[n].ops && states[n].ops[i].at.Expiring?
    ensures states[m].ops[i].at.Started? || states[m].ops[i].at.Expiring?
    ensures m < n && states[m].ops[i].at.Expiring? && m < |actions| ==> actions[m] != Advance(i)
    decreases n - m
  {
    if m < n {
      assert Next(states[m], actions[m], states[m + 1]);
      BeforeExpiring(states, actions, m + 1, n, i);
    }
  }

  // At neither of them is its answer, that the record has expired, the atomic one.
  lemma ExpiryNeverAtomic(states: seq<System>, actions: seq<Action>, e: nat, i: nat, m: nat)
    requires Trace(states, actions) && OwnStep(states, actions, i, e) && LostExpiry(states[e], i, states[e + 1])
    requires OwnStep(states, actions, i, m)
    ensures !LinearizesAt(states, states[e].ops[i].call, Refused(ApprovalExpired), m)
  {
    if m < e {
      BeforeExpiring(states, actions, m, e, i);
      CallStays(states, actions, m, e, i);
      Reachable(states, actions, m);
      assert Next(states[m], actions[m], states[m + 1]);
      ReadLeavesTable(states[m], i, states[m + 1]);
    } else if m > e {
      assert Next(states[e], actions[e], states[e + 1]);
      FinishedStays(states, actions, e + 1, m, i);
      assert false;
    }
  }

  // Reading changes nothing, and marking a pending record would.
  lemma ReadLeavesTable(s: System, i: nat, s': System)
    requires i in s.ops && s.ops[i].at.Started? && Next(s, Advance(i), s')
    ensures Atomic(s.table, s.ops[i].call) != (Refused(ApprovalExpired), s'.table)
  {
    var call := s.ops[i].call;
    if call.id in s.table.approvals && Atomic(s.table, call).0 == Refused(ApprovalExpired) {
      assert Atomic(s.table, call).1.approvals[call.id].state == Expired;
    }
  }

  // Exactly the calls that lost the race to mark an expired record are not linearizable.
  lemma LinearizableIff(states: seq<System>, actions: seq<Action>, n: nat, i: nat)
    requires Trace(states, actions) && n < |states| && i in states[n].ops
    requires states[n].ops[i].at.Finished? && states[n].ops[i].at.answer != Refused(StoreError)
    ensures (exists m: nat :: OwnStep(states, actions, i, m)
                         && LinearizesAt(states, states[n].ops[i].call, states[n].ops[i].at.answer, m))
       <==> !exists m: nat :: OwnStep(states, actions, i, m) && LostExpiry(states[m], i, states[m + 1])
  {
    hide Atomic, LostExpiry, Inv;
    var m := LinearizableRuns(states, actions, n, i);
    assert OwnStep(states, actions, i, m);
    if e: nat :| OwnStep(states, actions, i, e) && LostExpiry(states[e], i, states[e + 1]) {
      LostAnswer(states, actions, e, n, i);
      forall k | OwnStep(states, actions, i, k)
        ensures !LinearizesAt(states, states[n].ops[i].call, states[n].ops[i].at.answer, k)
      {
        ExpiryNeverAtomic(states, actions, e, i, k);
      }
    } else {
      assert LinearizesAt(states, states[n].ops[i].call, states[n].ops[i].at.answer, m);
    }
  }

  lemma LostAnswer(states: seq<System>, actions: seq<Action>, e: nat, n: nat, i: nat)
    requires Trace(states, actions) && n < |states| && OwnStep(states, actions, i, e)
    requires LostExpiry(states[e], i, states[e + 1])
    requires i in states[n].ops && states[n].ops[i].at.Finished?
    ensures states[n].ops[i].call == states[e].ops[i].call
    ensures states[n].ops[i].at.answer == Refused(ApprovalExpired)
  {
    assert Next(states[e], actions[e], states[e + 1]);
    if n <= e {
      FinishedStays(states, actions, n, e, i);
      assert false;
    }
    FinishedStays(states, actions, e + 1, n, i);
  }

  /* ---------- the race at concrete values ---------- */

  lemma TraceExtends(states: seq<System>, actions: seq<Action>, a: Action, s': System)
    requires Trace(states, actions) && Next(states[|states| - 1], a, s')
    ensures Trace(states + [s'], actions + [a])
  {
    hide Next;
    var longer, more := states + [s'], actions + [a];
    forall n | 0 <= n < |more| ensures Next(longer[n], more[n], longer[n + 1]) {
      if n < |actions| {
        assert Next(states[n], actions[n], states[n + 1]);
      }
    }
  }

  const RACE_RECORD := Approval("f", "scan", "t", High, "bob", "d", Pending, 10.0, None, None, "")
  const RACE_GRANT := Grant("ann", "approver", "approve", "scan", "t", "", ["approve"], 0.0, 30.0)
  const LATE_CALL := Decide("x", "ann", "g", true, "", 20.0)
  const TIMELY_CALL := Decide("x", "ann", "g", true, "", 5.0)

  // The record is pending, and both calls have begun.
  const RACE_START := System(Table(map["x" := RACE_RECORD], map["g" := RACE_GRANT]),
                             map[0 := Op(LATE_CALL, Started), 1 := Op(TIMELY_CALL, Started)])

  lemma RaceBegins() returns (states: seq<System>, actions: seq<Action>)
    ensures Trace(states, actions) && |states| == 5 && states[4] == RACE_START
  {
    var s0 := System(Table(map[], map[]), map[]);
    var s1 := System(Table(map[], map["g" := RACE_GRANT]), map[]);
    var s2 := System(Table(map["x" := RACE_RECORD], map["g" := RACE_GRANT]), map[]);
    var s3 := s2.(ops := map[1 := Op(TIMELY_CALL, Started)]);
    states, actions := [s0], [];
    TraceExtends(states, actions, Issue("g", RACE_GRANT), s1);
    states, actions := states + [s1], actions + [Issue("g", RACE_GRANT)];
    TraceExtends(states, actions, Action.Request("x", RACE_RECORD), s2);
    states, actions := states + [s2], actions + [Action.Request("x", RACE_RECORD)];
    TraceExtends(states, actions, Begin(1, TIMELY_CALL), s3);
    states, actions := states + [s3], actions + [Begin(1, TIMELY_CALL)];
    assert RACE_START.ops == s3.ops[0 := Op(LATE_CALL, Started)];
    TraceExtends(states, actions, Begin(0, LATE_CALL), RACE_START);
    states, actions := states + [RACE_START], actions + [Begin(0, LATE_CALL)];
  }

  // Two decides read one record, the one dated 5 first. The other, dated 20, finds it
  // expired; the first goes on to approve it; then the second comes to mark it, finds it
  // approved, and answers that it has expired.
  lemma LostExpiryRace() returns (states: seq<System>, actions: seq<Action>)
    ensures Trace(states, actions) && |states| == 11 && |actions| == 10
    ensures states[4] == RACE_START
    ensures actions[4..] == [Advance(1), Advance(0), Advance(1), Advance(1), Advance(1), Advance(0)]
    ensures var last, before := states[|states| - 1], states[|states| - 2];
            && LostExpiry(before, 0, last) && actions[|actions| - 1] == Advance(0)
            && last.ops[0].at == Finished(Refused(ApprovalExpired))
            && 1 in last.ops && last.ops[1].at.Finished? && last.ops[1].at.answer.Success?
            && Atomic(before.table, LATE_CALL).0 == Refused(ApprovalInvalid)
  {
    states, actions := RaceBegins();
    var expiring := Op(LATE_CALL, Expiring(RACE_RECORD));
    var decided := Decided(RACE_RECORD, TIMELY_CALL);
    var table := RACE_START.table;
    var s5 := System(table, map[0 := Op(LATE_CALL, Started), 1 := Op(TIMELY_CALL, ReadPending(RACE_RECORD))]);
    var s6 := System(table, map[0 := expiring, 1 := Op(TIMELY_CALL, ReadPending(RACE_RECORD))]);
    var s7 := System(table, map[0 := expiring, 1 := Op(TIMELY_CALL, Cleared(RACE_RECORD))]);
    var s8 := System(table, map[0 := expiring, 1 := Op(TIMELY_CALL, Audited(RACE_RECORD))]);
    var after := table.(approvals := map["x" := decided]);
    var s9 := System(after, map[0 := expiring, 1 := Op(TIMELY_CALL, Finished(Success(decided)))]);
    var s10 := s9.(ops := s9.ops[0 := Op(LATE_CALL, Finished(Refused(ApprovalExpired)))]);
    RaceSteps(s5, s6, s7, s8, s9, s10);
    hide Next;
    TraceExtends(states, actions, Advance(1), s5);
    states, actions := states + [s5], actions + [Advance(1)];
    TraceExtends(states, actions, Advance(0), s6);
    states, actions := states + [s6], actions + [Advance(0)];
    TraceExtends(states, actions, Advance(1), s7);
    states, actions := states + [s7], actions + [Advance(1)];
    TraceExtends(states, actions, Advance(1), s8);
    states, actions := states + [s8], actions + [Advance(1)];
    TraceExtends(states, actions, Advance(1), s9);
    states, actions := states + [s9], actions + [Advance(1)];
    TraceExtends(states, actions, Advance(0), s10);
    states, actions := states + [s10], actions + [Advance(0)];
  }

  lemma RaceSteps(s5: System, s6: System, s7: System, s8: System, s9: System, s10: System)
    requires var expiring, decided := Op(LATE_CALL, Expiring(RACE_RECORD)), Decided(RACE_RECORD, TIMELY_CALL);
             var table := RACE_START.table;
             && s5 == System(table, map[0 := Op(LATE_CALL, Started), 1 := Op(TIMELY_CALL, ReadPending(RACE_RECORD))])
             && s6 == System(table, map[0 := expiring, 1 := Op(TIMELY_CALL, ReadPending(RACE_RECORD))])
             && s7 == System(table, map[0 := expiring, 1 := Op(TIMELY_CALL, Cleared(RACE_RECORD))])
             && s8 == System(table, map[0 := expiring, 1 := Op(TIMELY_CALL, Audited(RACE_RECORD))])
             && s9 == System(table.(approvals := map["x" := decided]),
                             map[0 := expiring, 1 := Op(TIMELY_CALL, Finished(Success(decided)))])
             && s10 == s9.(ops := s9.ops[0 := Op(LATE_CALL, Finished(Refused(ApprovalExpired)))])
    ensures Next(RACE_START, Advance(1), s5) && Next(s5, Advance(0), s6) && Next(s6, Advance(1), s7)
    ensures Next(s7, Advance(1), s8) && Next(s8, Advance(1), s9) && Next(s9, Advance(0), s10)
  {
    assert RACE_START.ops[1 := s5.ops[1]] == s5.ops;
    assert s5.ops[0 := s6.ops[0]] == s6.ops;
    assert s6.ops[1 := s7.ops[1]] == s7.ops;
    assert s7.ops[1 := s8.ops[1]] == s8.ops;
    assert s8.ops[1 := s9.ops[1]] == s9.ops;
    assert s8.table.approvals["x" := s9.table.approvals["x"]] == s9.table.approvals;
  }
}
