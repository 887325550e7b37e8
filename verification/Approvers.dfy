// Issuing grants, and deciding and revoking approvals, as one caller does it.
module Approvers {
  import opened Models
  import opened Records
  import opened Stores
  import Approvals
  import Scope

  // The surroundings of one audited change: the event's id and texts, and the behaviour
  // of the database for the audit append and for the change.
  datatype Setting = Setting(eventId: string, texts: seq<string>, auditIo: Io, io: Io)

  predicate Smooth(c: Setting, s: Store)
    reads s
  {
    c.auditIo.Works? && c.io.Works? && !s.HasEvent(c.eventId)
  }

  /* ---------- approvals ---------- */

  // Read, check the copy, log the intent, swap.
  method Decide(store: Store, call: Approvals.Call, c: Setting) returns (reply: Reply<Approval>)
    requires store.Valid() && call.Decide?
    modifies store
    ensures store.Valid() && old(store.auditEvents) <= store.auditEvents
    ensures store.State().(audit := [], approvals := old(store.State()).approvals)
         == old(store.State()).(audit := [])
    ensures store.State().approvals == old(store.State()).approvals
         || store.State().approvals == Approvals.Atomic(old(store.State()).approvals, call).1
    ensures old(Smooth(c, store)) ==>
              var (answer, table) := Approvals.Atomic(old(store.State()).approvals, call);
              && store.State().approvals == table
              && reply == (match answer case Success(a) => Value(a) case Refused(f) => Raised(f))
    ensures reply.Value? || (exists id :: id in store.approvals && id in old(store.approvals)
                                          && store.approvals[id] != old(store.approvals[id])
                                          && store.approvals[id].state != Expired)
            ==> |store.auditEvents| > |old(store.auditEvents)|
  {
    if call.id !in store.approvals {
      return Raised(ApprovalInvalid);
    }
    var approval := store.approvals[call.id];
    if approval.state != Pending {
      return Raised(ApprovalInvalid);
    }
    if call.moment > approval.expiresAt {
      approval := approval.(state := Expired);
      var swapped := store.UpdateApproval(call.id, approval, Pending, c.io);
      if swapped.Raised? {
        return Raised(swapped.fault);
      }
      return Raised(ApprovalExpired);
    }
    if call.approver == approval.requester || call.approver == "" {
      return Raised(SelfApprovalDenied);
    }
    if call.grantId !in store.grants {
      return Raised(AuthorizationDenied);
    }
    var grant := store.grants[call.grantId];
    if grant.principal != call.approver || grant.role != "approver" || grant.capability != "approve"
       || grant.action != approval.action || "approve" !in grant.privileges || !ActiveAt(grant, call.moment)
       || grant.targetPattern != approval.target {
      return Raised(AuthorizationDenied);
    }
    approval := approval.(state := if call.approve then Granted else Rejected, approver := Some(call.approver),
                          decidedAt := Some(call.moment), reason := Approvals.Truncated(call.reason));
    var logged, e := store.Emit(c.eventId, call.id, Other("APPROVAL_DECISION_REQUESTED"), c.texts, c.auditIo);
    if logged.Raised? {
      return Raised(logged.fault);
    }
    var swapped := store.UpdateApproval(call.id, approval, Pending, c.io);
    if swapped.Raised? {
      return Raised(swapped.fault);
    }
    if !swapped.value {
      return Raised(ApprovalInvalid);
    }
    return Value(approval);
  }

  method Revoke(store: Store, call: Approvals.Call, c: Setting) returns (reply: Reply<Approval>)
    requires store.Valid() && call.Revoke?
    modifies store
    ensures store.Valid() && old(store.auditEvents) <= store.auditEvents
    ensures store.State().(audit := [], approvals := old(store.State()).approvals)
         == old(store.State()).(audit := [])
    ensures store.State().approvals == old(store.State()).approvals
         || (&& store.State().approvals == Approvals.Atomic(old(store.State()).approvals, call).1
             && |store.auditEvents| > |old(store.auditEvents)|)
    ensures old(Smooth(c, store)) ==>
              var (answer, table) := Approvals.Atomic(old(store.State()).approvals, call);
              && store.State().approvals == table
              && reply == (match answer case Success(a) => Value(a) case Refused(f) => Raised(f))
  {
    if call.id !in store.approvals || store.approvals[call.id].state != Granted {
      return Raised(ApprovalInvalid);
    }
    var approval := store.approvals[call.id];
    if approval.approver != Some(call.approver) {
      return Raised(AuthorizationDenied);
    }
    approval := approval.(state := Revoked, decidedAt := Some(call.at));
    var logged, e := store.Emit(c.eventId, call.id, Other("APPROVAL_REVOCATION_REQUESTED"), c.texts, c.auditIo);
    if logged.Raised? {
      return Raised(logged.fault);
    }
    var swapped := store.UpdateApproval(call.id, approval, Granted, c.io);
    if swapped.Raised? {
      return Raised(swapped.fault);
    }
    if !swapped.value {
      return Raised(ApprovalInvalid);
    }
    return Value(approval);
  }

  /* ---------- grants ---------- */

  datatype Terms = Terms(
    issuer: string, principal: string, role: string, capability: string, action: string, target: string,
    purpose: string, privileges: seq<string>, lifetime: int)

  predicate Identity(p: string) {
    1 <= |p| <= 64
    && forall i | 0 <= i < |p| ::
         'a' <= p[i] <= 'z' || 'A' <= p[i] <= 'Z' || '0' <= p[i] <= '9' || p[i] == '.' || p[i] == '_' || p[i] == '-'
  }

  predicate Backed(t: Terms) {
    && t.capability in RoleCapabilities(t.role)
    && t.privileges != [] && (forall p | p in t.privileges :: p in RoleCapabilities(t.role))
    && t.capability in t.privileges
  }

  predicate WellTermed(cfg: Config, t: Terms) {
    && 1 <= t.lifetime <= 86400
    && 1 <= |t.purpose| <= 200 && 1 <= |t.action| <= 100
    && cfg.redact(t.target) == t.target
    && cfg.redact(t.purpose) == t.purpose && forall i | 0 <= i < |t.purpose| :: t.purpose[i] >= ' '
  }

  function Issued(t: Terms, moment: real): Grant {
    Grant(t.principal, t.role, t.capability, t.action, t.target, t.purpose, t.privileges,
          moment, moment + t.lifetime as real)
  }

  // The audit event precedes the grant: if it fails, no grant is issued.
  method Issue(store: Store, id: string, t: Terms, moment: real, c: Setting) returns (reply: Reply<Grant>)
    requires store.Valid()
    modifies store
    ensures store.Valid() && old(store.auditEvents) <= store.auditEvents
    ensures store.State().(audit := [], approvals := old(store.State()).approvals)
         == old(store.State()).(audit := [])
    ensures store.approvals == old(store.approvals)
    ensures store.grants == old(store.grants)
         || (&& id !in old(store.grants) && store.grants == old(store.grants)[id := Issued(t, moment)]
             && Identity(t.issuer) && Identity(t.principal) && Backed(t) && WellTermed(store.cfg, t)
             && |store.auditEvents| > |old(store.auditEvents)|)
    ensures reply.Value? ==> store.grants == old(store.grants)[id := Issued(t, moment)] && reply.value == Issued(t, moment)
    ensures old(Smooth(c, store)) && id !in old(store.grants) ==>
              reply == if !Identity(t.issuer) || !Identity(t.principal) then Raised(InvalidInput)
                       else if !Backed(t) then Raised(AuthorizationDenied)
                       else if !WellTermed(store.cfg, t) then Raised(InvalidInput)
                       else Value(Issued(t, moment))
  {
    if !Identity(t.issuer) || !Identity(t.principal) {
      return Raised(InvalidInput);
    }
    if t.capability !in RoleCapabilities(t.role) {
      return Raised(AuthorizationDenied);
    }
    if t.privileges == [] || exists p | p in t.privileges :: p !in RoleCapabilities(t.role) {
      return Raised(AuthorizationDenied);
    }
    if t.capability !in t.privileges {
      return Raised(AuthorizationDenied);
    }
    if !(1 <= t.lifetime <= 86400) || t.purpose == "" || |t.purpose| > 200 || t.action == "" || |t.action| > 100 {
      return Raised(InvalidInput);
    }
    if store.cfg.redact(t.target) != t.target || store.cfg.redact(t.purpose) != t.purpose
       || exists i | 0 <= i < |t.purpose| :: t.purpose[i] < ' ' {
      return Raised(InvalidInput);
    }
    var grant := Issued(t, moment);
    var logged, e := store.Emit(c.eventId, id, Other("GRANT_ISSUANCE_REQUESTED"), c.texts, c.auditIo);
    if logged.Raised? {
      return Raised(logged.fault);
    }
    var stored := store.PutGrant(id, grant, c.io);
    if stored.Raised? {
      return Raised(stored.fault);
    }
    return Value(grant);
  }

  // What issuing gives, checking finds: the grant covers exactly the requests of its
  // principal for its target, purpose and action, within its lifetime, whose tool asks
  // for no more than its privileges.
  lemma IssuedCovers(t: Terms, moment: real, q: Request, target: Scope.Target, permissions: seq<string>, now: real)
    requires Backed(t)
    ensures GrantCovers(Issued(t, moment), q, target, permissions, now) <==>
              && q.requester == t.principal && target.canonical == t.target && q.purpose == t.purpose
              && q.action == t.action && moment <= now <= moment + t.lifetime as real
              && forall p | p in permissions :: p in t.privileges
  {
  }

  // Roles never mix: only an approver grant can approve, and it covers no tool that
  // needs scan or verify.
  lemma RolesApart(t: Terms, moment: real, a: Approval, approver: string)
    requires Backed(t)
    ensures Approvals.ApproverGrant(Issued(t, moment), a, approver, moment) ==>
              forall p | p in t.privileges :: p == "approve"
    ensures "scan" in t.privileges || "verify" in t.privileges ==>
              !Approvals.ApproverGrant(Issued(t, moment), a, approver, moment)
  {
  }
}
