// The store: tables that methods insert into, delete from and overwrite, one
// transaction per method.
module Stores {
  import opened Models
  import opened Records
  import AuditChain
  import Approvals
  import Limiter
  import Quarantine

  // How the database behaves during one call: the transaction commits and the call
  // returns; it does not commit; or it commits and the call fails all the same.
  datatype Io = Works | Fails | Lost

  function Told<T>(io: Io, answer: Reply<T>): Reply<T> {
    if io.Works? then answer else Raised(StoreError)
  }

  class Store {
    const cfg: Config
    var requests: map<string, Result>
    var reservations: set<string>
    var rateCalls: seq<Limiter.Call>
    var activeLeases: seq<Limiter.Lease>
    var grants: map<string, Grant>
    var approvals: map<string, Approval>
    var auditEvents: AuditChain.Table
    var evidence: map<string, Evidence>
    var findings: map<string, Finding>
    var findingOrder: seq<string>          // insertion order of the findings

    constructor (cfg: Config)
      ensures Valid() && fresh(this) && this.cfg == cfg
      ensures State() == Db({}, map[], Limiter.Tables([], []), Approvals.Table(map[], map[]), [], map[], map[])
    {
      this.cfg := cfg;
      requests, reservations, rateCalls, activeLeases := map[], {}, [], [];
      grants, approvals, auditEvents, evidence := map[], map[], [], map[];
      findings, findingOrder := map[], [];
    }

    // The order lists exactly the findings, each once.
    ghost predicate Valid()
      reads this
    {
      && (forall id :: id in findingOrder <==> id in findings)
      && (forall i, j | 0 <= i < j < |findingOrder| :: findingOrder[i] != findingOrder[j])
    }

    ghost function State(): Db
      reads this
    {
      Db(reservations, requests, Limiter.Tables(rateCalls, activeLeases), Approvals.Table(approvals, grants),
         auditEvents, evidence, findings)
    }

    /* ---------- requests and results ---------- */

    method ReserveRequest(id: string, io: Io) returns (reply: Reply<bool>)
      requires Valid()
      modifies this
      ensures Valid()
      ensures reply == Told(io, Value(!Taken(old(State()), id)))
      ensures State() == if io.Fails? || Taken(old(State()), id) then old(State())
                         else old(State()).(reservations := old(reservations) + {id})
    {
      if io.Fails? {
        return Raised(StoreError);
      }
      if id in requests || id in reservations {
        return if io.Works? then Value(false) else Raised(StoreError);
      }
      reservations := reservations + {id};
      return if io.Works? then Value(true) else Raised(StoreError);
    }

    // A second result for one id violates the primary key, and nothing changes.
    method PutResult(id: string, result: Result, io: Io) returns (reply: Reply<()>)
      requires Valid()
      modifies this
      ensures Valid()
      ensures reply == if id in old(requests) then Raised(StoreError) else Told(io, Value(()))
      ensures State() == if io.Fails? || id in old(requests) then old(State())
                         else old(State()).(results := old(requests)[id := result],
                                            reservations := old(reservations) - {id})
    {
      if io.Fails? || id in requests {
        return Raised(StoreError);
      }
      requests := requests[id := result];
      reservations := reservations - {id};
      return if io.Works? then Value(()) else Raised(StoreError);
    }

    /* ---------- the limiter ---------- */

    // Prune, count, and insert or roll back. The tables before the call are what a
    // rollback restores.
    method AcquireLease(q: Limiter.Request, now: real, io: Io) returns (reply: Reply<()>)
      requires Valid()
      modifies this
      ensures Valid()
      ensures var (verdict, tables) := Limiter.Acquire(old(State()).limiter, q, now);
              && State() == (if io.Fails? then old(State()) else old(State()).(limiter := tables))
              && reply == Told(io, match verdict
                                   case Admitted => Value(())
                                   case RateLimited => Raised(Fault.RateLimited)
                                   case IdTaken => Raised(StoreError))
    {
      if io.Fails? {
        return Raised(StoreError);
      }
      var calls, leases := rateCalls, activeLeases;
      rateCalls := Limiter.Since(rateCalls, now);
      activeLeases := Limiter.Live(activeLeases, now);
      var localCount := |Limiter.SameTriple(rateCalls, q)|;
      var globalCount := |Limiter.SamePrincipal(rateCalls, q)|;
      if localCount >= q.limits.perMinute || globalCount >= q.limits.globalPerMinute
         || |activeLeases| >= q.limits.maxConcurrent {
        rateCalls, activeLeases := calls, leases;
        return if io.Works? then Raised(Fault.RateLimited) else Raised(StoreError);
      }
      rateCalls := rateCalls + [Limiter.CallOf(q, now)];
      if exists l | l in activeLeases :: l.id == q.leaseId {
        rateCalls, activeLeases := calls, leases;
        return Raised(StoreError);
      }
      activeLeases := activeLeases + [Limiter.LeaseOf(q, now)];
      return if io.Works? then Value(()) else Raised(StoreError);
    }

    method ReleaseLease(id: string, io: Io) returns (reply: Reply<()>)
      requires Valid()
      modifies this
      ensures Valid()
      ensures reply == Told(io, Value(()))
      ensures State() == if io.Fails? then old(State())
                         else old(State()).(limiter := Limiter.Release(old(State()).limiter, id))
    {
      if io.Fails? {
        return Raised(StoreError);
      }
      activeLeases := Limiter.Without(activeLeases, id);
      return if io.Works? then Value(()) else Raised(StoreError);
    }

    // The recovery manager: expired leases and calls older than a minute go; how many,
    // is returned.
    method RecoverStalledLeases(now: real) returns (removed: nat)
      requires Valid()
      modifies this
      ensures Valid()
      ensures State() == old(State()).(limiter := Limiter.RecoverLeases(old(State()).limiter, now))
      ensures removed == |old(activeLeases)| - |activeLeases|
    {
      var before := |activeLeases|;
      activeLeases := Limiter.Live(activeLeases, now);
      removed := before - |activeLeases|;
    }

    method RecoverStaleRateCalls(now: real) returns (removed: nat)
      requires Valid()
      modifies this
      ensures Valid()
      ensures State() == old(State()).(limiter := Limiter.RecoverCalls(old(State()).limiter, now))
      ensures removed == |old(rateCalls)| - |rateCalls|
    {
      var before := |rateCalls|;
      rateCalls := Limiter.Since(rateCalls, now);
      removed := before - |rateCalls|;
    }

    /* ---------- grants and approvals ---------- */

    method PutGrant(id: string, grant: Grant, io: Io) returns (reply: Reply<()>)
      requires Valid()
      modifies this
      ensures Valid()
      ensures reply == if id in old(grants) then Raised(StoreError) else Told(io, Value(()))
      ensures State() == if io.Fails? || id in old(grants) then old(State())
                         else old(State()).(approvals := Approvals.Table(old(approvals), old(grants)[id := grant]))
    {
      if io.Fails? || id in grants {
        return Raised(StoreError);
      }
      grants := grants[id := grant];
      return if io.Works? then Value(()) else Raised(StoreError);
    }

    method PutApproval(id: string, approval: Approval, io: Io) returns (reply: Reply<()>)
      requires Valid()
      modifies this
      ensures Valid()
      ensures reply == if id in old(approvals) then Raised(StoreError) else Told(io, Value(()))
      ensures State() == if io.Fails? || id in old(approvals) then old(State())
                         else old(State()).(approvals := Approvals.Table(old(approvals)[id := approval], old(grants)))
    {
      if io.Fails? || id in approvals {
        return Raised(StoreError);
      }
      approvals := approvals[id := approval];
      return if io.Works? then Value(()) else Raised(StoreError);
    }

    // Compare and swap: the record is replaced only if its stored state is the expected one.
    method UpdateApproval(id: string, record: Approval, expected: ApprovalState, io: Io) returns (reply: Reply<bool>)
      requires Valid()
      modifies this
      ensures Valid()
      ensures var (done, table) := Approvals.Swap(old(State()).approvals, id, expected, record);
              && reply == Told(io, Value(done))
              && State() == if io.Fails? then old(State()) else old(State()).(approvals := table)
    {
      if io.Fails? {
        return Raised(StoreError);
      }
      if id !in approvals || approvals[id].state != expected {
        return if io.Works? then Value(false) else Raised(StoreError);
      }
      approvals := approvals[id := record];
      return if io.Works? then Value(true) else Raised(StoreError);
    }

    /* ---------- the audit chain ---------- */

    predicate HasEvent(eventId: string)
      reads this
    {
      exists row | row in auditEvents :: row.eventId == eventId
    }

    // The new row names the digest of the last one. Event ids are unique.
    method AppendAudit(eventId: string, e: Event, io: Io) returns (reply: Reply<()>)
      requires Valid()
      modifies this
      ensures Valid()
      ensures reply == if old(HasEvent(eventId)) then Raised(StoreError) else Told(io, Value(()))
      ensures State() == if io.Fails? || old(HasEvent(eventId)) then old(State())
                         else AppendEvent(cfg, old(State()), eventId, e)
    {
      if io.Fails? || HasEvent(eventId) {
        return Raised(StoreError);
      }
      var data := cfg.json(e);
      var prev: string := AuditChain.GENESIS;
      var sequence := 1;
      if |auditEvents| > 0 {
        prev := auditEvents[|auditEvents| - 1].eventHash;
        sequence := auditEvents[|auditEvents| - 1].sequence + 1;
      }
      var digest := cfg.hash(AuditChain.Preimage(prev, data));
      auditEvents := auditEvents + [AuditChain.Row(sequence, eventId, data, prev, digest)];
      return if io.Works? then Value(()) else Raised(StoreError);
    }

    /* ---------- evidence and findings ---------- */

    method PutEvidence(id: string, e: Evidence, io: Io) returns (reply: Reply<()>)
      requires Valid()
      modifies this
      ensures Valid()
      ensures reply == if id in old(evidence) then Raised(StoreError) else Told(io, Value(()))
      ensures State() == if io.Fails? || id in old(evidence) then old(State())
                         else old(State()).(evidence := old(evidence)[id := e])
    {
      if io.Fails? || id in evidence {
        return Raised(StoreError);
      }
      evidence := evidence[id := e];
      return if io.Works? then Value(()) else Raised(StoreError);
    }

    method PutFinding(id: string, f: Finding, io: Io) returns (reply: Reply<()>)
      requires Valid()
      modifies this
      ensures Valid()
      ensures reply == if id in old(findings) then Raised(StoreError) else Told(io, Value(()))
      ensures State() == if io.Fails? || id in old(findings) then old(State())
                         else old(State()).(findings := old(findings)[id := f])
      ensures findingOrder == if io.Fails? || id in old(findings) then old(findingOrder) else old(findingOrder) + [id]
    {
      if io.Fails? || id in findings {
        return Raised(StoreError);
      }
      assert id !in findingOrder;
      findings := findings[id := f];
      findingOrder := findingOrder + [id];
      return if io.Works? then Value(()) else Raised(StoreError);
    }

    // The newest findings first, at most so many.
    method ListFindings(limit: nat) returns (ids: seq<string>)
      requires Valid()
      ensures |ids| == if |findingOrder| < limit then |findingOrder| else limit
      ensures forall k | 0 <= k < |ids| :: ids[k] == findingOrder[|findingOrder| - 1 - k]
      ensures forall k | 0 <= k < |ids| :: ids[k] in findings
    {
      ids := [];
      while |ids| < limit && |ids| < |findingOrder|
        invariant |ids| <= limit && |ids| <= |findingOrder|
        invariant forall k | 0 <= k < |ids| :: ids[k] == findingOrder[|findingOrder| - 1 - k]
      {
        ids := ids + [findingOrder[|findingOrder| - 1 - |ids|]];
      }
    }

    /* ---------- the audit sink ---------- */

    // What becomes of one field: truncated, redacted, quarantined.
    function Sanitised(value: string): string {
      var clipped := if |value| <= 1024 then value else value[..1024];
      Quarantine.Quarantined(cfg.signatures, cfg.token, cfg.redact(clipped), 1024).sanitized
    }

    // Each field of an event is sanitised before it is appended, so that no stored field
    // matches any injection signature. The request id is stored as it is.
    method Emit(eventId: string, requestId: string, stage: Stage, fields: seq<string>, io: Io)
      returns (reply: Reply<()>, ghost e: Event)
      requires Valid()
      modifies this
      ensures Valid()
      ensures e.requestId == requestId && e.stage == stage && |e.fields| == |fields|
      ensures forall k | 0 <= k < |fields| :: e.fields[k] == Sanitised(fields[k])
      ensures CleanEvent(cfg, e)
      ensures reply == if old(HasEvent(eventId)) then Raised(StoreError) else Told(io, Value(()))
      ensures State() == if io.Fails? || old(HasEvent(eventId)) then old(State())
                         else AppendEvent(cfg, old(State()), eventId, e)
    {
      var safe: seq<string> := [];
      while |safe| < |fields|
        invariant |safe| <= |fields|
        invariant forall k | 0 <= k < |safe| :: Quarantine.Free(cfg.signatures, safe[k]) && safe[k] == Sanitised(fields[k])
        modifies {}
      {
        var value := fields[|safe|];
        var clipped := if |value| <= 1024 then value else value[..1024];
        var checked := Quarantine.Quarantine(cfg.signatures, cfg.token, cfg.redact(clipped), 1024);
        safe := safe + [checked.sanitized];
      }
      var event := Event(requestId, stage, safe);
      e := event;
      reply := AppendAudit(eventId, event, io);
    }
  }
}
