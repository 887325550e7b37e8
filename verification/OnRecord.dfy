// What the rows of the audit table hold: where each comes from, and when it is free of
// signatures as a whole.
module OnRecord {
  import opened Models
  import opened Records
  import opened Runs
  import opened RunInvariant
  import opened System
  import Approvals
  import AuditChain
  import Findings
  import Guarantees
  import Limiter
  import Quarantine
  import Regex

  // The fields and the request id.
  ghost predicate Whole(cfg: Config, e: Event) {
    CleanEvent(cfg, e) && Quarantine.Free(cfg.signatures, e.requestId)
  }

  // The event a run appends by this move.
  ghost predicate Emits(m: Move, r: Run, e: Event) {
    && !m.Fault?
    && e.requestId == r.request.id
    && match m.act
       case Log(_, fields) => LogAt(r.pc, DecisionOf(r.checks)) == Some(e.stage) && e.fields == fields
       case AskLog(_, fields) => e.stage == Other("APPROVAL_REQUESTED") && e.fields == fields
       case _ => false
  }

  // Step m appends this event.
  ghost predicate Appends(states: seq<System>, actions: seq<Action>, m: nat, e: Event) {
    && m < |actions| && m < |states|
    && match actions[m]
       case Append(_, event) => e == event
       case Advance(i, move) => i in states[m].runs && Emits(move, states[m].runs[i], e)
       case _ => false
  }

  /* ---------- where a row comes from ---------- */

  lemma ActEmits(cfg: Config, act: Act, r: Run, db: Db) returns (e: Event)
    requires ValidConfig(cfg) && Equipped(cfg, r) && Enabled(cfg, act, r, db)
    requires NewDb(cfg, act, r, db).audit != db.audit
    ensures Emits(Do(act), r, e) && Emits(Lose(act), r, e) && CleanEvent(cfg, e)
    ensures exists id :: NewDb(cfg, act, r, db).audit == AppendEvent(cfg, db, id, e).audit
  {
    hide CleanEvent, Limiter.Acquire, Findings.Evaluate, AuditChain.Append;
    if act.Log? {
      e := Event(r.request.id, LogAt(r.pc, DecisionOf(r.checks)).value, act.fields);
      assert NewDb(cfg, act, r, db).audit == AppendEvent(cfg, db, act.eventId, e).audit;
    } else {
      assert act.AskLog?;
      e := Event(r.request.id, Other("APPROVAL_REQUESTED"), act.fields);
      assert NewDb(cfg, act, r, db).audit == AppendEvent(cfg, db, act.eventId, e).audit;
    }
  }

  lemma MoveEmits(cfg: Config, m: Move, r: Run, db: Db, r': Run, db': Db) returns (e: Event)
    requires ValidConfig(cfg) && Step(cfg, m, r, db, r', db') && db'.audit != db.audit
    ensures Emits(m, r, e) && CleanEvent(cfg, e)
    ensures exists id :: db'.audit == AppendEvent(cfg, db, id, e).audit
  {
    hide Enabled, NewDb, NewRun, MayRaise, Fail, Emits, CleanEvent, AppendEvent;
    e := ActEmits(cfg, m.act, r, db);
  }

  // A step appends at most one row, with a clean event.
  lemma RowNow(cfgs: Configs, states: seq<System>, actions: seq<Action>, m: nat) returns (e: Event)
    requires ValidConfigs(cfgs) && Trace(cfgs, states, actions) && m < |actions|
    requires states[m + 1].db.audit != states[m].db.audit
    ensures Appends(states, actions, m, e) && CleanEvent(cfgs(0), e)
    ensures |states[m + 1].db.audit| == |states[m].db.audit| + 1
    ensures states[m + 1].db.audit[|states[m].db.audit|].data == cfgs(0).json(e)
  {
    hide Step, Approvals.Next, CleanEvent, Stamped, NewEvents, Limiter.Step, Emits;
    assert Next(cfgs, states[m], actions[m], states[m + 1]);
    var a := actions[m];
    if a.Append? {
      e := a.event;
    } else {
      assert a.Advance?;
      e := MoveEmits(cfgs(a.run), a.move, states[m].runs[a.run], states[m].db, states[m + 1].runs[a.run], states[m + 1].db);
      CleanAlike(cfgs(a.run), cfgs(0), e);
    }
  }

  lemma CleanAlike(a: Config, b: Config, e: Event)
    requires Alike(a, b) && CleanEvent(a, e)
    ensures CleanEvent(b, e)
  {
  }

  lemma {:induction false} RowOrigin(cfgs: Configs, states: seq<System>, actions: seq<Action>, n: nat, k: nat)
    returns (m: nat, e: Event)
    requires ValidConfigs(cfgs) && Trace(cfgs, states, actions) && n < |states| && k < |states[n].db.audit|
    ensures m < n && Appends(states, actions, m, e) && |states[m].db.audit| == k
    ensures CleanEvent(cfgs(0), e) && states[n].db.audit[k].data == cfgs(0).json(e)
  {
    hide Next, Appends, CleanEvent, ValidConfigs;
    assert n > 0;
    Grows(cfgs, states, actions, n - 1);
    if k < |states[n - 1].db.audit| {
      m, e := RowOrigin(cfgs, states, actions, n - 1, k);
    } else {
      m := n - 1;
      e := RowNow(cfgs, states, actions, n - 1);
    }
  }

  lemma Grows(cfgs: Configs, states: seq<System>, actions: seq<Action>, n: nat)
    requires ValidConfigs(cfgs) && Trace(cfgs, states, actions) && n < |actions|
    ensures states[n].db.audit <= states[n + 1].db.audit
  {
    hide Trace, SysOk, Approvals.Evolves;
    TraceLength(cfgs, states, actions);
    EvolvesAlong(cfgs, states, actions, n, n + 1);
  }

  lemma TraceLength(cfgs: Configs, states: seq<System>, actions: seq<Action>)
    requires ValidConfigs(cfgs) && Trace(cfgs, states, actions)
    ensures |states| == |actions| + 1
  {
    hide Next, Initial;
  }

  /* ---------- when it is free of signatures ---------- */

  // An id the engine accepts holds nothing a signature could match.
  lemma ValidIdFree(cfg: Config, id: string)
    requires ValidId(id)
    ensures Quarantine.Free(cfg.signatures, id)
  {
    forall c | c in id ensures !Regex.Marker(c) {
      var i :| 0 <= i < |id| && id[i] == c;
      if i < 4 {
        assert id[..4][i] == c;
      }
    }
    Quarantine.UnmarkedFree(cfg.signatures, id);
  }

  // A run with a malformed id never gets past the check of it.
  lemma StuckAtCheck(cfgs: Configs, states: seq<System>, actions: seq<Action>, n: nat, i: nat)
    requires ValidConfigs(cfgs) && Trace(cfgs, states, actions) && n < |states| && i in states[n].runs
    requires !ValidId(states[n].runs[i].request.id)
    ensures InBody(states[n].runs[i].pc) ==> states[n].runs[i].pc <= AT_VALIDATING
    ensures forall k | 0 <= k < |states[n].calls| :: states[n].calls[k].run != i
  {
    hide Trace, AuditOk, FindingsSound, LeaseIdsOk, LeasesOk, AllStored, AdmissionsOk, AllListed, Approvals.Inv, Facts, LifeOk,
         EndOk, StepsOk, HoldsOk, WorkOk, Replay, OwnersOk, Disjoint, NoFinalFailure, ValidId;
    Reachable(cfgs, states, actions, n);
    assert RunOk(cfgs(i), states[n].runs[i], states[n].db);
    forall k | 0 <= k < |states[n].calls| ensures states[n].calls[k].run != i {
      var c := states[n].calls[k];
      assert CallOk(cfgs, c, states[n].runs, states[n].db);
      assert RunOk(cfgs(c.run), c.before, states[n].db);
    }
  }

  // Which point logs what.
  lemma EmitsFrom(cfg: Config, m: Move, r: Run, db: Db, r': Run, db': Db, e: Event)
    requires ValidConfig(cfg) && Step(cfg, m, r, db, r', db') && Emits(m, r, e)
    ensures CleanEvent(cfg, e)
    ensures InBody(r.pc) ==> r.pc > AT_VALIDATING
    ensures !InBody(r.pc) ==> e.stage.Finished?
  {
    hide CleanEvent, NewDb, NewRun, MayRaise, Fail;
  }

  // Every row of a reachable audit table was appended by one step. If a run appended it,
  // it carries the id of that run's request, and is free of signatures as a whole exactly
  // if that id is. If it is not, then the id is malformed, the run did not get past the
  // check of it and calls no tool, and the row is its FINISHED event: only requests
  // refused for their id put a signature on record.
  lemma SignatureOnRecord(cfgs: Configs, states: seq<System>, actions: seq<Action>, n: nat, k: nat)
    returns (m: nat, e: Event)
    requires ValidConfigs(cfgs) && Trace(cfgs, states, actions) && n < |states| && k < |states[n].db.audit|
    ensures m < n && Appends(states, actions, m, e) && |states[m].db.audit| == k
    ensures CleanEvent(cfgs(0), e) && states[n].db.audit[k].data == cfgs(0).json(e)
    ensures actions[m].Advance? ==>
              var i := actions[m].run;
              && i in states[m].runs && i in states[n].runs
              && e.requestId == states[m].runs[i].request.id == states[n].runs[i].request.id
              && (Whole(cfgs(i), e) <==> Quarantine.Free(cfgs(i).signatures, e.requestId))
              && (!Whole(cfgs(i), e) ==>
                    && !ValidId(e.requestId) && e.stage.Finished?
                    && (InBody(states[n].runs[i].pc) ==> states[n].runs[i].pc <= AT_VALIDATING)
                    && (forall c | 0 <= c < |states[n].calls| :: states[n].calls[c].run != i))
  {
    hide Next, Initial, CleanEvent, Emits, ValidId, Quarantine.Free;
    m, e := RowOrigin(cfgs, states, actions, n, k);
    if actions[m].Advance? {
      var i := actions[m].run;
      Guarantees.Onward(cfgs, states, actions, i, m, n);
      RunEmits(cfgs, states, actions, m, e);
      if ValidId(e.requestId) {
        ValidIdFree(cfgs(i), e.requestId);
      } else {
        StuckAtCheck(cfgs, states, actions, m, i);
        StuckAtCheck(cfgs, states, actions, n, i);
      }
    }
  }

  lemma RunEmits(cfgs: Configs, states: seq<System>, actions: seq<Action>, m: nat, e: Event)
    requires ValidConfigs(cfgs) && Trace(cfgs, states, actions) && Appends(states, actions, m, e) && actions[m].Advance?
    ensures var r, cfg := states[m].runs[actions[m].run], cfgs(actions[m].run);
            && e.requestId == r.request.id && CleanEvent(cfg, e)
            && (InBody(r.pc) ==> r.pc > AT_VALIDATING) && (!InBody(r.pc) ==> e.stage.Finished?)
  {
    hide Step, Initial, CleanEvent, Stamped, NewEvents;
    var i := actions[m].run;
    assert Next(cfgs, states[m], actions[m], states[m + 1]);
    EmitsFrom(cfgs(i), actions[m].move, states[m].runs[i], states[m].db, states[m + 1].runs[i], states[m + 1].db, e);
  }
}
