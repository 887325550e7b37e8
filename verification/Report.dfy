// Collecting the findings for a report.
module Report {
  import opened Models
  import opened Records
  import opened Stores
  import opened System
  import Findings
  import Guarantees

  const LIMIT := 100

  ghost predicate AllLinked(cfg: Config, ids: seq<string>, db: Db) {
    forall k | 0 <= k < |ids| && ids[k] in db.findings :: Findings.Linked(cfg, db.findings[ids[k]], db.evidence)
  }

  // The evidence of one finding, item by item.
  method CheckEvidence(store: Store, f: Finding) returns (ok: bool)
    ensures ok <==> forall i | 0 <= i < |f.evidenceIds| :: Findings.EvidenceLinked(store.cfg, f, f.evidenceIds[i], store.evidence)
  {
    var n := 0;
    while n < |f.evidenceIds|
      invariant n <= |f.evidenceIds|
      invariant forall i | 0 <= i < n :: Findings.EvidenceLinked(store.cfg, f, f.evidenceIds[i], store.evidence)
    {
      var id := f.evidenceIds[n];
      if id !in store.evidence {
        assert !Findings.EvidenceLinked(store.cfg, f, f.evidenceIds[n], store.evidence);
        return false;
      }
      var e := store.evidence[id];
      if e.origin.requestId != f.requestId || e.origin.target != f.target || e.contentHash != store.cfg.hash(e.content) {
        assert !Findings.EvidenceLinked(store.cfg, f, f.evidenceIds[n], store.evidence);
        return false;
      }
      n := n + 1;
    }
    return true;
  }

  // A confirmed finding needs a reproduction, two items, and one independent test among them.
  method CheckConfirmation(store: Store, f: Finding) returns (ok: bool)
    ensures ok <==> Findings.ConfirmationBacked(f, store.evidence)
  {
    if !f.reproduction || |f.evidenceIds| < 2 {
      return false;
    }
    var n := 0;
    while n < |f.evidenceIds|
      invariant n <= |f.evidenceIds|
      invariant forall i | 0 <= i < n :: !Findings.Independent(f.evidenceIds[i], store.evidence)
    {
      if Findings.Independent(f.evidenceIds[n], store.evidence) {
        return true;
      }
      n := n + 1;
    }
    return false;
  }

  // The checking loop: the newest hundred findings, or the first that fails. What the
  // report schema demands of a finding is given.
  method Collect(store: Store, schemaOk: Finding -> bool) returns (reply: Reply<seq<Finding>>, ghost ids: seq<string>)
    requires store.Valid()
    ensures |ids| == if |store.findingOrder| < LIMIT then |store.findingOrder| else LIMIT
    ensures forall k | 0 <= k < |ids| :: ids[k] in store.findings && ids[k] == store.findingOrder[|store.findingOrder| - 1 - k]
    ensures reply.Value? <==>
              && (forall k | 0 <= k < |ids| :: schemaOk(store.findings[ids[k]]))
              && AllLinked(store.cfg, ids, store.State())
    ensures reply.Raised? ==> reply.fault.InvalidOutput?
    ensures reply.Value? ==> |reply.value| == |ids| && forall k | 0 <= k < |ids| :: reply.value[k] == store.findings[ids[k]]
  {
    var listed := store.ListFindings(LIMIT);
    ids := listed;
    var collected: seq<Finding> := [];
    while |collected| < |listed|
      invariant |collected| <= |listed|
      invariant forall k | 0 <= k < |collected| :: collected[k] == store.findings[listed[k]]
      invariant forall k | 0 <= k < |collected| ::
                  schemaOk(collected[k]) && Findings.Linked(store.cfg, collected[k], store.evidence)
    {
      ghost var k := |collected|;
      var f := store.findings[listed[|collected|]];
      if !schemaOk(f) {
        assert !schemaOk(store.findings[listed[k]]);
        return Raised(InvalidOutput), ids;
      }
      var ok := CheckEvidence(store, f);
      if ok && f.confirmed {
        ok := CheckConfirmation(store, f);
      }
      if !ok {
        assert !Findings.Linked(store.cfg, store.findings[listed[k]], store.evidence);
        return Raised(InvalidOutput), ids;
      }
      collected := collected + [f];
    }
    return Value(collected), ids;
  }

  // On a store any interleaving can reach, the linkage checks never refuse, whoever runs
  // them.
  lemma CollectNeverRefuses(cfgs: Configs, states: seq<System>, actions: seq<Action>, n: nat, ids: seq<string>, i: nat)
    requires ValidConfigs(cfgs) && Trace(cfgs, states, actions) && n < |states|
    ensures AllLinked(cfgs(i), ids, states[n].db)
  {
    hide Trace, Findings.Linked, ValidConfigs;
    forall k | 0 <= k < |ids| && ids[k] in states[n].db.findings
      ensures Findings.Linked(cfgs(i), states[n].db.findings[ids[k]], states[n].db.evidence)
    {
      Guarantees.ReportSound(cfgs, states, actions, n, ids[k], i);
    }
  }
}
