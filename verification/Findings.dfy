// From a validated observation to stored evidence and a finding, and what the reporter
// checks about the two.
module Findings {
  import opened Models
  import opened Records
  import Quarantine

  /* ---------- evidence ---------- */

  // The evidence of one observation: the quarantined source line, and for a verified
  // one the result of the independent reproduction.
  function EvidenceFor(cfg: Config, origin: Origin, o: Observation, sourceId: string, testId: string)
    : seq<(string, Evidence)>
  {
    var source := Quarantine.Quarantined(cfg.signatures, cfg.token, cfg.redact(o.snippet), 300).sanitized;
    var result := cfg.summary(o);
    [(sourceId, Evidence(origin, SourceCode, source, cfg.hash(source), false))]
    + if o.verified then [(testId, Evidence(origin, TestResult, result, cfg.hash(result), true))] else []
  }

  function Ids(built: seq<(string, Evidence)>): seq<string> {
    seq(|built|, i requires 0 <= i < |built| => built[i].0)
  }

  /* ---------- the finding ---------- */

  function FirstSource(built: seq<(string, Evidence)>): Option<Evidence> {
    if built == [] then None
    else if built[0].1.category.SourceCode? then Some(built[0].1)
    else FirstSource(built[1..])
  }

  predicate Reproduced(built: seq<(string, Evidence)>) {
    exists i | 0 <= i < |built| :: built[i].1.category.TestResult? && built[i].1.independent
  }

  // The finding made of an observation and its evidence; None stands for
  // EvidenceValidationFailed.
  function Evaluate(cfg: Config, origin: Origin, o: Observation, built: seq<(string, Evidence)>): Option<Finding> {
    var source := FirstSource(built);
    if built == [] then None
    else if exists i | 0 <= i < |built| ::
      built[i].1.origin.target != origin.target || built[i].1.origin.requestId != origin.requestId then None
    else if source.None? || source.value.contentHash != cfg.hash(source.value.content) then None
    else if o.verified && !Reproduced(built) then None
    else Some(Finding(origin.requestId, origin.target, origin.tool, Ids(built), o.verified, o.verified))
  }

  // Evidence built for an observation always supports it: the failure cannot happen.
  lemma BuiltSupports(cfg: Config, origin: Origin, o: Observation, sourceId: string, testId: string)
    ensures var built := EvidenceFor(cfg, origin, o, sourceId, testId);
            Evaluate(cfg, origin, o, built)
            == Some(Finding(origin.requestId, origin.target, origin.tool, Ids(built), o.verified, o.verified))
  {
    var built := EvidenceFor(cfg, origin, o, sourceId, testId);
    if o.verified {
      assert built[1].1.category.TestResult? && built[1].1.independent;
    }
  }

  /* ---------- what the reporter checks ---------- */

  predicate EvidenceLinked(cfg: Config, f: Finding, id: string, evidence: map<string, Evidence>) {
    && id in evidence
    && evidence[id].origin.requestId == f.requestId
    && evidence[id].origin.target == f.target
    && evidence[id].contentHash == cfg.hash(evidence[id].content)
  }

  predicate Independent(id: string, evidence: map<string, Evidence>) {
    id in evidence && evidence[id].category.TestResult? && evidence[id].independent
  }

  predicate ConfirmationBacked(f: Finding, evidence: map<string, Evidence>) {
    && f.reproduction
    && |f.evidenceIds| >= 2
    && exists i | 0 <= i < |f.evidenceIds| :: Independent(f.evidenceIds[i], evidence)
  }

  predicate Linked(cfg: Config, f: Finding, evidence: map<string, Evidence>) {
    && (forall i | 0 <= i < |f.evidenceIds| :: EvidenceLinked(cfg, f, f.evidenceIds[i], evidence))
    && (f.confirmed ==> ConfirmationBacked(f, evidence))
  }

  // Beyond the linkage, a confirmed finding is the fixture verifier's.
  ghost predicate Sound(cfg: Config, f: Finding, evidence: map<string, Evidence>) {
    && Linked(cfg, f, evidence)
    && (f.confirmed ==> f.tool.FixtureVerify?)
    && f.evidenceIds != []
  }

  // Evidence is write-once, so soundness lasts.
  lemma SoundStable(cfg: Config, f: Finding, evidence: map<string, Evidence>, evidence': map<string, Evidence>)
    requires Sound(cfg, f, evidence)
    requires forall id | id in evidence :: id in evidence' && evidence'[id] == evidence[id]
    ensures Sound(cfg, f, evidence')
  {
    forall i | 0 <= i < |f.evidenceIds| ensures EvidenceLinked(cfg, f, f.evidenceIds[i], evidence') {
      assert EvidenceLinked(cfg, f, f.evidenceIds[i], evidence);
    }
    if f.confirmed {
      var i :| 0 <= i < |f.evidenceIds| && Independent(f.evidenceIds[i], evidence);
      assert Independent(f.evidenceIds[i], evidence');
    }
  }

  // A finding whose evidence has all been stored is sound, provided only the fixture
  // verifier's observations are verified.
  lemma StoredIsSound(cfg: Config, origin: Origin, o: Observation, sourceId: string, testId: string,
                      evidence: map<string, Evidence>)
    requires o.verified ==> origin.tool.FixtureVerify?
    requires var built := EvidenceFor(cfg, origin, o, sourceId, testId);
             forall k | 0 <= k < |built| :: built[k].0 in evidence && evidence[built[k].0] == built[k].1
    ensures var built := EvidenceFor(cfg, origin, o, sourceId, testId);
            Evaluate(cfg, origin, o, built).Some? && Sound(cfg, Evaluate(cfg, origin, o, built).value, evidence)
  {
    BuiltSupports(cfg, origin, o, sourceId, testId);
    var built := EvidenceFor(cfg, origin, o, sourceId, testId);
    var f := Evaluate(cfg, origin, o, built).value;
    forall i | 0 <= i < |f.evidenceIds| ensures EvidenceLinked(cfg, f, f.evidenceIds[i], evidence) {
      assert f.evidenceIds[i] == built[i].0;
    }
    if o.verified {
      assert f.evidenceIds[1] == built[1].0;
      assert Independent(f.evidenceIds[1], evidence);
    }
  }
}
