// The validator of tool output: nothing a tool claims is believed unless the parent
// finds it in the source file itself.
module Validation {
  import opened Models
  import opened Records

  // Tool output that parsed and met the schema of its tool.
  datatype Output = Output(
    requestId: string, target: string, tool: ToolName, version: string, scanner: string, fixtureDigest: Option<string>,
    observations: seq<Observation>, complete: bool)

  // What the parent itself finds for a relative file name: where it resolves to, its
  // size, its lines if readable, the lines of interpolated execute calls if it parses,
  // and the result of reproducing it as the fixture, with the line of the query.
  datatype Source = Source(
    inWorkspace: bool, inTarget: bool, size: nat, lines: Option<seq<string>>,
    calls: Option<set<int>>, reproduced: Option<(int, int, int)>)

  // The invocation an output has to match, and the parent's view of the files.
  datatype Expectation = Expectation(
    requestId: string, target: string, tool: ToolName, version: string, fixtureDigest: string,
    maxOutputBytes: nat, maxObservations: nat, maxFileBytes: nat, files: string -> Source)

  const SNIPPET := 300

  function Parts(path: string): (parts: seq<string>)
    ensures |parts| > 0
  {
    if path == "" then [""]
    else
      var rest := Parts(path[1..]);
      if path[0] == '/' then [""] + rest else [[path[0]] + rest[0]] + rest[1..]
  }

  // A relative name without backslashes that never climbs.
  predicate SafeName(file: string) {
    !(|file| > 0 && file[0] == '/') && ".." !in Parts(file) && '\\' !in file
  }

  function Clip(line: string): string {
    if |line| <= SNIPPET then line else line[..SNIPPET]
  }

  // The snippet is the beginning of that line of a readable file of the target.
  predicate Sourced(x: Expectation, o: Observation) {
    var s := x.files(o.file);
    && SafeName(o.file) && s.inWorkspace && s.inTarget && s.size <= x.maxFileBytes
    && s.lines.Some? && o.line <= |s.lines.value|
    && o.snippet == Clip(s.lines.value[o.line - 1])
  }

  // A static scan claims no reproduction, and the parent finds the call itself.
  predicate CandidateOk(s: Source, o: Observation) {
    !o.verified && o.reproduction.None? && s.calls.Some? && o.line in s.calls.value
  }

  // The fixture verifier reproduced what the parent reproduces.
  predicate ReproductionOk(s: Source, o: Observation) {
    && s.reproduced.Some? && o.reproduction.Some?
    && s.reproduced.value.0 == o.line
    && o.reproduction.value == Rows(s.reproduced.value.1, s.reproduced.value.2, true)
  }

  predicate ObservationOk(x: Expectation, out: Output, o: Observation) {
    && Sourced(x, o)
    && (x.tool.StaticScan? ==> CandidateOk(x.files(o.file), o))
    && (x.tool.FixtureVerify? ==>
          o.verified && out.complete && out.fixtureDigest == Some(x.fixtureDigest) && ReproductionOk(x.files(o.file), o))
  }

  function TrustedScanner(tool: ToolName): string {
    if tool.StaticScan? then "local-ast-sql-v1" else "fixture-sql-v1"
  }

  predicate Matches(x: Expectation, out: Output) {
    && out.requestId == x.requestId && out.target == x.target && out.tool == x.tool && out.version == x.version
    && out.scanner == TrustedScanner(x.tool)
    && |out.observations| <= x.maxObservations
  }

  // size is the length of the raw output in bytes, parsed what came out of it.
  ghost predicate Acceptable(x: Expectation, size: nat, parsed: Option<Output>) {
    && size <= x.maxOutputBytes
    && parsed.Some? && Matches(x, parsed.value)
    && (forall k | 0 <= k < |parsed.value.observations| :: ObservationOk(x, parsed.value, parsed.value.observations[k]))
    && (x.tool.FixtureVerify? ==> |parsed.value.observations| == 1)
  }

  method CheckCandidate(s: Source, o: Observation) returns (ok: bool)
    ensures ok <==> CandidateOk(s, o)
  {
    if o.verified || o.reproduction.Some? {
      return false;
    }
    if s.calls.None? {
      return false;
    }
    return o.line in s.calls.value;
  }

  method CheckReproduction(x: Expectation, out: Output, s: Source, o: Observation) returns (ok: bool)
    ensures ok <==> o.verified && out.complete && out.fixtureDigest == Some(x.fixtureDigest) && ReproductionOk(s, o)
  {
    if !o.verified || !out.complete {
      return false;
    }
    if out.fixtureDigest != Some(x.fixtureDigest) {
      return false;
    }
    if s.reproduced.None? {
      return false;
    }
    var (line, unsafeRows, parameterizedRows) := s.reproduced.value;
    return !(o.reproduction.None? || line != o.line
             || o.reproduction.value.unsafeRows != unsafeRows
             || o.reproduction.value.parameterizedRows != parameterizedRows
             || !o.reproduction.value.synthetic);
  }

  // The checking loop: it stops at the first observation it cannot confirm.
  method Validate(x: Expectation, size: nat, parsed: Option<Output>) returns (reply: Reply<Output>)
    ensures reply == if Acceptable(x, size, parsed) then Value(parsed.value) else Raised(InvalidOutput)
  {
    if size > x.maxOutputBytes || parsed.None? {
      return Raised(InvalidOutput);
    }
    var out := parsed.value;
    if out.requestId != x.requestId || out.target != x.target || out.tool != x.tool || out.version != x.version {
      return Raised(InvalidOutput);
    }
    if out.scanner != TrustedScanner(x.tool) || |out.observations| > x.maxObservations {
      return Raised(InvalidOutput);
    }
    var n := 0;
    while n < |out.observations|
      invariant n <= |out.observations|
      invariant forall k | 0 <= k < n :: ObservationOk(x, out, out.observations[k])
    {
      var o := out.observations[n];
      var s := x.files(o.file);
      var ok := true;
      if !SafeName(o.file) || !s.inWorkspace || !s.inTarget || s.size > x.maxFileBytes {
        ok := false;
      } else if s.lines.None? || o.line > |s.lines.value| {
        ok := false;
      } else if Clip(s.lines.value[o.line - 1]) != o.snippet {
        ok := false;
      } else if x.tool.StaticScan? {
        ok := CheckCandidate(s, o);
      } else if x.tool.FixtureVerify? {
        ok := CheckReproduction(x, out, s, o);
      }
      if !ok {
        assert !ObservationOk(x, out, out.observations[n]);
        return Raised(InvalidOutput);
      }
      n := n + 1;
    }
    if x.tool.FixtureVerify? && |out.observations| != 1 {
      return Raised(InvalidOutput);
    }
    return Value(out);
  }

  // What later stages rely on: nothing from a static scan is verified, and the fixture
  // verifier returned exactly one verified observation and was complete.
  predicate OutputOk(tool: ToolName, observations: seq<Observation>, complete: bool) {
    && (tool.StaticScan? ==> forall o | o in observations :: !o.verified)
    && (tool.FixtureVerify? ==> |observations| == 1 && observations[0].verified && complete)
  }

  lemma AcceptedOk(x: Expectation, size: nat, parsed: Option<Output>)
    requires Acceptable(x, size, parsed)
    ensures OutputOk(x.tool, parsed.value.observations, parsed.value.complete)
  {
    var observations := parsed.value.observations;
    forall o | o in observations ensures ObservationOk(x, parsed.value, o) {
      var k :| 0 <= k < |observations| && observations[k] == o;
    }
    assert x.tool.FixtureVerify? ==> observations[0] in observations;
  }
}
