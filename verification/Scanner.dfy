// The bounded source scan: a limit on files, on file size, and on observations.
module Scanner {

  datatype Sink = Sink(file: string, line: nat, snippet: string)

  // What inspecting one file comes to. The sinks of a file are taken as given.
  datatype Content =
    | Escapes                    // resolves outside the workspace
    | Oversized
    | Unreadable
    | Sinks(found: seq<Sink>)

  datatype File = File(parts: seq<string>, content: Content)

  datatype Warning = FileLimit | SymlinkSkipped | OversizedSkipped | UnreadableSkipped | ObservationLimit

  datatype Limits = Limits(maxFiles: nat, maxObservations: nat)

  datatype Report = Report(observations: seq<Sink>, complete: bool, warnings: seq<Warning>, filesInspected: nat)

  const IGNORED_PARTS := {".git", ".noble", ".venv", "node_modules", "__pycache__", ".cache"}

  predicate Ignored(f: File) {
    exists part | part in f.parts :: part in IGNORED_PARTS
  }

  // The sinks of every file that is neither ignored nor skipped, in order.
  function AllSinks(files: seq<File>): seq<Sink> {
    if files == [] then []
    else (if !Ignored(files[0]) && files[0].content.Sinks? then files[0].content.found else [])
         + AllSinks(files[1..])
  }

  function Inspectable(files: seq<File>): nat {
    if files == [] then 0 else (if Ignored(files[0]) then 0 else 1) + Inspectable(files[1..])
  }

  // Every file that is not ignored can be inspected.
  predicate Clean(files: seq<File>) {
    forall i | 0 <= i < |files| :: Ignored(files[i]) || files[i].content.Sinks?
  }

  /* ---------- the scan as a fold ---------- */

  datatype State = State(observations: seq<Sink>, warnings: seq<Warning>, seen: nat, complete: bool, stopped: bool)

  function Warn(st: State, w: Warning): State {
    st.(warnings := st.warnings + [w], complete := false)
  }

  function ScanFile(lim: Limits, st: State, f: File): State {
    if Ignored(f) then st
    else if st.seen >= lim.maxFiles then Warn(st, FileLimit).(stopped := true)
    else
      var st := st.(seen := st.seen + 1);
      match f.content
      case Escapes => Warn(st, SymlinkSkipped)
      case Oversized => Warn(st, OversizedSkipped)
      case Unreadable => Warn(st, UnreadableSkipped)
      case Sinks(found) =>
        var room := if |st.observations| <= lim.maxObservations then lim.maxObservations - |st.observations| else 0;
        var st' := if |found| <= room then st.(observations := st.observations + found)
                   else Warn(st.(observations := st.observations + found[..room]), ObservationLimit);
        st'.(stopped := |st'.observations| >= lim.maxObservations)
  }

  function Scan(lim: Limits, st: State, files: seq<File>): State
    decreases files
  {
    if files == [] || st.stopped then st else Scan(lim, ScanFile(lim, st, files[0]), files[1..])
  }

  const START := State([], [], 0, true, false)

  function ReportOf(st: State): Report {
    Report(st.observations, st.complete,
           if |st.warnings| <= 10 then st.warnings else st.warnings[..10], st.seen)
  }

  method ScanPython(lim: Limits, files: seq<File>) returns (r: Report)
    ensures r == ReportOf(Scan(lim, START, files))
    ensures |r.observations| <= lim.maxObservations
    ensures r.filesInspected <= lim.maxFiles
    ensures r.complete <==> r.warnings == []
    ensures r.observations <= AllSinks(files)
    ensures r.complete && |r.observations| < lim.maxObservations ==>
              r.observations == AllSinks(files) && Clean(files) && r.filesInspected == Inspectable(files)
  {
    var observations, warnings := [], [];
    var filesSeen := 0;
    var complete := true;
    var stopped := false;
    var i := 0;
    while i < |files| && !stopped
      invariant i <= |files|
      invariant Bounded(lim, State(observations, warnings, filesSeen, complete, stopped))
      invariant Scan(lim, State(observations, warnings, filesSeen, complete, stopped), files[i..])
             == Scan(lim, START, files)
    {
      ghost var before := State(observations, warnings, filesSeen, complete, stopped);
      var file := files[i];
      assert files[i..][0] == file && files[i..][1..] == files[i + 1..];
      i := i + 1;
      if Ignored(file) {
        continue;
      }
      if filesSeen >= lim.maxFiles {
        complete := false;
        warnings := warnings + [FileLimit];
        stopped := true;
        break;
      }
      filesSeen := filesSeen + 1;
      match file.content {
        case Escapes =>
          complete := false;
          warnings := warnings + [SymlinkSkipped];
        case Oversized =>
          complete := false;
          warnings := warnings + [OversizedSkipped];
        case Unreadable =>
          complete := false;
          warnings := warnings + [UnreadableSkipped];
        case Sinks(found) =>
          var j := 0;
          while j < |found|
            invariant j <= |found|
            invariant observations == before.observations + found[..j]
            invariant |observations| <= lim.maxObservations
            invariant complete == before.complete && warnings == before.warnings
          {
            if |observations| >= lim.maxObservations {
              complete := false;
              warnings := warnings + [ObservationLimit];
              break;
            }
            observations := observations + [found[j]];
            j := j + 1;
          }
          assert found[..|found|] == found;
          stopped := |observations| >= lim.maxObservations;
      }
      assert State(observations, warnings, filesSeen, complete, stopped) == ScanFile(lim, before, file);
    }
    ghost var end := State(observations, warnings, filesSeen, complete, stopped);
    assert end == Scan(lim, START, files);
    ScanPrefix(lim, START, files);
    if complete && |observations| < lim.maxObservations {
      ScanWhole(lim, START, files);
    }
    return Report(observations, complete, if |warnings| <= 10 then warnings else warnings[..10], filesSeen);
  }

  predicate Bounded(lim: Limits, st: State) {
    && |st.observations| <= lim.maxObservations
    && st.seen <= lim.maxFiles
    && (st.complete <==> st.warnings == [])
  }

  // Observations are always a prefix of what an unlimited scan would report.
  lemma {:induction false} ScanPrefix(lim: Limits, st: State, files: seq<File>)
    ensures Scan(lim, st, files).observations <= st.observations + AllSinks(files)
    decreases files
  {
    if files != [] && !st.stopped {
      ScanPrefix(lim, ScanFile(lim, st, files[0]), files[1..]);
      var next := ScanFile(lim, st, files[0]);
      if !Ignored(files[0]) && files[0].content.Sinks? {
        var found := files[0].content.found;
        if next.observations == st.observations + found {
          assert st.observations + AllSinks(files) == next.observations + AllSinks(files[1..]);
        } else {
          assert next.stopped;
          assert Scan(lim, next, files[1..]) == next;
        }
      }
    }
  }

  lemma {:induction false} CompleteBefore(lim: Limits, st: State, files: seq<File>)
    requires Scan(lim, st, files).complete
    ensures st.complete
    decreases files
  {
    if files != [] && !st.stopped {
      CompleteBefore(lim, ScanFile(lim, st, files[0]), files[1..]);
    }
  }

  // A complete report that stays below the observation limit missed nothing.
  lemma {:induction false} ScanWhole(lim: Limits, st: State, files: seq<File>)
    requires !st.stopped
    requires Scan(lim, st, files).complete
    requires |Scan(lim, st, files).observations| < lim.maxObservations
    ensures Scan(lim, st, files).observations == st.observations + AllSinks(files)
    ensures Clean(files) && Scan(lim, st, files).seen == st.seen + Inspectable(files)
    decreases files
  {
    if files != [] {
      var next := ScanFile(lim, st, files[0]);
      CompleteBefore(lim, next, files[1..]);
      assert !next.stopped;
      ScanWhole(lim, next, files[1..]);
      assert forall i | 0 < i < |files| :: files[i] == files[1..][i - 1];
    }
  }

  /* ---------- exactly when a complete report misses something ---------- */

  // With these counts so far, the scan stops after file n without raising a warning:
  // the observation limit is reached precisely at the end of that file.
  ghost predicate StopsQuietly(lim: Limits, have: nat, seen: nat, files: seq<File>, n: nat) {
    && n < |files| && !Ignored(files[n])
    && Clean(files[..n + 1])
    && seen + Inspectable(files[..n + 1]) <= lim.maxFiles
    && have + |AllSinks(files[..n + 1])| == lim.maxObservations
  }

  // Nothing to report and nothing to warn about.
  predicate Silent(files: seq<File>) {
    forall i | 0 <= i < |files| :: Ignored(files[i]) || files[i].content == Sinks([])
  }

  ghost predicate Overlooks(lim: Limits, have: nat, seen: nat, files: seq<File>) {
    exists n: nat :: StopsQuietly(lim, have, seen, files, n) && !Silent(files[n + 1..])
  }

  lemma {:induction false} SilentIff(files: seq<File>)
    ensures Silent(files) <==> AllSinks(files) == [] && Clean(files)
  {
    if files != [] {
      SilentIff(files[1..]);
      assert forall i | 0 < i < |files| :: files[i] == files[1..][i - 1];
      CleanSplit(files);
    }
  }

  lemma PrefixShift(files: seq<File>, n: nat)
    requires 0 < n < |files|
    ensures files[..n + 1] == [files[0]] + files[1..][..n]
    ensures Inspectable(files[..n + 1]) == (if Ignored(files[0]) then 0 else 1) + Inspectable(files[1..][..n])
    ensures Clean(files[..n + 1]) <==>
            (Ignored(files[0]) || files[0].content.Sinks?) && Clean(files[1..][..n])
    ensures AllSinks(files[..n + 1]) ==
            (if !Ignored(files[0]) && files[0].content.Sinks? then files[0].content.found else [])
            + AllSinks(files[1..][..n])
  {
    var front := files[1..][..n];
    assert files[..n + 1] == [files[0]] + front;
    assert files[..n + 1][1..] == front;
    if Clean(files[..n + 1]) {
      forall i | 0 <= i < n ensures Ignored(front[i]) || front[i].content.Sinks? {
        assert front[i] == files[..n + 1][i + 1];
      }
    }
  }

  // The counts after a first file that neither stops the scan nor raises a warning.
  predicate PassesFirst(lim: Limits, have: nat, seen: nat, files: seq<File>, have': nat, seen': nat) {
    && files != []
    && if Ignored(files[0]) then have' == have && seen' == seen
       else
         && files[0].content.Sinks? && seen' == seen + 1
         && have' == have + |files[0].content.found| && have' != lim.maxObservations
  }

  lemma QuietShift(lim: Limits, have: nat, seen: nat, files: seq<File>, have': nat, seen': nat, n: nat)
    requires PassesFirst(lim, have, seen, files, have', seen')
    ensures !StopsQuietly(lim, have, seen, files, 0)
    ensures n < |files| - 1 ==>
              (StopsQuietly(lim, have, seen, files, n + 1) <==> StopsQuietly(lim, have', seen', files[1..], n))
  {
    assert files[..1] == [files[0]];
    assert AllSinks(files[..1]) == (if !Ignored(files[0]) && files[0].content.Sinks? then files[0].content.found else [])
                                   + AllSinks([]);
    if n < |files| - 1 {
      PrefixShift(files, n + 1);
    }
  }

  lemma OverlooksShift(lim: Limits, have: nat, seen: nat, files: seq<File>, have': nat, seen': nat)
    requires PassesFirst(lim, have, seen, files, have', seen')
    ensures Overlooks(lim, have, seen, files) <==> Overlooks(lim, have', seen', files[1..])
  {
    hide Silent, Clean, Inspectable;
    var rest := files[1..];
    if n: nat :| StopsQuietly(lim, have, seen, files, n) && !Silent(files[n + 1..]) {
      QuietShift(lim, have, seen, files, have', seen', if n == 0 then 0 else n - 1);
      assert rest[n - 1 + 1..] == files[n + 1..];
      assert StopsQuietly(lim, have', seen', rest, n - 1);
    }
    if n: nat :| StopsQuietly(lim, have', seen', rest, n) && !Silent(rest[n + 1..]) {
      QuietShift(lim, have, seen, files, have', seen', n);
      assert files[n + 1 + 1..] == rest[n + 1..];
      assert StopsQuietly(lim, have, seen, files, n + 1);
    }
  }

  lemma NoOverlookHere(lim: Limits, have: nat, seen: nat, files: seq<File>)
    requires files != [] && !Ignored(files[0])
    requires seen >= lim.maxFiles || !files[0].content.Sinks?
             || have + |files[0].content.found| > lim.maxObservations
    ensures !Overlooks(lim, have, seen, files)
  {
    forall n: nat | n < |files| ensures !StopsQuietly(lim, have, seen, files, n) {
      if n == 0 {
        assert files[..1] == [files[0]];
      } else {
        PrefixShift(files, n);
      }
    }
  }

  lemma OverlookAtLimit(lim: Limits, have: nat, seen: nat, files: seq<File>)
    requires files != [] && !Ignored(files[0]) && seen < lim.maxFiles && files[0].content.Sinks?
    requires have + |files[0].content.found| == lim.maxObservations
    ensures Overlooks(lim, have, seen, files) <==> !Silent(files[1..])
  {
    assert files[..1] == [files[0]];
    assert AllSinks(files[..1]) == files[0].content.found + AllSinks([]);
    assert Inspectable(files[..1]) == 1 + Inspectable([]);
    assert StopsQuietly(lim, have, seen, files, 0);
    if n: nat :| StopsQuietly(lim, have, seen, files, n) && !Silent(files[n + 1..]) {
      var i :| 0 <= i < |files[n + 1..]| && !(Ignored(files[n + 1..][i]) || files[n + 1..][i].content == Sinks([]));
      assert files[1..][n + i] == files[n + 1..][i];
    }
  }

  lemma IncompleteStays(lim: Limits, st: State, files: seq<File>)
    requires !st.complete
    ensures !Scan(lim, st, files).complete
  {
    if Scan(lim, st, files).complete {
      CompleteBefore(lim, st, files);
    }
  }

  // The scan from here claims completeness although it misses something.
  predicate Partial(lim: Limits, st: State, files: seq<File>) {
    var end := Scan(lim, st, files);
    end.complete && !(end.observations == st.observations + AllSinks(files) && Clean(files))
  }

  predicate Fatal(lim: Limits, st: State, f: File) {
    && !Ignored(f)
    && (st.seen >= lim.maxFiles || !f.content.Sinks?
        || |st.observations| + |f.content.found| > lim.maxObservations)
  }

  predicate Fills(lim: Limits, st: State, f: File) {
    && !Ignored(f) && st.seen < lim.maxFiles && f.content.Sinks?
    && |st.observations| + |f.content.found| == lim.maxObservations
  }

  lemma FatalFile(lim: Limits, st: State, files: seq<File>)
    requires !st.stopped && |st.observations| <= lim.maxObservations
    requires files != [] && Fatal(lim, st, files[0])
    ensures !Partial(lim, st, files)
  {
    IncompleteStays(lim, ScanFile(lim, st, files[0]), files[1..]);
  }

  lemma FillingFile(lim: Limits, st: State, files: seq<File>)
    requires !st.stopped && st.complete && |st.observations| <= lim.maxObservations
    requires files != [] && Fills(lim, st, files[0])
    ensures Partial(lim, st, files) <==> !Silent(files[1..])
  {
    var next := ScanFile(lim, st, files[0]);
    SilentIff(files[1..]);
    CleanSplit(files);
    assert Scan(lim, st, files) == next;
    assert st.observations + AllSinks(files) == next.observations + AllSinks(files[1..]);
  }

  lemma PassingFile(lim: Limits, st: State, files: seq<File>)
    requires !st.stopped && st.complete && |st.observations| <= lim.maxObservations
    requires files != [] && !Fatal(lim, st, files[0]) && !Fills(lim, st, files[0])
    ensures var next := ScanFile(lim, st, files[0]);
            && Partial(lim, st, files) == Partial(lim, next, files[1..])
            && !next.stopped && next.complete && |next.observations| <= lim.maxObservations
            && PassesFirst(lim, |st.observations|, st.seen, files, |next.observations|, next.seen)
  {
    var next := ScanFile(lim, st, files[0]);
    CleanSplit(files);
    assert st.observations + AllSinks(files) == next.observations + AllSinks(files[1..]);
  }

  lemma {:induction false} OverlooksExact(lim: Limits, st: State, files: seq<File>)
    requires !st.stopped && st.complete && |st.observations| <= lim.maxObservations
    ensures Partial(lim, st, files) <==> Overlooks(lim, |st.observations|, st.seen, files)
    decreases files
  {
    hide Overlooks, Silent, ScanFile;
    if files == [] {
      NothingLeft(lim, |st.observations|, st.seen);
      assert st.observations + [] == st.observations;
    } else if Fatal(lim, st, files[0]) {
      FatalFile(lim, st, files);
      NoOverlookHere(lim, |st.observations|, st.seen, files);
    } else if Fills(lim, st, files[0]) {
      FillingFile(lim, st, files);
      OverlookAtLimit(lim, |st.observations|, st.seen, files);
    } else {
      var next := ScanFile(lim, st, files[0]);
      PassingFile(lim, st, files);
      OverlooksExact(lim, next, files[1..]);
      OverlooksShift(lim, |st.observations|, st.seen, files, |next.observations|, next.seen);
    }
  }

  lemma NothingLeft(lim: Limits, have: nat, seen: nat)
    ensures !Overlooks(lim, have, seen, [])
    ensures Clean([])
  {
  }

  lemma CleanSplit(files: seq<File>)
    requires files != []
    ensures Clean(files) <==> (Ignored(files[0]) || files[0].content.Sinks?) && Clean(files[1..])
  {
    assert forall i | 0 < i < |files| :: files[i] == files[1..][i - 1];
    if Clean(files) {
      forall i | 0 <= i < |files[1..]| ensures Ignored(files[1..][i]) || files[1..][i].content.Sinks? {
        assert files[1..][i] == files[i + 1];
      }
    }
  }

  // A report claims completeness although it misses sinks or a file it could not
  // inspect exactly when the limit is reached at the end of a file and a later file
  // has something to say.
  lemma CompleteButPartial(lim: Limits, files: seq<File>)
    ensures var r := ReportOf(Scan(lim, START, files));
            r.complete && !(r.observations == AllSinks(files) && Clean(files))
            <==> Overlooks(lim, 0, 0, files)
  {
    OverlooksExact(lim, START, files);
    assert [] + AllSinks(files) == AllSinks(files);
  }

  // Two files with one sink each under a limit of one observation.
  lemma CompleteButPartialExample()
    ensures exists files: seq<File> ::
              ReportOf(Scan(Limits(2, 1), START, files)).complete
              && |ReportOf(Scan(Limits(2, 1), START, files)).observations| < |AllSinks(files)|
  {
    var a := File([], Sinks([Sink("a.py", 1, "x")]));
    var b := File([], Sinks([Sink("b.py", 1, "y")]));
    var lim := Limits(2, 1);
    assert [a, b][0] == a && [a, b][1..] == [b] && [b][0] == b && [b][1..] == [];
    assert AllSinks([a, b]) == a.content.found + AllSinks([b]);
    assert AllSinks([b]) == b.content.found + AllSinks([]);
    var next := ScanFile(lim, START, a);
    assert next.observations == a.content.found && next.stopped;
    assert Scan(lim, START, [a, b]) == Scan(lim, next, [b]) == next;
  }
}
