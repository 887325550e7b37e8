// The bounded read loop of the worker runner: two pipes are read as the selector
// reports them, under a wall-time limit and a limit on buffered output.
module Execution {
  import opened Models

  type Bytes = seq<bv8>

  datatype Stream = Out | Err

  const CHUNK := 4096
  const POLL := 0.25

  // The outside world of one run: what successive reads of a pipe return (empty is end
  // of file), which registered pipes the selector reports in iteration n, the readings of
  // the monotonic clock, the first of them from before the worker was started, and in
  // which iterations the selector or a read fails.
  datatype Feed = Feed(
    chunk: (Stream, nat) -> Bytes,
    ready: (nat, set<Stream>) -> seq<Stream>,
    start: real,
    clock: nat -> real,
    breaks: nat -> bool)

  // What the operating system promises: reads return at most the requested size, the
  // selector reports registered pipes, each once, the clock does not run backwards,
  // and a selection that reports nothing has waited for its timeout.
  ghost predicate ValidFeed(f: Feed, timeout: real) {
    && (forall s, k: nat :: |f.chunk(s, k)| <= CHUNK)
    && (forall n: nat, reg | reg != {} :: ReportsRegistered(f.ready(n, reg), reg))
    && f.start <= f.clock(0)
    && (forall n: nat :: f.clock(n) <= f.clock(n + 1))
    && (forall n: nat, reg | reg != {} && f.ready(n, reg) == [] ::
          f.clock(n + 1) - f.clock(n) >= Min(timeout - (f.clock(n) - f.start), POLL))
  }

  predicate ReportsRegistered(ready: seq<Stream>, reg: set<Stream>) {
    && (forall s | s in ready :: s in reg)
    && (forall i, j | 0 <= i < j < |ready| :: ready[i] != ready[j])
  }

  function Min(x: real, y: real): real {
    if x <= y then x else y
  }

  // Everything the first k reads of a pipe returned, in order.
  function Received(f: Feed, s: Stream, k: nat): Bytes {
    if k == 0 then [] else Received(f, s, k - 1) + f.chunk(s, k - 1)
  }

  // The pipe reports end of file at its k-th read and not before.
  ghost predicate EndsAt(f: Feed, s: Stream, k: nat) {
    f.chunk(s, k) == [] && forall j: nat | j < k :: f.chunk(s, j) != []
  }

  // Polls left before the time limit, rounded up.
  function Polls(remaining: real): nat {
    if remaining <= 0.0 then 0 else (remaining / POLL).Floor + 1
  }

  lemma PollPasses(before: real, after: real)
    requires before > 0.0
    requires after <= before - Min(before, POLL)
    ensures Polls(after) < Polls(before)
  {
    if after > 0.0 {
      assert after / POLL <= before / POLL - 1.0;
    }
  }

  datatype Status = Complete | OutOfTime | TooLong | Broken

  // The buffers, and how many reads filled them.
  datatype Buffers = Buffers(stdout: Bytes, stderr: Bytes, outReads: nat, errReads: nat)

  function Total(b: Buffers): nat {
    |b.stdout| + |b.stderr|
  }

  function Reads(b: Buffers, s: Stream): nat {
    if s == Out then b.outReads else b.errReads
  }

  function Extended(b: Buffers, s: Stream, chunk: Bytes): Buffers {
    if s == Out then b.(stdout := b.stdout + chunk, outReads := b.outReads + 1)
    else b.(stderr := b.stderr + chunk, errReads := b.errReads + 1)
  }

  // Each buffer is exactly what its own pipe delivered; a pipe is registered until
  // its end of file has been read.
  ghost predicate Demultiplexed(f: Feed, b: Buffers, reg: set<Stream>) {
    && b.stdout == Received(f, Out, b.outReads)
    && b.stderr == Received(f, Err, b.errReads)
    && (forall s, j: nat | j < Reads(b, s) :: f.chunk(s, j) != [])
    && (forall s | s !in reg :: EndsAt(f, s, Reads(b, s)))
  }

  lemma DemultiplexedExtend(f: Feed, b: Buffers, reg: set<Stream>, s: Stream)
    requires Demultiplexed(f, b, reg) && s in reg && f.chunk(s, Reads(b, s)) != []
    ensures Demultiplexed(f, Extended(b, s, f.chunk(s, Reads(b, s))), reg)
  {
    var b' := Extended(b, s, f.chunk(s, Reads(b, s)));
    forall t, j: nat | j < Reads(b', t) ensures f.chunk(t, j) != [] {
      if t != s || j < Reads(b, t) {
        assert j < Reads(b, t);
      }
    }
    forall t | t !in reg ensures EndsAt(f, t, Reads(b', t)) {
      assert EndsAt(f, t, Reads(b, t));
    }
  }

  // One batch of the selector. Stops at once when the output becomes too long.
  method ReadBatch(f: Feed, maxBytes: nat, ready: seq<Stream>, b0: Buffers, reg0: set<Stream>)
    returns (b: Buffers, reg: set<Stream>, truncated: bool)
    requires forall s, k: nat :: |f.chunk(s, k)| <= CHUNK
    requires ReportsRegistered(ready, reg0)
    requires Demultiplexed(f, b0, reg0) && Total(b0) <= maxBytes
    ensures Demultiplexed(f, b, reg) && reg <= reg0
    ensures truncated <==> Total(b) > maxBytes
    ensures Total(b) <= maxBytes + CHUNK
    ensures ready != [] ==> reg < reg0 || Total(b) > Total(b0)
    ensures ready == [] ==> reg == reg0 && b == b0
    ensures Total(b) >= Total(b0)
  {
    b, reg, truncated := b0, reg0, false;
    var i := 0;
    while i < |ready|
      invariant i <= |ready|
      invariant Demultiplexed(f, b, reg) && reg <= reg0
      invariant forall k | i <= k < |ready| :: ready[k] in reg
      invariant !truncated && Total(b0) <= Total(b) <= maxBytes
      invariant i == 0 ==> reg == reg0 && b == b0
      invariant i > 0 ==> reg < reg0 || Total(b) > Total(b0)
    {
      var s := ready[i];
      var chunk := f.chunk(s, Reads(b, s));
      if chunk == [] {
        assert EndsAt(f, s, Reads(b, s));
        assert s in reg && s in reg0;
        reg := reg - {s};
        i := i + 1;
        continue;
      }
      DemultiplexedExtend(f, b, reg, s);
      b := Extended(b, s, chunk);
      i := i + 1;
      if Total(b) > maxBytes {
        truncated := true;
        return;
      }
    }
  }

  // The read loop. It ends: every batch closes a pipe, buffers a byte, or uses up a
  // poll of the time that is left.
  method ReadPipes(f: Feed, timeout: real, maxBytes: nat) returns (status: Status, b: Buffers, iterations: nat)
    requires ValidFeed(f, timeout)
    ensures Total(b) <= maxBytes + CHUNK
    ensures b.stdout == Received(f, Out, b.outReads) && b.stderr == Received(f, Err, b.errReads)
    ensures status.TooLong? <==> Total(b) > maxBytes
    ensures status.Complete? ==> EndsAt(f, Out, b.outReads) && EndsAt(f, Err, b.errReads)
    ensures status.OutOfTime? ==> f.clock(iterations) - f.start >= timeout
    ensures !status.OutOfTime? ==> forall n: nat | n < iterations :: f.clock(n) - f.start < timeout
    ensures status.Broken? ==> f.breaks(iterations) && f.clock(iterations) - f.start < timeout
    ensures !status.Broken? ==> forall n: nat | n < iterations :: !f.breaks(n)
  {
    hide Polls, EndsAt;
    b := Buffers([], [], 0, 0);
    var reg := {Out, Err};
    iterations := 0;
    while reg != {}
      invariant Demultiplexed(f, b, reg)
      invariant Total(b) <= maxBytes
      invariant forall n: nat | n < iterations :: f.clock(n) - f.start < timeout && !f.breaks(n)
      decreases |reg|, maxBytes - Total(b), Polls(timeout - (f.clock(iterations) - f.start))
    {
      var remaining := timeout - (f.clock(iterations) - f.start);
      if remaining <= 0.0 {
        return OutOfTime, b, iterations;
      }
      if f.breaks(iterations) {
        return Broken, b, iterations;
      }
      ghost var reg0 := reg;
      var batch := f.ready(iterations, reg);
      assert ReportsRegistered(batch, reg);
      var truncated;
      b, reg, truncated := ReadBatch(f, maxBytes, batch, b, reg);
      if batch == [] {
        PollPasses(remaining, timeout - (f.clock(iterations + 1) - f.start));
      }
      SubsetSize(reg, reg0);
      iterations := iterations + 1;
      if truncated {
        return TooLong, b, iterations;
      }
    }
    return Complete, b, iterations;
  }

  lemma SubsetSize(a: set<Stream>, b: set<Stream>)
    requires a <= b
    ensures |a| <= |b|
    ensures a < b ==> |a| < |b|
  {
    var rest := b - a;
    assert b == a + rest;
    assert |b| == |a| + |rest|;
  }

  lemma {:induction false} SameReceived(f: Feed, g: Feed, s: Stream, k: nat)
    requires forall j: nat | j < k :: f.chunk(s, j) == g.chunk(s, j)
    ensures Received(f, s, k) == Received(g, s, k)
  {
    if k > 0 {
      SameReceived(f, g, s, k - 1);
    }
  }

  // What a pipe delivered up to its end of file depends on that pipe alone: not on the
  // other one, the order of the selector's reports, or the clock.
  lemma DeliveryIndependent(f: Feed, g: Feed, s: Stream, j: nat, k: nat)
    requires forall n: nat :: f.chunk(s, n) == g.chunk(s, n)
    requires EndsAt(f, s, j) && EndsAt(g, s, k)
    ensures j == k && Received(f, s, j) == Received(g, s, k)
  {
    SameReceived(f, g, s, j);
  }

  /* ---------- the process around the loop ---------- */

  // How killing an unreaped process goes: it is reaped with some code, waiting for it times
  // out, or the operating system refuses.
  datatype Kill = Reaps(code: int) | TimesOut | Denied

  class Process {
    var returncode: Option<int>
    var killed: bool

    constructor ()
      ensures returncode == None && !killed
    {
      returncode := None;
      killed := false;
    }

    // Kills the process group unless the process was already reaped. What is reaped then
    // is the code of the killed process, or the one it had already exited with.
    method KillGroup(kill: Kill) returns (fault: Option<Models.Fault>)
      modifies this
      ensures old(returncode.Some?) ==> fault.None? && returncode == old(returncode) && killed == old(killed)
      ensures old(returncode.None?) ==>
                match kill
                case Reaps(code) => fault.None? && killed && returncode == Some(code)
                case TimesOut => fault == Some(ToolTimeout) && killed && returncode.None?
                case Denied => fault == Some(OsError) && killed == old(killed) && returncode.None?
    {
      if returncode.Some? {
        return None;
      }
      if kill.Denied? {
        return Some(OsError);
      }
      killed := true;
      if kill.TimesOut? {
        return Some(ToolTimeout);
      }
      returncode := Some(kill.code);
      return None;
    }
  }

  datatype Answer = Output(stdout: string, stderr: string) | Raises(fault: Fault)

  // How handing the worker its input goes.
  datatype Input = Taken | BrokenPipe | InputError

  // The rest of the world of one run: whether the pipes exist, how they take the input,
  // how waiting for the exited worker goes, and how two attempts to kill it do.
  datatype Ends = Ends(pipes: bool, input: Input, exit: Option<int>, first: Kill, last: Kill)

  function Clip(s: string): string {
    if |s| <= 2048 then s else s[..2048]
  }

  // The part of a run between starting the worker and decoding its output. Every exit,
  // whatever failed, passes the last KillGroup.
  method Run(p: Process, f: Feed, timeout: real, maxBytes: nat, ends: Ends, decode: Bytes -> Option<string>)
    returns (answer: Answer, ghost b: Buffers)
    requires ValidFeed(f, timeout)
    requires p.returncode.None? && !p.killed
    modifies p
    ensures p.killed || p.returncode.Some? || (ends.last.Denied? && answer == Raises(OsError))
    ensures Total(b) <= maxBytes + CHUNK
    ensures answer.Output? ==>
              && p.returncode == Some(0) && !p.killed
              && Total(b) <= maxBytes
              && EndsAt(f, Out, b.outReads) && EndsAt(f, Err, b.errReads)
              && decode(Received(f, Out, b.outReads)) == Some(answer.stdout)
              && decode(Received(f, Err, b.errReads)).Some?
              && answer.stderr == Clip(decode(Received(f, Err, b.errReads)).value)
    ensures answer.Raises? ==> answer.fault in {ToolTimeout, InvalidOutput, ToolExecutionFailed, OsError}
    ensures answer == Raises(OsError) ==>
              || (ends.pipes && (ends.input.InputError? || exists n: nat :: f.breaks(n)))
              || ends.first.Denied? || ends.last.Denied?
    ensures Total(b) > maxBytes && ends.first.Reaps? ==> answer == Raises(InvalidOutput)
  {
    b := Buffers([], [], 0, 0);
    var early := None;
    var timedOut, truncated := false, false;
    var stdout: Bytes, stderr: Bytes := [], [];
    if !ends.pipes || ends.input.BrokenPipe? {
      early := Some(ToolExecutionFailed);
    } else if ends.input.InputError? {
      early := Some(OsError);
    } else {
      var status, buffers, n := ReadPipes(f, timeout, maxBytes);
      b := buffers;
      stdout, stderr := buffers.stdout, buffers.stderr;
      timedOut, truncated := status.OutOfTime?, status.TooLong?;
      if status.Broken? {
        early := Some(OsError);
      } else if timedOut || truncated {
        early := p.KillGroup(ends.first);
      } else if ends.exit.Some? {
        p.returncode := ends.exit;
      } else {
        timedOut := true;
        early := p.KillGroup(ends.first);
      }
    }
    var failed := p.KillGroup(ends.last);
    if failed.Some? {
      return Raises(failed.value), b;
    }
    if early.Some? {
      return Raises(early.value), b;
    }
    if timedOut {
      return Raises(ToolTimeout), b;
    }
    if truncated {
      return Raises(InvalidOutput), b;
    }
    if p.returncode != Some(0) {
      return Raises(ToolExecutionFailed), b;
    }
    var out, err := decode(stdout), decode(stderr);
    if out.None? || err.None? {
      return Raises(InvalidOutput), b;
    }
    return Output(out.value, Clip(err.value)), b;
  }
}
