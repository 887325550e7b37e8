// The hash-chained audit table: appending, verifying, locating corruption, and
// exporting the valid prefix.
//
// The digest function is a parameter about which only one thing is known: its
// results are 64 characters long. Nothing below assumes it to be injective (it
// cannot be), so tamper evidence is stated by extraction: from two tables that
// should not both exist, a lemma computes two different inputs with one digest.
module AuditChain {

  function Zeros(n: nat): string {
    seq(n, i => '0')
  }

  // A hexadecimal SHA-256 digest.
  type Digest = s: string | |s| == 64 witness Zeros(64)

  type Hash = string -> Digest

  // The predecessor recorded by the first row.
  const GENESIS: Digest := Zeros(64)

  // One row of audit_events. The two hash columns are plain strings: a row read
  // back from disk may hold anything.
  datatype Row = Row(sequence: nat, eventId: string, data: string, prevHash: string, eventHash: string)

  type Table = seq<Row>

  function Preimage(prev: string, data: string): string {
    prev + "\n" + data
  }

  // The digest the next row has to name as its predecessor.
  function Head(rows: Table): string {
    if rows == [] then GENESIS else rows[|rows| - 1].eventHash
  }

  function NextSequence(rows: Table): nat {
    if rows == [] then 1 else rows[|rows| - 1].sequence + 1
  }

  function NewRow(hash: Hash, rows: Table, eventId: string, data: string): Row {
    Row(NextSequence(rows), eventId, data, Head(rows), hash(Preimage(Head(rows), data)))
  }

  function Append(hash: Hash, rows: Table, eventId: string, data: string): Table {
    rows + [NewRow(hash, rows, eventId, data)]
  }

  // Row i names the digest stored in row i-1 and stores its own digest.
  predicate Linked(hash: Hash, rows: Table, i: nat)
    requires i < |rows|
  {
    && rows[i].prevHash == Head(rows[..i])
    && rows[i].eventHash == hash(Preimage(rows[i].prevHash, rows[i].data))
  }

  ghost predicate LinkedTo(hash: Hash, rows: Table, k: nat)
    requires k <= |rows|
  {
    forall i | 0 <= i < k :: Linked(hash, rows, i)
  }

  // The table verifies: every row is linked.
  ghost predicate Verifies(hash: Hash, rows: Table) {
    LinkedTo(hash, rows, |rows|)
  }

  function DataOf(rows: Table): seq<string> {
    seq(|rows|, i requires 0 <= i < |rows| => rows[i].data)
  }

  /* ---------- verification ---------- */

  // The verifier recomputes each digest from the digest it computed for the row
  // before, never from a stored one; the contract speaks of stored columns only.
  method VerifyAudit(hash: Hash, rows: Table) returns (valid: bool, count: nat)
    ensures valid <==> Verifies(hash, rows)
    ensures count <= |rows| && LinkedTo(hash, rows, count)
    ensures valid ==> count == |rows|
    ensures !valid ==> count < |rows| && !Linked(hash, rows, count)
  {
    count := 0;
    var prev: string := GENESIS;
    while count < |rows|
      invariant count <= |rows|
      invariant LinkedTo(hash, rows, count)
      invariant prev == Head(rows[..count])
    {
      var row := rows[count];
      var digest := hash(Preimage(prev, row.data));
      if prev != row.prevHash || digest != row.eventHash {
        assert !Linked(hash, rows, count);
        return false, count;
      }
      prev := digest;
      count := count + 1;
    }
    assert rows[..count] == rows;
    return true, count;
  }

  lemma LinkedStable(hash: Hash, rows: Table, more: Table, i: nat)
    requires i < |rows|
    ensures Linked(hash, rows + more, i) <==> Linked(hash, rows, i)
  {
    assert (rows + more)[..i] == rows[..i];
  }

  lemma AppendVerifies(hash: Hash, rows: Table, eventId: string, data: string)
    requires Verifies(hash, rows)
    ensures Verifies(hash, Append(hash, rows, eventId, data))
  {
    var row := NewRow(hash, rows, eventId, data);
    forall i | 0 <= i < |rows| + 1
      ensures Linked(hash, rows + [row], i)
    {
      if i < |rows| {
        LinkedStable(hash, rows, [row], i);
      } else {
        assert (rows + [row])[..i] == rows;
      }
    }
  }

  function AppendAll(hash: Hash, events: seq<(string, string)>): Table {
    if events == [] then []
    else
      var (eventId, data) := events[|events| - 1];
      Append(hash, AppendAll(hash, events[..|events| - 1]), eventId, data)
  }

  // A table built by appends alone verifies, has one row per append and holds the
  // appended data in order.
  lemma {:induction false} AppendsVerify(hash: Hash, events: seq<(string, string)>)
    ensures Verifies(hash, AppendAll(hash, events))
    ensures |AppendAll(hash, events)| == |events|
    ensures forall i | 0 <= i < |events| :: AppendAll(hash, events)[i].data == events[i].1
  {
    if events != [] {
      var front := events[..|events| - 1];
      var (eventId, data) := events[|events| - 1];
      AppendsVerify(hash, front);
      AppendVerifies(hash, AppendAll(hash, front), eventId, data);
    }
  }

  /* ---------- tamper evidence ---------- */

  datatype Extracted =
    | Same
    | Collision(x: string, y: string)
    | ZeroPreimage(z: string)

  // The separator splits uniquely because the predecessor is a digest.
  lemma PreimageInjective(p: string, d: string, q: string, e: string)
    requires |p| == 64 && |q| == 64
    requires Preimage(p, d) == Preimage(q, e)
    ensures p == q && d == e
  {
    assert Preimage(p, d)[..64] == p && Preimage(p, d)[65..] == d;
    assert Preimage(q, e)[..64] == q && Preimage(q, e)[65..] == e;
  }

  lemma HeadIsDigest(hash: Hash, rows: Table)
    requires Verifies(hash, rows)
    ensures |Head(rows)| == 64
  {
    if rows != [] {
      assert Linked(hash, rows, |rows| - 1);
    }
  }

  lemma PrefixVerifies(hash: Hash, rows: Table, k: nat)
    requires Verifies(hash, rows) && k <= |rows|
    ensures Verifies(hash, rows[..k])
  {
    forall i | 0 <= i < k ensures Linked(hash, rows[..k], i) {
      assert Linked(hash, rows, i);
      assert rows[..k][..i] == rows[..i];
    }
  }

  // Two verifying tables with one head hold the same data, or a collision is
  // produced, or (only when the lengths differ) a preimage of 64 zeros is.
  lemma {:induction false} TamperEvident(hash: Hash, a: Table, b: Table) returns (found: Extracted)
    requires Verifies(hash, a) && Verifies(hash, b)
    requires Head(a) == Head(b)
    ensures found.Same? <==> DataOf(a) == DataOf(b)
    ensures found.Collision? ==> found.x != found.y && hash(found.x) == hash(found.y)
    ensures found.ZeroPreimage? ==> |a| != |b| && hash(found.z) == GENESIS
    decreases |a|
  {
    if a == [] && b == [] {
      return Same;
    }
    if a == [] || b == [] {
      var rows := if a == [] then b else a;
      var last := |rows| - 1;
      assert Linked(hash, rows, last);
      assert |DataOf(a)| == |a| && |DataOf(b)| == |b|;
      return ZeroPreimage(Preimage(rows[last].prevHash, rows[last].data));
    }
    var m, n := |a| - 1, |b| - 1;
    var x, y := Preimage(a[m].prevHash, a[m].data), Preimage(b[n].prevHash, b[n].data);
    assert Linked(hash, a, m) && Linked(hash, b, n);
    PrefixVerifies(hash, a, m);
    PrefixVerifies(hash, b, n);
    HeadIsDigest(hash, a[..m]);
    HeadIsDigest(hash, b[..n]);
    if x != y {
      if DataOf(a) == DataOf(b) {
        return Same;
      }
      return Collision(x, y);
    }
    PreimageInjective(a[m].prevHash, a[m].data, b[n].prevHash, b[n].data);
    found := TamperEvident(hash, a[..m], b[..n]);
    assert DataOf(a) == DataOf(a[..m]) + [a[m].data];
    assert DataOf(b) == DataOf(b[..n]) + [b[n].data];
    if DataOf(a) == DataOf(b) {
      assert DataOf(a[..m]) == DataOf(a)[..m] && DataOf(b[..n]) == DataOf(b)[..n];
    }
  }

  /* ---------- locating corruption ---------- */

  datatype CorruptionReport =
    | Intact(validPrefix: nat)
    | CorruptAt(validPrefix: nat, firstCorruptedSequence: nat)
    | UnknownCorruption(validPrefix: nat)

  // The detector reads the table twice: once inside the verifier and once for its
  // own walk. Another process may write in between, so the two reads are separate
  // arguments. The last branch is taken exactly when the first read is corrupt and
  // the second is not.
  method DetectCorruption(hash: Hash, first: Table, second: Table) returns (report: CorruptionReport)
    ensures report.Intact? <==> Verifies(hash, first)
    ensures report.Intact? ==> report.validPrefix == |first|
    ensures report.UnknownCorruption? <==> !Verifies(hash, first) && Verifies(hash, second)
    ensures report.CorruptAt? ==>
              && report.validPrefix < |second|
              && LinkedTo(hash, second, report.validPrefix)
              && !Linked(hash, second, report.validPrefix)
              && report.firstCorruptedSequence == second[report.validPrefix].sequence
    ensures report.UnknownCorruption? ==>
              && report.validPrefix < |first|
              && LinkedTo(hash, first, report.validPrefix)
              && !Linked(hash, first, report.validPrefix)
  {
    var valid, count := VerifyAudit(hash, first);
    if valid {
      return Intact(count);
    }
    var prev: string := GENESIS;
    var idx := 0;
    while idx < |second|
      invariant idx <= |second|
      invariant LinkedTo(hash, second, idx)
      invariant prev == Head(second[..idx])
    {
      var row := second[idx];
      var expected := hash(Preimage(prev, row.data));
      if prev != row.prevHash || expected != row.eventHash {
        assert !Linked(hash, second, idx);
        return CorruptAt(idx, row.sequence);
      }
      prev := expected;
      idx := idx + 1;
    }
    return UnknownCorruption(count);
  }

  // At most one row is the first unlinked one, so over one snapshot the verifier
  // and the detector name the same row.
  lemma FirstBreakUnique(hash: Hash, rows: Table, j: nat, k: nat)
    requires j < |rows| && LinkedTo(hash, rows, j) && !Linked(hash, rows, j)
    requires k < |rows| && LinkedTo(hash, rows, k) && !Linked(hash, rows, k)
    ensures j == k
  {
  }

  // The prefix before the first unlinked row is the longest prefix that verifies.
  lemma LongestValidPrefix(hash: Hash, rows: Table, k: nat, n: nat)
    requires k < |rows| && LinkedTo(hash, rows, k) && !Linked(hash, rows, k)
    requires n <= |rows|
    ensures Verifies(hash, rows[..n]) <==> n <= k
  {
    forall i | 0 <= i < n
      ensures Linked(hash, rows[..n], i) <==> Linked(hash, rows, i)
    {
      assert rows[..n][..i] == rows[..i];
    }
    if n > k {
      assert !Linked(hash, rows[..n], k);
    }
  }

  // The verifier and the detector, run over one snapshot.
  method Localise(hash: Hash, rows: Table) returns (valid: bool, count: nat, report: CorruptionReport)
    ensures valid ==> report == Intact(count) && count == |rows|
    ensures !valid ==> count < |rows| && report == CorruptAt(count, rows[count].sequence)
    ensures forall n | 0 <= n <= |rows| :: Verifies(hash, rows[..n]) <==> n <= count
  {
    valid, count := VerifyAudit(hash, rows);
    report := DetectCorruption(hash, rows, rows);
    if valid {
      forall n | 0 <= n <= |rows| ensures Verifies(hash, rows[..n]) {
        PrefixVerifies(hash, rows, n);
      }
    } else {
      FirstBreakUnique(hash, rows, count, report.validPrefix);
      LongestValidPrefixes(hash, rows, count);
    }
  }

  datatype Recovery = NotNeeded(validPrefix: nat) | Recovered(validPrefix: nat, events: seq<string>)

  // Recovery reads the table three times: twice in the detector, and once more for the
  // rows it exports. It declines exactly when the first read verifies, and otherwise
  // exports as many rows of the third read as the detector found valid, or all there are.
  method PartialRecovery(hash: Hash, first: Table, second: Table, third: Table) returns (r: Recovery)
    ensures r.NotNeeded? <==> Verifies(hash, first)
    ensures r.NotNeeded? ==> r.validPrefix == |first|
    ensures r.Recovered? && !Verifies(hash, second) ==>
              r.validPrefix < |second| && forall n | 0 <= n <= |second| :: Verifies(hash, second[..n]) <==> n <= r.validPrefix
    ensures r.Recovered? && Verifies(hash, second) ==>
              r.validPrefix < |first| && forall n | 0 <= n <= |first| :: Verifies(hash, first[..n]) <==> n <= r.validPrefix
    ensures r.Recovered? ==>
              r.events == DataOf(if r.validPrefix <= |third| then third[..r.validPrefix] else third)
  {
    var report := DetectCorruption(hash, first, second);
    if report.Intact? {
      return NotNeeded(report.validPrefix);
    }
    var k := report.validPrefix;
    LongestValidPrefixes(hash, if report.CorruptAt? then second else first, k);
    return Recovered(k, DataOf(if k <= |third| then third[..k] else third));
  }

  lemma LongestValidPrefixes(hash: Hash, rows: Table, k: nat)
    requires k < |rows| && LinkedTo(hash, rows, k) && !Linked(hash, rows, k)
    ensures forall n | 0 <= n <= |rows| :: Verifies(hash, rows[..n]) <==> n <= k
  {
    forall n | 0 <= n <= |rows| ensures Verifies(hash, rows[..n]) <==> n <= k {
      LongestValidPrefix(hash, rows, k, n);
    }
  }

  // Over one snapshot, and over a table that only grew since, recovery exports the data
  // of exactly the longest prefix that verifies.
  method RecoverSnapshot(hash: Hash, rows: Table, more: Table) returns (r: Recovery)
    ensures r.NotNeeded? <==> Verifies(hash, rows)
    ensures r.Recovered? ==>
              && r.validPrefix < |rows|
              && (forall n | 0 <= n <= |rows| :: Verifies(hash, rows[..n]) <==> n <= r.validPrefix)
              && r.events == DataOf(rows[..r.validPrefix])
  {
    r := PartialRecovery(hash, rows, rows + more, rows + more);
    if !Verifies(hash, rows) {
      BrokenStays(hash, rows, more);
      if r.Recovered? {
        PrefixesAgree(hash, rows, more, r.validPrefix);
        assert (rows + more)[..r.validPrefix] == rows[..r.validPrefix];
      }
    }
  }

  lemma BrokenStays(hash: Hash, rows: Table, more: Table)
    requires !Verifies(hash, rows)
    ensures !Verifies(hash, rows + more)
  {
    assert (rows + more)[..|rows|] == rows;
    if Verifies(hash, rows + more) {
      PrefixVerifies(hash, rows + more, |rows|);
    }
  }

  lemma PrefixesAgree(hash: Hash, rows: Table, more: Table, k: nat)
    requires !Verifies(hash, rows) && k < |rows + more|
    requires forall n | 0 <= n <= |rows + more| :: Verifies(hash, (rows + more)[..n]) <==> n <= k
    ensures k < |rows| && forall n | 0 <= n <= |rows| :: Verifies(hash, rows[..n]) <==> n <= k
  {
    assert (rows + more)[..|rows|] == rows == rows[..|rows|];
    assert !Verifies(hash, (rows + more)[..|rows|]);
    forall n | 0 <= n <= |rows| ensures Verifies(hash, rows[..n]) <==> n <= k {
      assert (rows + more)[..n] == rows[..n];
    }
  }
}
