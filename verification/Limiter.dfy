// The sliding-window rate limiter and the lease table, kept small by pruning, and
// the unbounded history they stand for.
//
// Times are reals. A call exactly 60 seconds old still counts and a lease that
// expires at this very moment is still live: both prunings use a strict <.
module Limiter {

  datatype Call = Call(principal: string, tool: string, target: string, at: real)

  datatype Lease = Lease(id: string, principal: string, tool: string, target: string, expires: real)

  datatype Limits = Limits(perMinute: int, globalPerMinute: int, maxConcurrent: int)

  datatype Request = Request(
    leaseId: string, principal: string, tool: string, target: string, limits: Limits, timeout: real)

  // The two tables. The pruned tables and the full history have the same shape.
  datatype Tables = Tables(calls: seq<Call>, leases: seq<Lease>)

  // IdTaken is the primary-key violation of active_leases.
  datatype Verdict = Admitted | RateLimited | IdTaken

  const WINDOW := 60.0
  const GRACE := 5.0

  /* ---------- selecting rows ---------- */

  function Select<T>(s: seq<T>, p: T -> bool): (r: seq<T>)
    ensures |r| <= |s|
  {
    if s == [] then []
    else
      var front := Select(s[..|s| - 1], p);
      var last := s[|s| - 1];
      if p(last) then front + [last] else front
  }

  lemma {:induction false} SelectMembers<T>(s: seq<T>, p: T -> bool)
    ensures forall x :: x in Select(s, p) <==> x in s && p(x)
  {
    if s != [] {
      SelectMembers(s[..|s| - 1], p);
      assert s == s[..|s| - 1] + [s[|s| - 1]];
    }
  }

  lemma SelectSnoc<T>(s: seq<T>, x: T, p: T -> bool)
    ensures Select(s + [x], p) == Select(s, p) + (if p(x) then [x] else [])
  {
    assert (s + [x])[..|s|] == s;
  }

  // Selecting twice is selecting by the stricter test.
  lemma {:induction false} SelectTwice<T>(s: seq<T>, p: T -> bool, q: T -> bool)
    requires forall x | x in s && q(x) :: p(x)
    ensures Select(Select(s, p), q) == Select(s, q)
  {
    if s != [] {
      var front, last := s[..|s| - 1], s[|s| - 1];
      assert s == front + [last];
      SelectTwice(front, p, q);
      if p(last) {
        SelectSnoc(Select(front, p), last, q);
      }
    }
  }

  lemma {:induction false} SelectSame<T>(s: seq<T>, p: T -> bool, q: T -> bool)
    requires forall x | x in s :: p(x) == q(x)
    ensures Select(s, p) == Select(s, q)
  {
    if s != [] {
      var front, last := s[..|s| - 1], s[|s| - 1];
      assert s == front + [last];
      SelectSame(front, p, q);
    }
  }

  lemma {:induction false} SelectNone<T>(s: seq<T>, p: T -> bool)
    requires forall x | x in s :: !p(x)
    ensures Select(s, p) == []
  {
    if s != [] {
      assert s[|s| - 1] in s;
      SelectNone(s[..|s| - 1], p);
    }
  }

  function Since(calls: seq<Call>, t: real): seq<Call> {
    Select(calls, (c: Call) => c.at >= t - WINDOW)
  }

  function Live(leases: seq<Lease>, t: real): seq<Lease> {
    Select(leases, (l: Lease) => l.expires >= t)
  }

  function SameTriple(calls: seq<Call>, r: Request): seq<Call> {
    Select(calls, (c: Call) => c.principal == r.principal && c.tool == r.tool && c.target == r.target)
  }

  function SamePrincipal(calls: seq<Call>, r: Request): seq<Call> {
    Select(calls, (c: Call) => c.principal == r.principal)
  }

  function Without(leases: seq<Lease>, id: string): seq<Lease> {
    Select(leases, (l: Lease) => l.id != id)
  }

  function CallOf(r: Request, t: real): Call {
    Call(r.principal, r.tool, r.target, t)
  }

  function LeaseOf(r: Request, t: real): Lease {
    Lease(r.leaseId, r.principal, r.tool, r.target, t + r.timeout + GRACE)
  }

  /* ---------- the transaction ---------- */

  function Prune(tb: Tables, t: real): Tables {
    Tables(Since(tb.calls, t), Live(tb.leases, t))
  }

  // The decision and the insertions, over tables that hold at least what counts at t.
  function Judge(tb: Tables, r: Request): Verdict {
    if |SameTriple(tb.calls, r)| >= r.limits.perMinute
       || |SamePrincipal(tb.calls, r)| >= r.limits.globalPerMinute
       || |tb.leases| >= r.limits.maxConcurrent then RateLimited
    else if exists l | l in tb.leases :: l.id == r.leaseId then IdTaken
    else Admitted
  }

  // One acquire_lease transaction. A rejected call rolls back, so even the pruning
  // it performed is undone.
  function Acquire(tb: Tables, r: Request, t: real): (Verdict, Tables) {
    var pruned := Prune(tb, t);
    var verdict := Judge(pruned, r);
    if verdict == Admitted then
      (verdict, Tables(pruned.calls + [CallOf(r, t)], pruned.leases + [LeaseOf(r, t)]))
    else
      (verdict, tb)
  }

  function Release(tb: Tables, id: string): Tables {
    tb.(leases := Without(tb.leases, id))
  }

  function RecoverLeases(tb: Tables, t: real): Tables {
    tb.(leases := Live(tb.leases, t))
  }

  function RecoverCalls(tb: Tables, t: real): Tables {
    tb.(calls := Since(tb.calls, t))
  }

  /* ---------- the history specification ---------- */

  // What counts at time t in a history from which nothing is ever pruned: calls in
  // the closed window [t - 60, t] and unreleased leases that expire no earlier than t.
  function InForce(h: Tables, t: real): Tables {
    Tables(Select(h.calls, (c: Call) => t - WINDOW <= c.at <= t), Live(h.leases, t))
  }

  function SpecAcquire(h: Tables, r: Request, t: real): (Verdict, Tables) {
    var verdict := Judge(InForce(h, t), r);
    if verdict == Admitted then
      (verdict, Tables(h.calls + [CallOf(r, t)], h.leases + [LeaseOf(r, t)]))
    else
      (verdict, h)
  }

  /* ---------- runs ---------- */

  datatype Event =
    | Ask(request: Request, at: real)
    | Return(leaseId: string)
    | CleanLeases(at: real)
    | CleanCalls(at: real)

  predicate Cleanup(e: Event) {
    e.CleanLeases? || e.CleanCalls?
  }

  function TimeAfter(e: Event, now: real): real {
    if e.Return? then now else e.at
  }

  // The clock never runs backwards.
  predicate Forward(events: seq<Event>, now: real) {
    events == [] || (now <= TimeAfter(events[0], now) && Forward(events[1..], TimeAfter(events[0], now)))
  }

  function Step(tb: Tables, e: Event): Tables {
    match e
    case Ask(r, t) => Acquire(tb, r, t).1
    case Return(id) => Release(tb, id)
    case CleanLeases(t) => RecoverLeases(tb, t)
    case CleanCalls(t) => RecoverCalls(tb, t)
  }

  function SpecStep(h: Tables, e: Event): Tables {
    match e
    case Ask(r, t) => SpecAcquire(h, r, t).1
    case Return(id) => Release(h, id)
    case CleanLeases(_) => h
    case CleanCalls(_) => h
  }

  // The tables after these events.
  function After(tb: Tables, events: seq<Event>): Tables
    decreases events
  {
    if events == [] then tb else After(Step(tb, events[0]), events[1..])
  }

  lemma {:induction false} AfterSnoc(tb: Tables, events: seq<Event>, e: Event)
    ensures After(tb, events + [e]) == Step(After(tb, events), e)
    decreases events
  {
    if events == [] {
      assert [] + [e] == [e];
      assert [e][1..] == [];
    } else {
      assert (events + [e])[1..] == events[1..] + [e];
      AfterSnoc(Step(tb, events[0]), events[1..], e);
    }
  }

  // The verdicts of all acquire calls, in order.
  function Verdicts(tb: Tables, events: seq<Event>): seq<Verdict>
    decreases events
  {
    if events == [] then []
    else
      var e := events[0];
      (if e.Ask? then [Acquire(tb, e.request, e.at).0] else []) + Verdicts(Step(tb, e), events[1..])
  }

  function SpecVerdicts(h: Tables, events: seq<Event>): seq<Verdict>
    decreases events
  {
    if events == [] then []
    else
      var e := events[0];
      (if e.Ask? then [SpecAcquire(h, e.request, e.at).0] else []) + SpecVerdicts(SpecStep(h, e), events[1..])
  }

  // The pruned tables agree with the history on everything that counts from now on.
  predicate Refines(tb: Tables, h: Tables, now: real) {
    && Since(tb.calls, now) == Since(h.calls, now)
    && Live(tb.leases, now) == Live(h.leases, now)
    && (forall c | c in h.calls :: c.at <= now)
  }

  lemma SinceSince(calls: seq<Call>, now: real, t: real)
    requires now <= t
    ensures Since(Since(calls, now), t) == Since(calls, t)
  {
    SelectTwice(calls, (c: Call) => c.at >= now - WINDOW, (c: Call) => c.at >= t - WINDOW);
  }

  lemma LiveLive(leases: seq<Lease>, now: real, t: real)
    requires now <= t
    ensures Live(Live(leases, now), t) == Live(leases, t)
  {
    SelectTwice(leases, (l: Lease) => l.expires >= now, (l: Lease) => l.expires >= t);
  }

  lemma RefinesLater(tb: Tables, h: Tables, now: real, t: real)
    requires Refines(tb, h, now) && now <= t
    ensures Refines(tb, h, t)
  {
    SinceSince(tb.calls, now, t);
    SinceSince(h.calls, now, t);
    LiveLive(tb.leases, now, t);
    LiveLive(h.leases, now, t);
  }

  // At one moment, both forms see the same rows.
  lemma SameInForce(tb: Tables, h: Tables, t: real)
    requires Refines(tb, h, t)
    ensures Prune(tb, t) == InForce(h, t)
  {
    SelectSame(h.calls, (c: Call) => c.at >= t - WINDOW, (c: Call) => t - WINDOW <= c.at <= t);
  }

  lemma AdmittedRefines(tb: Tables, h: Tables, r: Request, t: real)
    requires Refines(tb, h, t)
    ensures Refines(Tables(Prune(tb, t).calls + [CallOf(r, t)], Prune(tb, t).leases + [LeaseOf(r, t)]),
                    Tables(h.calls + [CallOf(r, t)], h.leases + [LeaseOf(r, t)]), t)
  {
    SinceSince(tb.calls, t, t);
    LiveLive(tb.leases, t, t);
    SelectSnoc(Prune(tb, t).calls, CallOf(r, t), (c: Call) => c.at >= t - WINDOW);
    SelectSnoc(h.calls, CallOf(r, t), (c: Call) => c.at >= t - WINDOW);
    SelectSnoc(Prune(tb, t).leases, LeaseOf(r, t), (l: Lease) => l.expires >= t);
    SelectSnoc(h.leases, LeaseOf(r, t), (l: Lease) => l.expires >= t);
  }

  lemma AcquireRefines(tb: Tables, h: Tables, r: Request, t: real)
    requires Refines(tb, h, t)
    ensures Acquire(tb, r, t).0 == SpecAcquire(h, r, t).0
    ensures Refines(Acquire(tb, r, t).1, SpecAcquire(h, r, t).1, t)
  {
    hide Refines, Prune, InForce, Judge;
    SameInForce(tb, h, t);
    AdmittedRefines(tb, h, r, t);
  }

  // Deleting by id and deleting the expired commute.
  lemma {:induction false} LiveWithout(leases: seq<Lease>, id: string, t: real)
    ensures Live(Without(leases, id), t) == Without(Live(leases, t), id)
  {
    if leases != [] {
      var front, last := leases[..|leases| - 1], leases[|leases| - 1];
      assert leases == front + [last];
      LiveWithout(front, id, t);
      if last.id != id {
        SelectSnoc(Without(front, id), last, (l: Lease) => l.expires >= t);
      }
      if last.expires >= t {
        SelectSnoc(Live(front, t), last, (l: Lease) => l.id != id);
      }
    }
  }

  lemma StepRefines(tb: Tables, h: Tables, e: Event, now: real)
    requires Refines(tb, h, now) && now <= TimeAfter(e, now)
    ensures Refines(Step(tb, e), SpecStep(h, e), TimeAfter(e, now))
  {
    RefinesLater(tb, h, now, TimeAfter(e, now));
    match e {
      case Ask(r, t) => AcquireRefines(tb, h, r, t);
      case Return(id) =>
        LiveWithout(tb.leases, id, now);
        LiveWithout(h.leases, id, now);
      case CleanLeases(t) => LiveLive(tb.leases, t, t);
      case CleanCalls(t) => SinceSince(tb.calls, t, t);
    }
  }

  // Over every run with a forward clock, the pruned tables decide exactly like the
  // unbounded history, whatever cleanups happen in between.
  lemma {:induction false} PrunedRefinesHistory(tb: Tables, h: Tables, events: seq<Event>, now: real)
    requires Refines(tb, h, now) && Forward(events, now)
    ensures Verdicts(tb, events) == SpecVerdicts(h, events)
    decreases events
  {
    if events != [] {
      var e := events[0];
      var later := TimeAfter(e, now);
      if e.Ask? {
        RefinesLater(tb, h, now, e.at);
        AcquireRefines(tb, h, e.request, e.at);
      }
      StepRefines(tb, h, e, now);
      PrunedRefinesHistory(Step(tb, e), SpecStep(h, e), events[1..], later);
    }
  }

  /* ---------- recovery is stuttering ---------- */

  function DropCleanups(events: seq<Event>): seq<Event> {
    if events == [] then []
    else (if Cleanup(events[0]) then [] else [events[0]]) + DropCleanups(events[1..])
  }

  lemma {:induction false} SpecIgnoresCleanups(h: Tables, events: seq<Event>)
    ensures SpecVerdicts(h, events) == SpecVerdicts(h, DropCleanups(events))
    decreases events
  {
    if events != [] {
      var rest := DropCleanups(events[1..]);
      SpecIgnoresCleanups(SpecStep(h, events[0]), events[1..]);
      if !Cleanup(events[0]) {
        assert DropCleanups(events)[0] == events[0] && DropCleanups(events)[1..] == rest;
      } else {
        assert DropCleanups(events) == rest;
      }
    }
  }

  // Two runs that differ only in where lease and rate-call cleanups were inserted
  // give every acquire call the same verdict.
  lemma {:induction false} CleanupsInvisible(tb: Tables, one: seq<Event>, two: seq<Event>, now: real)
    requires forall c | c in tb.calls :: c.at <= now
    requires Forward(one, now) && Forward(two, now)
    requires DropCleanups(one) == DropCleanups(two)
    ensures Verdicts(tb, one) == Verdicts(tb, two)
  {
    PrunedRefinesHistory(tb, tb, one, now);
    PrunedRefinesHistory(tb, tb, two, now);
    SpecIgnoresCleanups(tb, one);
    SpecIgnoresCleanups(tb, two);
  }

  // One call in the window meets a limit of one.
  lemma OneCallCounts(c: Call, r: Request, t: real)
    requires t - WINDOW <= c.at <= t && r.limits.perMinute <= 1
    requires c.principal == r.principal && c.tool == r.tool && c.target == r.target
    ensures SpecAcquire(Tables([c], []), r, t).0 == RateLimited
  {
    SelectSnoc([], c, (d: Call) => t - WINDOW <= d.at <= t);
    SelectSnoc([], c, (d: Call) => d.principal == r.principal && d.tool == r.tool && d.target == r.target);
    assert [] + [c] == [c];
    assert InForce(Tables([c], []), t).calls == [c];
  }

  /* ---------- rate bound over every window ---------- */

  // An admitted call with the limits it was admitted under.
  datatype Admission = Admission(request: Request, at: real)

  // What one event adds to the log of admissions.
  function Entry(tb: Tables, e: Event): seq<Admission> {
    if e.Ask? && Acquire(tb, e.request, e.at).0 == Admitted then [Admission(e.request, e.at)] else []
  }

  function Admissions(tb: Tables, events: seq<Event>): seq<Admission>
    decreases events
  {
    if events == [] then []
    else
      Entry(tb, events[0]) + Admissions(Step(tb, events[0]), events[1..])
  }

  lemma {:induction false} AdmissionsSnoc(tb: Tables, events: seq<Event>, e: Event)
    ensures Admissions(tb, events + [e]) == Admissions(tb, events) + Entry(After(tb, events), e)
    decreases events
  {
    if events == [] {
      assert [] + [e] == [e];
      assert [e][1..] == [];
    } else {
      assert (events + [e])[1..] == events[1..] + [e];
      AdmissionsSnoc(Step(tb, events[0]), events[1..], e);
    }
  }

  // Later events add to the log.
  lemma {:induction false} AdmissionsGrow(tb: Tables, events: seq<Event>, n: nat)
    requires n <= |events|
    ensures Admissions(tb, events[..n]) <= Admissions(tb, events)
    decreases |events| - n
  {
    hide Admissions, Entry, After;
    if n == |events| {
      assert events[..n] == events;
    } else {
      AdmissionsGrow(tb, events, n + 1);
      assert events[..n + 1] == events[..n] + [events[n]];
      AdmissionsSnoc(tb, events[..n], events[n]);
    }
  }

  // Where in the log the admission by event n is.
  function Position(tb: Tables, events: seq<Event>, n: nat): nat
    requires n < |events|
  {
    |Admissions(tb, events[..n])|
  }

  lemma AdmittedAt(tb: Tables, events: seq<Event>, n: nat)
    requires n < |events| && Entry(After(tb, events[..n]), events[n]) != []
    ensures Position(tb, events, n) < |Admissions(tb, events)|
    ensures Admissions(tb, events)[Position(tb, events, n)] == Admission(events[n].request, events[n].at)
  {
    hide Admissions, After, Acquire;
    assert events[..n + 1] == events[..n] + [events[n]];
    AdmissionsSnoc(tb, events[..n], events[n]);
    AdmissionsGrow(tb, events, n + 1);
  }

  // Distinct positions of matching entries are no more than the matching entries.
  lemma {:induction false} PositionsCounted(log: seq<Admission>, m: Admission -> bool, positions: set<nat>)
    requires forall p | p in positions :: p < |log| && m(log[p])
    ensures |positions| <= |Select(log, m)|
  {
    if log == [] {
      assert positions == {};
    } else {
      var last := |log| - 1;
      var rest := positions - {last};
      forall p | p in rest ensures p < last && m(log[..last][p]) {
      }
      PositionsCounted(log[..last], m, rest);
      assert positions <= rest + {last};
      if last in positions {
        assert positions == rest + {last};
      } else {
        assert positions == rest;
      }
    }
  }

  function Calls(log: seq<Admission>): seq<Call> {
    seq(|log|, i requires 0 <= i < |log| => CallOf(log[i].request, log[i].at))
  }

  predicate SamePair(a: Admission, b: Admission) {
    a.request.principal == b.request.principal && a.request.tool == b.request.tool
    && a.request.target == b.request.target
  }

  // The admissions up to and including j of j's triple made at time a or later.
  function Burst(log: seq<Admission>, j: nat, a: real): seq<Admission>
    requires j < |log|
  {
    Select(log[..j + 1], (x: Admission) => SamePair(x, log[j]) && a <= x.at)
  }

  function PrincipalBurst(log: seq<Admission>, j: nat, a: real): seq<Admission>
    requires j < |log|
  {
    Select(log[..j + 1], (x: Admission) => x.request.principal == log[j].request.principal && a <= x.at)
  }

  // Admission j keeps to its own limits: from a on, its triple and its principal have no
  // more admissions up to it than it was admitted under.
  predicate KeptAt(log: seq<Admission>, j: nat, a: real)
    requires j < |log|
  {
    && |Burst(log, j, a)| <= log[j].request.limits.perMinute
    && |PrincipalBurst(log, j, a)| <= log[j].request.limits.globalPerMinute
  }

  // Every admission does so in every closed window of this length.
  ghost predicate Capped(log: seq<Admission>, length: real) {
    forall j, a | 0 <= j < |log| && a <= log[j].at <= a + length :: KeptAt(log, j, a)
  }

  lemma {:induction false} CountMapped(log: seq<Admission>, p: Call -> bool, q: Call -> bool, m: Admission -> bool)
    requires forall x | x in log && m(x) :: p(CallOf(x.request, x.at)) && q(CallOf(x.request, x.at))
    ensures |Select(log, m)| <= |Select(Select(Calls(log), p), q)|
  {
    if log != [] {
      var front, last := log[..|log| - 1], log[|log| - 1];
      var c := CallOf(last.request, last.at);
      assert log == front + [last];
      assert Calls(log) == Calls(front) + [c];
      CountMapped(front, p, q, m);
      SelectSnoc(Calls(front), c, p);
      if p(c) {
        SelectSnoc(Select(Calls(front), p), c, q);
      }
    }
  }

  lemma {:induction false} SelectFewer<T>(s: seq<T>, p: T -> bool, q: T -> bool)
    ensures |Select(Select(s, p), q)| <= |Select(s, q)|
  {
    if s != [] {
      var front, last := s[..|s| - 1], s[|s| - 1];
      assert s == front + [last];
      SelectFewer(front, p, q);
      if p(last) {
        SelectSnoc(Select(front, p), last, q);
      }
    }
  }

  // The tables still hold every admission of the minute before the latest stamp.
  ghost predicate Remembers(tb: Tables, log: seq<Admission>, top: real) {
    Since(tb.calls, top) == Since(Calls(log), top)
  }

  lemma RemembersLater(tb: Tables, log: seq<Admission>, top: real, later: real)
    requires Remembers(tb, log, top) && top <= later
    ensures Remembers(tb, log, later)
  {
    SinceSince(tb.calls, top, later);
    SinceSince(Calls(log), top, later);
  }

  // Nothing stamped a or later has been pruned, neither before nor by an acquire at t.
  lemma NothingForgotten(tb: Tables, log: seq<Admission>, top: real, t: real, a: real)
    requires Remembers(tb, log, top) && t <= top && top - WINDOW <= a
    ensures Select(Calls(log), (c: Call) => c.at >= a) == Select(Since(tb.calls, t), (c: Call) => c.at >= a)
  {
    SinceSince(tb.calls, t, top);
    SelectTwice(Calls(log), (c: Call) => c.at >= top - WINDOW, (c: Call) => c.at >= a);
    SelectTwice(Since(tb.calls, t), (c: Call) => c.at >= top - WINDOW, (c: Call) => c.at >= a);
  }

  // An admission stamped t counted every call of the window that ends with it.
  lemma AdmissionKept(tb: Tables, log: seq<Admission>, r: Request, t: real, top: real, a: real)
    requires Remembers(tb, log, top) && t <= top && top - WINDOW <= a <= t
    requires Acquire(tb, r, t).0 == Admitted
    ensures KeptAt(log + [Admission(r, t)], |log|, a)
  {
    var longer := log + [Admission(r, t)];
    assert longer[..|log| + 1] == longer;
    NothingForgotten(tb, log, top, t, a);
    var recent := (c: Call) => c.at >= a;
    var pair := (c: Call) => c.principal == r.principal && c.tool == r.tool && c.target == r.target;
    var near := (x: Admission) => SamePair(x, longer[|log|]) && a <= x.at;
    CountMapped(log, recent, pair, near);
    SelectFewer(Since(tb.calls, t), recent, pair);
    SelectSnoc(log, longer[|log|], near);
    var same := (c: Call) => c.principal == r.principal;
    var mine := (x: Admission) => x.request.principal == longer[|log|].request.principal && a <= x.at;
    CountMapped(log, recent, same, mine);
    SelectFewer(Since(tb.calls, t), recent, same);
    SelectSnoc(log, longer[|log|], mine);
  }

  lemma KeptStays(log: seq<Admission>, next: Admission, j: nat, a: real)
    requires j < |log| && KeptAt(log, j, a)
    ensures KeptAt(log + [next], j, a)
  {
    assert (log + [next])[..j + 1] == log[..j + 1];
  }

  // The latest stamp so far.
  function Latest(e: Event, top: real): real {
    if e.Return? || e.at <= top then top else e.at
  }

  // No stamp is more than this much before the latest one committed before it.
  predicate Skewed(events: seq<Event>, top: real, skew: real)
    decreases events
  {
    events == []
    || ((!events[0].Return? ==> top - skew <= events[0].at) && Skewed(events[1..], Latest(events[0], top), skew))
  }

  lemma RemembersStep(tb: Tables, log: seq<Admission>, e: Event, top: real)
    requires Remembers(tb, log, top)
    ensures Remembers(Step(tb, e), log + Entry(tb, e), Latest(e, top))
  {
    var later := Latest(e, top);
    RemembersLater(tb, log, top, later);
    if e.Ask? || e.CleanCalls? {
      SinceSince(tb.calls, e.at, later);
    }
    if Entry(tb, e) == [] {
      assert log + [] == log;
    } else {
      var c := CallOf(e.request, e.at);
      assert Calls(log + Entry(tb, e)) == Calls(log) + [c];
      SelectSnoc(Calls(log), c, (c: Call) => c.at >= later - WINDOW);
      SelectSnoc(Since(tb.calls, e.at), c, (c: Call) => c.at >= later - WINDOW);
    }
  }

  lemma CappedStep(tb: Tables, log: seq<Admission>, e: Event, top: real, skew: real)
    requires Remembers(tb, log, top) && Capped(log, WINDOW - skew) && 0.0 <= skew
    requires !e.Return? ==> top - skew <= e.at
    ensures Capped(log + Entry(tb, e), WINDOW - skew)
  {
    hide Remembers, KeptAt, Acquire;
    var longer := log + Entry(tb, e);
    if Entry(tb, e) == [] {
      assert longer == log;
    } else {
      RemembersLater(tb, log, top, Latest(e, top));
      forall j, a | 0 <= j < |longer| && a <= longer[j].at <= a + (WINDOW - skew) ensures KeptAt(longer, j, a) {
        if j < |log| {
          KeptStays(log, Admission(e.request, e.at), j, a);
        } else {
          AdmissionKept(tb, log, e.request, e.at, Latest(e, top), a);
        }
      }
    }
  }

  lemma {:induction false} RunCapped(tb: Tables, log: seq<Admission>, events: seq<Event>, top: real, skew: real)
    requires Remembers(tb, log, top) && Capped(log, WINDOW - skew) && 0.0 <= skew && Skewed(events, top, skew)
    ensures Capped(log + Admissions(tb, events), WINDOW - skew)
    decreases events
  {
    hide Remembers, Capped, Entry, Step;
    if events == [] {
      assert log + [] == log;
    } else {
      var e := events[0];
      RemembersStep(tb, log, e, top);
      CappedStep(tb, log, e, top, skew);
      RunCapped(Step(tb, e), log + Entry(tb, e), events[1..], Latest(e, top), skew);
      assert log + Admissions(tb, events) == log + Entry(tb, e) + Admissions(Step(tb, e), events[1..]);
    }
  }

  // From empty tables, over every run whose stamps are out of order by no more than the
  // skew, with any cleanups: no closed window shorter than a minute by the skew holds more
  // admissions of one triple, or of one principal, than the limit passed with the last of
  // them.
  lemma SkewedRateBound(events: seq<Event>, top: real, skew: real)
    requires 0.0 <= skew && Skewed(events, top, skew)
    ensures Capped(Admissions(Tables([], []), events), WINDOW - skew)
  {
    hide Capped;
    var empty := Tables([], []);
    NothingLogged(top, WINDOW - skew);
    RunCapped(empty, [], events, top, skew);
    assert [] + Admissions(empty, events) == Admissions(empty, events);
  }

  lemma NothingLogged(top: real, length: real)
    ensures Remembers(Tables([], []), [], top) && Capped([], length)
  {
  }

  lemma {:induction false} ForwardUnskewed(events: seq<Event>, now: real)
    requires Forward(events, now)
    ensures Skewed(events, now, 0.0)
    decreases events
  {
    if events != [] {
      ForwardUnskewed(events[1..], TimeAfter(events[0], now));
    }
  }

  // From empty tables, over every forward run with any cleanups: no closed minute
  // holds more admissions of one triple, or of one principal, than the limit passed
  // with the last of them.
  lemma RateBoundOverRuns(events: seq<Event>, now: real, j: nat, a: real)
    requires Forward(events, now)
    requires j < |Admissions(Tables([], []), events)|
    requires a <= Admissions(Tables([], []), events)[j].at <= a + WINDOW
    ensures var log := Admissions(Tables([], []), events);
            && |Burst(log, j, a)| <= log[j].request.limits.perMinute
            && |PrincipalBurst(log, j, a)| <= log[j].request.limits.globalPerMinute
  {
    hide Burst, PrincipalBurst, Admissions;
    ForwardUnskewed(events, now);
    SkewedRateBound(events, now, 0.0);
    assert KeptAt(Admissions(Tables([], []), events), j, a);
  }

  /* ---------- the clock ---------- */

  // At a moment t, tables pruned at now decide every acquire like the history they
  // stand for.
  ghost predicate DecidesLikeHistory(now: real, t: real) {
    forall tb, h, r :: Refines(tb, h, now) ==> Acquire(tb, r, t).0 == SpecAcquire(h, r, t).0
  }

  // They admit nothing the history would not.
  ghost predicate NeverOveradmits(now: real, t: real) {
    forall tb, h, r :: Refines(tb, h, now) && Acquire(tb, r, t).0 == Admitted ==> SpecAcquire(h, r, t).0 == Admitted
  }

  // A call that has left the window of now but not the window of an earlier t.
  lemma ForgottenCall(now: real, t: real) returns (tb: Tables, h: Tables, r: Request)
    requires t < now
    ensures Refines(tb, h, now)
    ensures Acquire(tb, r, t).0 == Admitted && SpecAcquire(h, r, t).0 == RateLimited
  {
    tb := Tables([], []);
    h := Tables([Call("p", "t", "x", t - WINDOW)], []);
    r := Request("lease", "p", "t", "x", Limits(1, 1, 1), 1.0);
    hide Acquire, SpecAcquire;
    SelectNone(h.calls, (c: Call) => c.at >= now - WINDOW);
    CrashRecovery(tb, r, t);
    OneCallCounts(h.calls[0], r, t);
  }

  // Ordered stamps are exactly what the pruning needs.
  lemma OrderedStampsExact(now: real, t: real)
    ensures DecidesLikeHistory(now, t) <==> now <= t
    ensures NeverOveradmits(now, t) <==> now <= t
  {
    if now <= t {
      forall tb, h, r | Refines(tb, h, now) ensures Acquire(tb, r, t).0 == SpecAcquire(h, r, t).0 {
        RefinesLater(tb, h, now, t);
        AcquireRefines(tb, h, r, t);
      }
    } else {
      var tb, h, r := ForgottenCall(now, t);
      assert Acquire(tb, r, t).0 != SpecAcquire(h, r, t).0;
    }
  }

  function TimeAtEnd(events: seq<Event>, now: real): real
    decreases events
  {
    if events == [] then now else TimeAtEnd(events[1..], TimeAfter(events[0], now))
  }

  lemma {:induction false} ForwardThen(events: seq<Event>, start: real, e: Event)
    requires Forward(events, start) && TimeAtEnd(events, start) <= TimeAfter(e, TimeAtEnd(events, start))
    ensures Forward(events + [e], start)
    decreases events
  {
    if events != [] {
      ForwardThen(events[1..], TimeAfter(events[0], start), e);
      assert (events + [e])[1..] == events[1..] + [e];
    }
  }

  // The last admission of these events, if they end in one, keeps to its own limits in
  // the closed minute that begins at a.
  ghost predicate LastWithin(events: seq<Event>, a: real) {
    var log := Admissions(Tables([], []), events);
    log != [] && a <= log[|log| - 1].at <= a + WINDOW ==>
      && |Burst(log, |log| - 1, a)| <= log[|log| - 1].request.limits.perMinute
      && |PrincipalBurst(log, |log| - 1, a)| <= log[|log| - 1].request.limits.globalPerMinute
  }

  // From empty tables: whatever forward run ends at now, an acquire stamped t that
  // follows it keeps every closed minute within its limits.
  ghost predicate RateHeldAfter(now: real, t: real) {
    forall events, start, r, a ::
      Forward(events, start) && TimeAtEnd(events, start) == now ==> LastWithin(events + [Ask(r, t)], a)
  }

  function LateRequest(leaseId: string): Request {
    Request(leaseId, "p", "t", "x", Limits(1, 2, 2), 1.0)
  }

  // An admission stamped first, and a cleanup stamped now.
  function LateEvents(first: real, now: real): seq<Event> {
    [Ask(LateRequest("first"), first), CleanCalls(now)]
  }

  lemma LateAdmitted(first: real, now: real, t: real)
    requires first + WINDOW < now
    ensures var q, r := LateRequest("first"), LateRequest("second");
            && Acquire(Tables([], []), q, first) == (Admitted, Tables([CallOf(q, first)], [LeaseOf(q, first)]))
            && RecoverCalls(Tables([CallOf(q, first)], [LeaseOf(q, first)]), now) == Tables([], [LeaseOf(q, first)])
            && Acquire(Tables([], [LeaseOf(q, first)]), r, t).0 == Admitted
  {
    var q := LateRequest("first");
    CrashRecovery(Tables([], []), q, first);
    SelectNone([CallOf(q, first)], (c: Call) => c.at >= now - WINDOW);
  }

  lemma AdmissionsCons(tb: Tables, e: Event, rest: seq<Event>)
    ensures Admissions(tb, [e] + rest) == Entry(tb, e) + Admissions(Step(tb, e), rest)
  {
    assert ([e] + rest)[1..] == rest;
  }

  lemma LateLog(first: real, now: real, t: real)
    requires first + WINDOW < now
    ensures Admissions(Tables([], []), LateEvents(first, now) + [Ask(LateRequest("second"), t)])
         == [Admission(LateRequest("first"), first), Admission(LateRequest("second"), t)]
  {
    hide Admissions, Acquire;
    LateAdmitted(first, now, t);
    var q, r := LateRequest("first"), LateRequest("second");
    var one, cleaned := Tables([CallOf(q, first)], [LeaseOf(q, first)]), Tables([], [LeaseOf(q, first)]);
    assert LateEvents(first, now) + [Ask(r, t)] == [Ask(q, first)] + ([CleanCalls(now)] + ([Ask(r, t)] + []));
    AdmissionsCons(Tables([], []), Ask(q, first), [CleanCalls(now)] + ([Ask(r, t)] + []));
    AdmissionsCons(one, CleanCalls(now), [Ask(r, t)] + []);
    AdmissionsCons(cleaned, Ask(r, t), []);
    NoAdmissions(Step(cleaned, Ask(r, t)));
  }

  lemma NoAdmissions(tb: Tables)
    ensures Admissions(tb, []) == []
  {
  }

  lemma LateBurst(first: real, t: real)
    requires first <= t
    ensures |Burst([Admission(LateRequest("first"), first), Admission(LateRequest("second"), t)], 1, first)| == 2
  {
    var log := [Admission(LateRequest("first"), first), Admission(LateRequest("second"), t)];
    var near := (x: Admission) => SamePair(x, log[1]) && first <= x.at;
    assert log[..2] == ([] + [log[0]]) + [log[1]];
    SelectSnoc([] + [log[0]], log[1], near);
    SelectSnoc([], log[0], near);
  }

  lemma LateForward(first: real, now: real)
    requires first <= now
    ensures Forward(LateEvents(first, now), first) && TimeAtEnd(LateEvents(first, now), first) == now
  {
    assert LateEvents(first, now)[1..] == [CleanCalls(now)];
    assert [CleanCalls(now)][1..] == [];
    assert TimeAtEnd([CleanCalls(now)], first) == now;
  }

  // Two calls of one triple under a limit of one: the first is admitted, a cleanup more
  // than a minute later forgets it, and an acquire whose clock was read before that
  // cleanup is admitted as well.
  lemma LateAcquire(first: real, now: real, t: real)
    requires first + WINDOW < now && first <= t
    ensures Forward(LateEvents(first, now), first) && TimeAtEnd(LateEvents(first, now), first) == now
    ensures var log := Admissions(Tables([], []), LateEvents(first, now) + [Ask(LateRequest("second"), t)]);
            && |log| == 2 && log[1].at == t && log[1].request.limits.perMinute == 1
            && |Burst(log, 1, first)| == 2 && !KeptAt(log, 1, first)
  {
    hide Admissions, Burst, Forward, TimeAtEnd, PrincipalBurst;
    LateForward(first, now);
    LateLog(first, now, t);
    LateBurst(first, t);
  }

  lemma LateSkewed(first: real, now: real, t: real)
    requires first <= t <= now && first <= now
    ensures Skewed(LateEvents(first, now) + [Ask(LateRequest("second"), t)], first, now - t)
  {
    var events := LateEvents(first, now) + [Ask(LateRequest("second"), t)];
    assert events[1..] == [CleanCalls(now), Ask(LateRequest("second"), t)];
    assert events[1..][1..] == [Ask(LateRequest("second"), t)];
    assert events[1..][1..][1..] == [];
    assert Skewed([Ask(LateRequest("second"), t)], now, now - t);
    assert Skewed([CleanCalls(now), Ask(LateRequest("second"), t)], first, now - t);
  }

  // Runs skewed by this much keep every closed window of this length within its limits.
  ghost predicate RateHeldUnder(skew: real, length: real) {
    forall events, top :: Skewed(events, top, skew) ==> Capped(Admissions(Tables([], []), events), length)
  }

  // Stamps out of order by some amount shorten the minute by just that amount.
  lemma SkewExact(skew: real, length: real)
    requires 0.0 <= skew && 0.0 <= length
    ensures RateHeldUnder(skew, length) <==> length <= WINDOW - skew
  {
    hide Skewed, Admissions, KeptAt;
    if length <= WINDOW - skew {
      forall events, top | Skewed(events, top, skew) ensures Capped(Admissions(Tables([], []), events), length) {
        SkewedRateBound(events, top, skew);
      }
    } else {
      LateAcquire(0.0, length + skew, length);
      LateSkewed(0.0, length + skew, length);
      var events := LateEvents(0.0, length + skew) + [Ask(LateRequest("second"), length)];
      assert !Capped(Admissions(Tables([], []), events), length);
    }
  }

  // The rate bound survives one more acquire exactly if its clock reading is no earlier
  // than the last one committed.
  lemma RateBoundExact(now: real, t: real)
    ensures RateHeldAfter(now, t) <==> now <= t
  {
    if now <= t {
      forall events, start, r, a | Forward(events, start) && TimeAtEnd(events, start) == now
        ensures LastWithin(events + [Ask(r, t)], a)
      {
        hide Burst, PrincipalBurst, Admissions, Forward;
        ForwardThen(events, start, Ask(r, t));
        var log := Admissions(Tables([], []), events + [Ask(r, t)]);
        if log != [] && a <= log[|log| - 1].at <= a + WINDOW {
          RateBoundOverRuns(events + [Ask(r, t)], start, |log| - 1, a);
        }
      }
    } else {
      hide Forward, TimeAtEnd, LastWithin;
      LateAcquire(t - WINDOW, now, t);
      assert !LastWithin(LateEvents(t - WINDOW, now) + [Ask(LateRequest("second"), t)], t - WINDOW);
    }
  }

  // At concrete readings, two seconds apart: an acquire reads the clock at 179 and waits
  // for the write lock while a recovery stamped 181 commits. A limit of one admits two
  // calls of one triple between 119 and 179.
  lemma TwoSecondsLate()
    ensures var log := Admissions(Tables([], []), [Ask(LateRequest("first"), 119.0), CleanCalls(181.0)]
                                                  + [Ask(LateRequest("second"), 179.0)]);
            |log| == 2 && log[1].request.limits.perMinute == 1 && |Burst(log, 1, 119.0)| == 2
  {
    LateAcquire(119.0, 181.0, 179.0);
  }

  /* ---------- the lease table ---------- */

  predicate UniqueIds(leases: seq<Lease>) {
    forall i, j | 0 <= i < j < |leases| :: leases[i].id != leases[j].id
  }

  lemma {:induction false} SelectKeepsUnique(leases: seq<Lease>, p: Lease -> bool)
    requires UniqueIds(leases)
    ensures UniqueIds(Select(leases, p))
  {
    if leases != [] {
      var front, last := leases[..|leases| - 1], leases[|leases| - 1];
      assert leases == front + [last];
      SelectKeepsUnique(front, p);
      SelectMembers(front, p);
      forall i | 0 <= i < |Select(front, p)| ensures Select(front, p)[i].id != last.id {
        assert Select(front, p)[i] in front;
      }
    }
  }

  // Within the bound and without duplicate ids, before and after every step whose
  // requests carry a concurrency limit no higher than the bound.
  lemma LeaseBound(tb: Tables, e: Event, max: nat)
    requires |tb.leases| <= max && UniqueIds(tb.leases)
    requires e.Ask? ==> e.request.limits.maxConcurrent <= max
    ensures |Step(tb, e).leases| <= max && UniqueIds(Step(tb, e).leases)
  {
    match e {
      case Ask(r, t) => SelectKeepsUnique(tb.leases, (l: Lease) => l.expires >= t);
      case Return(id) => SelectKeepsUnique(tb.leases, (l: Lease) => l.id != id);
      case CleanLeases(t) => SelectKeepsUnique(tb.leases, (l: Lease) => l.expires >= t);
      case CleanCalls(_) =>
    }
  }

  // Whatever crashed runs left behind, an acquire later than every stored expiry and
  // more than a minute after every stored call is admitted.
  lemma CrashRecovery(tb: Tables, r: Request, t: real)
    requires forall c | c in tb.calls :: c.at + WINDOW < t
    requires forall l | l in tb.leases :: l.expires < t
    requires r.limits.perMinute >= 1 && r.limits.globalPerMinute >= 1 && r.limits.maxConcurrent >= 1
    ensures Acquire(tb, r, t) == (Admitted, Tables([CallOf(r, t)], [LeaseOf(r, t)]))
  {
    SelectNone(tb.calls, (c: Call) => c.at >= t - WINDOW);
    SelectNone(tb.leases, (l: Lease) => l.expires >= t);
    assert [] + [CallOf(r, t)] == [CallOf(r, t)] && [] + [LeaseOf(r, t)] == [LeaseOf(r, t)];
  }

  // Leases only appear by admission.
  lemma StepLeases(tb: Tables, e: Event, l: Lease)
    requires l in Step(tb, e).leases
    ensures l in tb.leases || (e.Ask? && l == LeaseOf(e.request, e.at))
    ensures e.Return? ==> l.id != e.leaseId
  {
    match e {
      case Ask(r, t) => SelectMembers(tb.leases, (k: Lease) => k.expires >= t);
      case Return(id) => SelectMembers(tb.leases, (k: Lease) => k.id != id);
      case CleanLeases(t) => SelectMembers(tb.leases, (k: Lease) => k.expires >= t);
      case CleanCalls(_) =>
    }
  }

  // They only go by release or by expiry.
  lemma StepKeepsLease(tb: Tables, e: Event, l: Lease)
    requires l in tb.leases
    requires e.Return? ==> l.id != e.leaseId
    requires !e.Return? ==> e.at <= l.expires
    ensures l in Step(tb, e).leases
  {
    match e {
      case Ask(r, t) => SelectMembers(tb.leases, (k: Lease) => k.expires >= t);
      case Return(id) => SelectMembers(tb.leases, (k: Lease) => k.id != id);
      case CleanLeases(t) => SelectMembers(tb.leases, (k: Lease) => k.expires >= t);
      case CleanCalls(_) =>
    }
  }

  // The primary key is violated only by a stored lease of this id.
  lemma TakenLease(tb: Tables, r: Request, t: real)
    requires Acquire(tb, r, t).0 == IdTaken
    ensures exists l :: l in tb.leases && l.id == r.leaseId
  {
    SelectMembers(tb.leases, (k: Lease) => k.expires >= t);
    var l :| l in Prune(tb, t).leases && l.id == r.leaseId;
  }
}
