// The deny-by-default scope decision.
module Scope {
  import opened Models
  import opened Addresses
  import opened Hostnames

  datatype Kind = Repository | Host | Url | Path | Ip | Cidr | LocalWorkspace

  // A normalised target. Addresses and blocks are present when the canonical form
  // parses; parts are the components of the resolved path.
  datatype Target = Target(
    kind: Kind, canonical: string, host: Option<string>,
    address: Option<Address>, block: Option<Network>, parts: seq<string>)

  datatype Policy = Policy(
    name: string, validFrom: Option<real>, validUntil: Option<real>,
    allowedActions: seq<string>, forbiddenActions: seq<string>, forbiddenTargets: seq<string>,
    repositories: seq<string>, domains: seq<string>, endpoints: seq<string>,
    ranges: seq<Network>, roots: seq<seq<string>>)

  // What the constructor of the engine guarantees: every range parses.
  ghost predicate ValidPolicy(p: Policy) {
    forall n | n in p.ranges :: ValidNetwork(n)
  }

  ghost predicate ValidTarget(t: Target) {
    t.block.Some? ==> ValidNetwork(t.block.value)
  }

  datatype Decision = Allow | Deny | Unknown

  datatype Rule =
    | TimeWindow | ForbiddenAction | ActionAllowlist | ForbiddenTarget
    | RepositoryRule | DomainRule | EndpointRule | RangeRule | DirectoryRule | DefaultDeny

  datatype Ruling = Ruling(decision: Decision, rule: Rule)

  /* ---------- matchers ---------- */

  predicate ForbiddenMatch(pattern: string, t: Target) {
    match t.kind
    case Repository => RepoMatch(pattern, t.canonical)
    case Host => ForbiddenHost(pattern, t)
    case Url => ForbiddenHost(pattern, t)
    case Ip => ForbiddenHost(pattern, t)
    case Path => t.canonical == pattern
    case LocalWorkspace => t.canonical == pattern
    case Cidr => t.canonical == pattern
  }

  predicate ForbiddenHost(pattern: string, t: Target) {
    var host := HostOf(t);
    if EndsWith(pattern, ".*") then
      StartsWith(host, Lower(pattern[..|pattern| - 1])) && |host| > |pattern| - 1
    else
      HostnameMatch(pattern, host) || HostnameMatch(pattern, t.canonical)
  }

  function HostOf(t: Target): string {
    if t.host.Some? then t.host.value else ""
  }

  // A path is under a root when the root's components are its first ones.
  predicate UnderRoot(parts: seq<string>, root: seq<string>) {
    root <= parts
  }

  /* ---------- the decision ---------- */

  predicate Inactive(p: Policy, moment: real) {
    || (p.validFrom.Some? && moment < p.validFrom.value)
    || (p.validUntil.Some? && moment > p.validUntil.value)
  }

  // Some entry passes the test; the loops of the decision return at the first.
  predicate Any<T>(entries: seq<T>, test: T -> bool) {
    entries != [] && (test(entries[0]) || Any(entries[1..], test))
  }

  // The endpoint list, when there is one, restricts URLs further.
  predicate EndpointRefused(p: Policy, t: Target) {
    t.kind.Url? && p.endpoints != [] && t.canonical !in p.endpoints
  }

  // The first domain entry that matches decides.
  function DomainLoop(p: Policy, entries: seq<string>, t: Target): Option<Ruling> {
    if entries == [] then None
    else if HostnameMatch(entries[0], HostOf(t)) then
      Some(if EndpointRefused(p, t) then Ruling(Unknown, EndpointRule) else Ruling(Allow, DomainRule))
    else DomainLoop(p, entries[1..], t)
  }

  predicate CidrContained(p: Policy, c: Network)
    requires ValidPolicy(p) && ValidNetwork(c)
  {
    exists n | n in p.ranges :: Within(c, n)
  }

  predicate IpContained(p: Policy, a: Address)
    requires ValidPolicy(p)
  {
    exists n | n in p.ranges :: In(a, n)
  }

  function Evaluate(p: Policy, t: Target, action: string, moment: real): Ruling
    requires ValidPolicy(p) && ValidTarget(t)
  {
    if Inactive(p, moment) then Ruling(Deny, TimeWindow)
    else if action in p.forbiddenActions then Ruling(Deny, ForbiddenAction)
    else if action !in p.allowedActions then Ruling(Deny, ActionAllowlist)
    else if Any(p.forbiddenTargets, (f: string) => ForbiddenMatch(f, t)) then Ruling(Deny, ForbiddenTarget)
    else
      match t.kind
      case Repository =>
        if Any(p.repositories, (r: string) => RepoMatch(r, t.canonical)) then Ruling(Allow, RepositoryRule)
        else Ruling(Unknown, DefaultDeny)
      case Host => Domains(p, t)
      case Url => Domains(p, t)
      case Cidr =>
        if t.block.Some? && CidrContained(p, t.block.value) then Ruling(Allow, RangeRule)
        else Ruling(Unknown, DefaultDeny)
      case Ip =>
        if t.address.Some? && IpContained(p, t.address.value) then Ruling(Allow, RangeRule)
        else Ruling(Unknown, DefaultDeny)
      case Path => Directories(p, t)
      case LocalWorkspace => Directories(p, t)
  }

  function Domains(p: Policy, t: Target): Ruling {
    var found := DomainLoop(p, p.domains, t);
    if found.Some? then found.value else Ruling(Unknown, DefaultDeny)
  }

  function Directories(p: Policy, t: Target): Ruling {
    if Any(p.roots, (r: seq<string>) => UnderRoot(t.parts, r)) then Ruling(Allow, DirectoryRule)
    else Ruling(Unknown, DefaultDeny)
  }

  /* ---------- the existential specification ---------- */

  ghost predicate Denied(p: Policy, t: Target, action: string, moment: real) {
    || Inactive(p, moment)
    || action in p.forbiddenActions
    || action !in p.allowedActions
    || exists f | f in p.forbiddenTargets :: ForbiddenMatch(f, t)
  }

  // Some allowlist entry of the target's kind covers it.
  ghost predicate Covered(p: Policy, t: Target)
    requires ValidPolicy(p) && ValidTarget(t)
  {
    match t.kind
    case Repository => exists r | r in p.repositories :: RepoMatch(r, t.canonical)
    case Host => exists d | d in p.domains :: HostnameMatch(d, HostOf(t))
    case Url =>
      && (exists d | d in p.domains :: HostnameMatch(d, HostOf(t)))
      && (p.endpoints == [] || t.canonical in p.endpoints)
    case Cidr =>
      t.block.Some? && exists n | n in p.ranges :: Subset(t.block.value, n)
    case Ip => t.address.Some? && exists n | n in p.ranges :: In(t.address.value, n)
    case Path => exists r | r in p.roots :: UnderRoot(t.parts, r)
    case LocalWorkspace => exists r | r in p.roots :: UnderRoot(t.parts, r)
  }

  lemma {:induction false} AnyExists<T>(entries: seq<T>, test: T -> bool)
    ensures Any(entries, test) <==> exists e | e in entries :: test(e)
  {
    if entries != [] {
      AnyExists(entries[1..], test);
      assert entries == [entries[0]] + entries[1..];
    }
  }

  lemma {:induction false} DomainLoopExists(p: Policy, entries: seq<string>, t: Target)
    ensures DomainLoop(p, entries, t) ==
            if exists d | d in entries :: HostnameMatch(d, HostOf(t))
            then Some(if EndpointRefused(p, t) then Ruling(Unknown, EndpointRule) else Ruling(Allow, DomainRule))
            else None
  {
    if entries != [] {
      DomainLoopExists(p, entries[1..], t);
      assert entries == [entries[0]] + entries[1..];
    }
  }

  lemma CidrCovered(p: Policy, c: Network)
    requires ValidPolicy(p) && ValidNetwork(c)
    ensures CidrContained(p, c) <==>
            exists n | n in p.ranges :: Subset(c, n)
  {
    forall n | n in p.ranges
      ensures Within(c, n) <==> Subset(c, n)
    {
      WithinIffSubset(c, n);
    }
  }

  // The early-return loops decide by existence alone, and deny wins.
  lemma DecisionSpec(p: Policy, t: Target, action: string, moment: real)
    requires ValidPolicy(p) && ValidTarget(t)
    ensures Evaluate(p, t, action, moment).decision ==
            if Denied(p, t, action, moment) then Deny
            else if Covered(p, t) then Allow
            else Unknown
  {
    hide RepoMatch, HostnameMatch, Within, In, UnderRoot;
    AnyExists(p.forbiddenTargets, (f: string) => ForbiddenMatch(f, t));
    match t.kind {
      case Repository => AnyExists(p.repositories, (r: string) => RepoMatch(r, t.canonical));
      case Host => DomainLoopExists(p, p.domains, t);
      case Url => DomainLoopExists(p, p.domains, t);
      case Cidr => if t.block.Some? { CidrCovered(p, t.block.value); }
      case Ip =>
      case Path => AnyExists(p.roots, (r: seq<string>) => UnderRoot(t.parts, r));
      case LocalWorkspace => AnyExists(p.roots, (r: seq<string>) => UnderRoot(t.parts, r));
    }
  }

  /* ---------- order, repetition, monotonicity ---------- */

  ghost predicate SameEntries<T>(a: seq<T>, b: seq<T>) {
    (forall e | e in a :: e in b) && (forall e | e in b :: e in a)
  }

  // Two policies whose lists have the same entries, in any order and number.
  ghost predicate Rearranged(p: Policy, q: Policy) {
    && p.validFrom == q.validFrom && p.validUntil == q.validUntil
    && SameEntries(p.allowedActions, q.allowedActions)
    && SameEntries(p.forbiddenActions, q.forbiddenActions)
    && SameEntries(p.forbiddenTargets, q.forbiddenTargets)
    && SameEntries(p.repositories, q.repositories)
    && SameEntries(p.domains, q.domains)
    && SameEntries(p.endpoints, q.endpoints)
    && SameEntries(p.ranges, q.ranges)
    && SameEntries(p.roots, q.roots)
  }

  lemma EmptyEntries<T>(a: seq<T>, b: seq<T>)
    requires SameEntries(a, b)
    ensures a == [] <==> b == []
  {
    if a != [] {
      assert a[0] in b;
    }
    if b != [] {
      assert b[0] in a;
    }
  }

  // The decision does not depend on the order or the repetition of list entries.
  lemma OrderFree(p: Policy, q: Policy, t: Target, action: string, moment: real)
    requires ValidPolicy(p) && ValidPolicy(q) && ValidTarget(t) && Rearranged(p, q)
    ensures Evaluate(p, t, action, moment).decision == Evaluate(q, t, action, moment).decision
  {
    hide RepoMatch, HostnameMatch, In, UnderRoot, Evaluate;
    DecisionSpec(p, t, action, moment);
    DecisionSpec(q, t, action, moment);
    EmptyEntries(p.endpoints, q.endpoints);
  }

  // Adding forbidden targets or actions can only turn a decision into Deny.
  lemma ForbiddingOnlyDenies(p: Policy, targets: seq<string>, actions: seq<string>,
                             t: Target, action: string, moment: real)
    requires ValidPolicy(p) && ValidTarget(t)
    ensures var q := p.(forbiddenTargets := p.forbiddenTargets + targets,
                        forbiddenActions := p.forbiddenActions + actions);
            var before, after := Evaluate(p, t, action, moment).decision, Evaluate(q, t, action, moment).decision;
            && (after == Deny || after == before)
            && (after == before <==>
                  || before == Deny
                  || (action !in actions && forall f | f in targets :: !ForbiddenMatch(f, t)))
  {
    hide RepoMatch, HostnameMatch, In, UnderRoot, Evaluate, ForbiddenMatch;
    var q := p.(forbiddenTargets := p.forbiddenTargets + targets,
                forbiddenActions := p.forbiddenActions + actions);
    DecisionSpec(p, t, action, moment);
    DecisionSpec(q, t, action, moment);
    assert Covered(p, t) == Covered(q, t);
  }

  // When a block is allowed, an address inside it is allowed exactly when no
  // forbidden entry names that address.
  lemma BlockMembersAllowed(p: Policy, block: Target, member: Target, action: string, moment: real)
    requires ValidPolicy(p) && ValidTarget(block) && ValidTarget(member)
    requires block.kind.Cidr? && block.block.Some? && member.kind.Ip? && member.address.Some?
    requires InSpace(member.address.value) && In(member.address.value, block.block.value)
    requires Evaluate(p, block, action, moment).decision == Allow
    ensures IpContained(p, member.address.value)
    ensures Evaluate(p, member, action, moment).decision ==
            if exists f | f in p.forbiddenTargets :: ForbiddenMatch(f, member) then Deny else Allow
  {
    hide In, Evaluate, ForbiddenMatch;
    DecisionSpec(p, block, action, moment);
    DecisionSpec(p, member, action, moment);
    var n :| n in p.ranges && Subset(block.block.value, n);
    assert In(member.address.value, n);
  }
}
