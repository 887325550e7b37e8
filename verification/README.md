# Noble Cascade: the control plane, modelled and proved

The control plane takes a security request through scope, authorization, risk, approval and
rate limits, runs one of two offline tools, and turns its output into evidence and findings.
Many processes do this over one SQLite database. This project models that database, the run
of a request over it, and the algorithms both rely on, and proves what the control plane is
for: no request runs twice, nothing runs unchecked, and what is on record is sound.

## How it is modelled

- A transaction is one atomic step. Between two steps of one run any other run, approver,
  recovery command or writer of the audit log may move, and any run may crash (`System`).
- A run is a machine with a program point (`Runs`). Every component call may succeed, be
  refused by its check, fail unexpectedly, or commit and fail all the same. Both exception
  handlers and the finally block are steps of that machine.
- Every run has a configuration of its own, as every process loads its own: actor, policy,
  tools, limits, schemas and risk tables may differ from run to run. Only the digest, the
  event text and the signatures are common to all.
- `RunInvariant` says what a step keeps and what others may change; `System` lifts this to
  all runs together; `Guarantees` states what follows for every reachable state, and `Rates`
  counts the tool calls of a minute.
- `OnRecord` and `Filings` trace rows of the audit table and approvals back to the steps they
  come from. `Progress` shows that nothing blocks an admissible request, from any reachable
  state, and `Example` is one concrete trace with an approver, a call and a confirmed finding.
- `Engine` is the run method as imperative code over the class `Store`, with one oracle for
  everything the surroundings may do. Each of its methods is proved to take a step of the
  machine, or to fail with a cause.
- The pieces below are modelled on their own: the limiter (`Limiter`), the audit chain
  (`AuditChain`), quarantine by eight concrete patterns (`Regex`, `Quarantine`,
  `Signatures`), concurrent approvals (`Approvals`) and their sequential form with grant
  issuance (`Approvers`), the scope digest (`ScopeDigest`), scope decisions (`Scope`,
  `Addresses`, `Hostnames`), output validation (`Validation`), evidence and findings
  (`Findings`), the report (`Report`), the scanner loop (`Scanner`) and the bounded reader
  (`Execution`).
- Hashing, JSON, redaction, target normalisation, schemas, the risk tables and the fixture
  are functions in the configuration about which nothing is assumed, except that digests
  have 64 characters and parsed networks are aligned. Times are reals.

## Where the code differs from what one might expect

- `acquire_lease` and the recovery commands read the clock before they take the write lock
  (noble/store.py:356-358, noble/recovery.py:24-39) and may then wait for it for up to the
  busy timeout of 10 seconds (noble/store.py:71-74), so stamps of successive transactions may
  be out of order by that much. The lease bound does not need ordered stamps. The rate bound
  does: `Limiter.RateBoundExact` and `Limiter.OrderedStampsExact` say that it holds exactly
  if the stamp of the next acquire is no earlier than the last one, and
  `Limiter.TwoSecondsLate` is an input, from empty tables, where a limit of one admits two.
  What is left of it is exact as well: stamps out of order by some amount shorten the minute
  by just that amount (`Limiter.SkewExact`).
- A completed run can return FAILED while the store says COMPLETED (`Progress.LostPersist`).
  `Guarantees.StoredExact` says exactly when a returned result is the stored one.
- A scan can report `complete` although it missed sinks; `Scanner.CompleteButPartial` says
  exactly when.
- `detect_corruption` reads the table twice. Its last branch cannot be reached over one
  snapshot, and `AuditChain.DetectCorruption` says exactly when it is over two.
- The scope digest joins its parts with bars and without marking where a list ends
  (`ScopeDigest.ListsAmbiguous`), so approvals are bound to the digest, not to the scope.
  `ScopeDigest.SameTextExact` says exactly when two snapshots of any policies have one text,
  `ScopeDigest.ScopeEqualExact` what else must agree for them to be the same, and
  `ScopeDigest.EditedPolicyExact` what that comes to when a policy is edited. What an approval
  does ensure is `Filings.FiledForSameScope`.
- A decide that finds a record expired but loses the race to mark it answers that it has
  expired, where the atomic form would answer that it is no longer pending
  (`Approvals.LostExpiryRace`). `Approvals.LinearizableIff` says that exactly these calls
  answer what no atomic form at any of their steps answers.
- After a failed release, FAILED follows a terminal state (`Progress.LostRelease`); this is
  the only exception to terminal states being absorbing, and `Guarantees.ExtraFailedExact`
  says exactly when it happens.
- Events are sanitised in their fields only. The request id is stored as it came
  (noble/audit.py:47-56), and a run refused for a malformed id still logs FINISHED with it
  (`Progress.MalformedIdLogged`). `OnRecord.SignatureOnRecord` says that a row a run logged is
  free of signatures exactly if its request id is, and that only requests refused for their
  id can put one on record.

## Model

| member | source | states |
|---|---|---|
| Guarantees.AtMostOnce | noble/engine.py:242-244 | for every interleaving of any number of runs, crashes, approvers and recoveries, no two tool calls ever carry the same request id |
| Guarantees.ResultsAreFinal | noble/store.py:211-242 | a persisted result never changes, a reserved id stays reserved until it is a result, and no id is ever both |
| Guarantees.ResultsRefer | noble/engine.py:413-464 | whatever evidence and findings a stored result lists are stored and belong to its request |
| Guarantees.CompleteMediation | noble/engine.py:235-383 | at every later moment, each tool call is backed by a reservation, two ALLOW rulings, an exact-match active grant, a satisfied approval check, a read-only process-local offline tool, an admitted lease, and its seven events in order in the audit table |
| Guarantees.MediationInTime | noble/engine.py:235-383 | before a call the run took reservation, scope snapshot, grant check, approval check, tool selection, lease and EXECUTING event one after the other, each enabled in the store of its own moment |
| Guarantees.FailureStops | noble/engine.py:489-528 | once any step of a run has failed, a failing audit append included, that run never calls the tool |
| Guarantees.ErrorHasCause | noble/engine.py:489-513 | a run with a typed error was refused with exactly that error by a check, in the store of that moment |
| Guarantees.DistinctApprover | noble/engine.py:276-298 | a run of final tier HIGH or CRITICAL that executes saw, at its approval check, an unexpired approved record with its fingerprint, tier, requester and scope digest, decided in time by a nonempty approver other than the requester who held an active approver grant for that action and target; the tier is the assessed one raised to the tool's floor |
| Filings.FiledForSameScope | noble/approvals.py:33-47 | the approval that lets a run pass was filed earlier, by some run, for the same fingerprint, requester and tier, and for a snapshot whose parts read the same in order; or else two different texts with one digest are given |
| Filings.FiledBefore | noble/approvals.py:54-93 | every stored approval was filed by some run at an earlier step and still has the terms it was filed with |
| Guarantees.ToolBound | noble/engine.py:345-383 | the lease table never exceeds the highest concurrency limit of any run so far; if no run inside the tool has outstayed its lease, no more runs than that are inside it |
| Rates.CallsPerMinute | noble/store.py:356-389 | if the stamps of the limiter transactions are out of commit order by no more than a skew: the tool calls of one requester, over all runs of the system, that were admitted in any closed window shorter than a minute by the skew are no more than the principal limit of the last admitted of them, whatever limits each run was configured with; so no more than any limit all runs keep to |
| Rates.CallsPerTriple | noble/store.py:356-389 | the same for one requester, tool and target, with the tool's own limit |
| Guarantees.RecoveryAfterCrashes | noble/store.py:356-389 | from any reachable state, whatever crashed, an acquire later than every stored expiry and more than a minute after every stored call can be taken and admits |
| Guarantees.AuditAlwaysVerifies | noble/store.py:299-336 | in every reachable state and for every process the chain verifies, every row holds an event whose fields match no injection signature, and every earlier table is a prefix |
| Guarantees.ReportSound | noble/reporting.py:101-121 | every stored finding of every reachable state passes the evidence-linkage checks, and every confirmed one is the fixture verifier's |
| Guarantees.Completion | noble/engine.py:489-588 | every returning run is in a terminal state, has an error exactly if it did not complete and the state and outcome of that error, a valid history of at most 15 entries up to one extra FAILED, no lease unless release or final step failed, and unless the final step failed its FINISHED event is logged and it returned what is stored |
| Guarantees.StoredExact | noble/engine.py:544-588 | what a returning run with a reservation returns is what is stored exactly if the store failed neither its final audit nor its final persist, at any step of the whole interleaving |
| Guarantees.ExtraFailedExact | noble/engine.py:530-543 | FAILED follows a terminal state exactly if the store failed the release of a run that had ended otherwise than FAILED |
| Progress.CanComplete | noble/engine.py:126-588 | nothing blocks an admissible request: from any reachable state whose limiter has room, whatever crashed or waits and whatever acceptable output its tool will give, some steps take it to COMPLETED with the outcome that is due, exactly one more tool call, its own, each observation a stored finding that is confirmed exactly if the observation was verified, and its result stored |
| Progress.CanFile | noble/engine.py:282-298 | from any such state a request without a token, of a tier that needs an approval, can get as far as filing one, with its own fingerprint, tier, requester and scope digest |
| Progress.LostPersist | noble/engine.py:577-588 | reachable from any such state: the commit of a completed result succeeds but its call fails, and the run returns FAILED while the store says COMPLETED |
| Progress.LostRelease | noble/engine.py:530-543 | reachable from any such state: the release of a completed run fails and FAILED follows COMPLETED in its history |
| Progress.MalformedIdLogged | noble/audit.py:47-56 | whatever text a request has for an id, its refused run can log FINISHED with that very text: only the fields of an event are sanitised |
| OnRecord.SignatureOnRecord | noble/engine.py:235-237 | every row of a reachable audit table was appended by one step; if by a run, it carries that run's request id and is free of signatures as a whole exactly if that id is; if it is not, the id is malformed, the run never gets past the check of it, calls no tool, and the row is its FINISHED event |
| OnRecord.ValidIdFree | noble/engine.py:235-237 | no signature occurs in an id the engine accepts |
| Example.SomethingHappens | noble/engine.py:126-588 | a concrete configuration and two grants: a request of tier HIGH is filed for approval by its run, approved by a second person and made again; the fixture verifier is called once, the run completes, and a confirmed finding and the result are stored |
| Guarantees.ApprovalsHold | noble/approvals.py:95-171 | with runs filing requests and approvers acting at once, terms never change, states never return, records stay properly decided, and no record is decided or revoked twice |
| System.NextKeeps | noble/engine.py:126-588 | every step of anybody, commits whose call fails included, keeps the whole invariant and changes the store only as all others allow for |
| System.Reachable | noble/engine.py:126-588 | the invariant holds in every reachable state |
| System.MoveLimiter | noble/store.py:338-393 | what a run's step does to the limiter is exactly the one limiter transaction it is recorded with |
| System.LeasesKept | noble/engine.py:345-383 | from admission to release a run's lease stays in the table until it expires, and is gone after a successful release, whatever other runs and recoveries do |
| RunInvariant.StepKeepsRun | noble/engine.py:126-588 | every action and every failure of one run, at every point, keeps its invariant: history, events logged so far, decisions made, holds and evidence in progress |
| RunInvariant.StepEvolves | noble/store.py:147-314 | every step of a run only moves reservations into results, appends to the audit table, moves approvals forward, and never rewrites results, grants, evidence or findings |
| RunInvariant.FactsStable | noble/engine.py:235-383 | no step of anybody else can take away what a run has established |
| RunInvariant.FindingIsSound | noble/engine.py:413-449 | the reasoning step never refuses evidence the engine built, and the finding it makes is sound in the store |
| Engine.NobleEngine.Run | noble/engine.py:126-588 | one request from start to return: the recorded path is made of steps of the machine from a fresh run to RETURNED, the tool is called at most once, a completed result means it was called, the history is valid, and every error has a recorded cause |
| Engine.NobleEngine.TryBody | noble/engine.py:227-487 | the try block either completes with one tool call or raises something that was caused at that moment |
| Engine.NobleEngine.Transition | noble/engine.py:178-203 | validate_transition never refuses a transition of the try block |
| Engine.NobleEngine.Audit | noble/engine.py:205-226 | one sanitised event is appended, or the run fails, also when the row was committed |
| Engine.NobleEngine.Reserve | noble/engine.py:235-244 | format, identity and replay checks, then the reservation |
| Engine.NobleEngine.EvaluateScope | noble/engine.py:255-264 | targets that do not normalise or hold a credential are refused; the ruling is recorded |
| Engine.NobleEngine.SnapshotScope | noble/engine.py:265-269 | UNKNOWN, DENY and a lapsed scope are refused with their own errors |
| Engine.NobleEngine.CheckAuthorization | noble/authorization.py:96-129 | only an existing grant that covers the request lets it pass |
| Engine.NobleEngine.EnsureApproval | noble/approvals.py:173-200 | HIGH and CRITICAL pass only with a satisfying record; every refusal has its own error |
| Engine.NobleEngine.RequestApproval | noble/engine.py:288-296 | without a token a pending request is announced, filed and logged, and the run still fails |
| Engine.NobleEngine.SelectTool | noble/engine.py:300-323 | action, target kind, network, side effects, sandbox and target are checked in this order |
| Engine.NobleEngine.AcquireLease | noble/engine.py:345-356 | an admitted lease becomes the execution id; rate limit and id conflicts fail the run |
| Engine.NobleEngine.InvokeTool | noble/engine.py:383 | the one place where the tool is called, counted and on record |
| Engine.NobleEngine.ValidateOutput | noble/engine.py:396-405 | only output the validator accepts goes on |
| Engine.NobleEngine.CollectFindings | noble/engine.py:411-462 | all evidence of an observation is stored before the finding that refers to it |
| Engine.NobleEngine.Handle | noble/engine.py:489-528 | state, outcome and error of each kind of exception, and nothing for one nobody catches; the cause is kept |
| Engine.NobleEngine.ReleaseLease | noble/engine.py:530-543 | a failing release marks the run FAILED and appends it unless it is the state already |
| Engine.NobleEngine.FinalAudit | noble/engine.py:544-552 | the FINISHED event is appended, or the run is marked FAILED without touching its history |
| Engine.NobleEngine.Persist | noble/engine.py:577-588 | the result is stored only for a reserved request, or the run is marked FAILED without touching its history |
| Stores.Store.ReserveRequest | noble/store.py:211-232 | reserves exactly the ids that are neither reserved nor finished, whether the call works, fails or fails after commit |
| Stores.Store.PutResult | noble/store.py:234-242 | result in and reservation out in one transaction; a second result changes nothing |
| Stores.Store.AcquireLease | noble/store.py:338-389 | equals the limiter transaction; a rejection restores both tables, its pruning included |
| Stores.Store.ReleaseLease | noble/store.py:391-393 | removes exactly the leases of that id |
| Stores.Store.RecoverStalledLeases | noble/recovery.py:24-31 | removes exactly the leases that expired before now and counts them |
| Stores.Store.RecoverStaleRateCalls | noble/recovery.py:33-39 | removes exactly the calls older than a minute and counts them |
| Stores.Store.PutGrant | noble/store.py:147-152 | grants are write-once |
| Stores.Store.PutApproval | noble/store.py:173-178 | a new record never replaces another |
| Stores.Store.UpdateApproval | noble/store.py:180-195 | compare-and-swap on the stored state alone |
| Stores.Store.AppendAudit | noble/store.py:299-314 | appends one row chained to the last one; a repeated event id changes nothing |
| Stores.Store.PutEvidence | noble/store.py:256-266 | evidence is write-once |
| Stores.Store.PutFinding | noble/store.py:280-285 | findings are write-once and keep their order |
| Stores.Store.ListFindings | noble/store.py:294-297 | the newest findings first, at most so many |
| Stores.Store.Emit | noble/audit.py:15-57 | each stored field is its own input clipped, redacted and quarantined, and free of injection signatures; one row is appended or the call fails |
| Approvals.StepKeeps | noble/approvals.py:95-171 | under any interleaving of reads, checks and swaps, every record was properly decided, no two decisions or revocations of one record succeed, and records only move forward |
| Approvals.Linearizable | noble/approvals.py:95-171 | every step of a call is invisible or is its swap, which equals the atomic form of the call on the table of that moment; a success answers what the atomic form answers |
| Approvals.LinearizableRuns | noble/approvals.py:95-171 | over whole runs, every call that finishes without a store failure answers what its atomic form answers at one of its own steps and has the same effect there; the one exception is a decide that lost the race to mark an expired record, which answers expired and has no effect |
| Approvals.LinearizableIff | noble/approvals.py:95-171 | a finished call has such a moment among its own steps exactly if it did not end by losing that race |
| Approvals.LostExpiryRace | noble/approvals.py:95-171 | a concrete run of two decides that ends in that race: one reads the record as expired, the other, dated earlier, approves it, and the first answers expired |
| Approvals.LegalMovesOnly | noble/store.py:180-195 | stored states only follow PENDING to APPROVED, REJECTED or EXPIRED and APPROVED to REVOKED; terms never change |
| Approvals.ApprovalsOverRuns | noble/approvals.py:95-171 | the same over whole runs: at most one decision of a record ever succeeds, and an approved record was approved in time by a distinct grant holder |
| Approvers.Decide | noble/approvals.py:95-147 | the sequential call equals the atomic form when nothing fails, changes the table to nothing else when something does, and logs before it decides |
| Approvers.Revoke | noble/approvals.py:149-171 | the same for revocation |
| Approvers.Issue | noble/authorization.py:30-94 | a grant appears only if every check passed and its event was logged first; each refusal has its own error |
| Approvers.IssuedCovers | noble/authorization.py:96-129 | an issued grant covers exactly its principal's requests for its target, purpose and action, within its lifetime and privileges |
| Approvers.RolesApart | noble/authorization.py:20-24 | a grant that can approve carries no other privilege, and one that can scan or verify cannot approve |
| ScopeDigest.SameTextIff | noble/approvals.py:33-47 | two snapshots of one policy have the same digest text exactly if target and action read the same with a bar between them |
| ScopeDigest.TextDetermines | noble/approvals.py:33-47 | without a bar in either target, equal texts mean equal target and action |
| ScopeDigest.TextAmbiguous | noble/approvals.py:33-47 | with a bar in a target they do not |
| ScopeDigest.ListsAmbiguous | noble/approvals.py:33-47 | a denial may move between the target and the action list without changing the text |
| ScopeDigest.SameTextExact | noble/approvals.py:33-47 | for all snapshots of any policies: equal texts exactly if the parts between bars, read one after the other, are equal |
| ScopeDigest.BarFreeTextExact | noble/approvals.py:33-47 | without a bar in any part: equal texts exactly if the flat lists of parts are equal |
| ScopeDigest.ScopeEqualExact | noble/approvals.py:33-47 | two snapshots are equal exactly if text, list lengths and bar counts agree: what the digest fails to record |
| ScopeDigest.EditedPolicyExact | noble/approvals.py:33-47 | across an edit of the policy, bar-free snapshots with one text are the same exactly if both deny equally many targets |
| Limiter.PrunedRefinesHistory | noble/store.py:356-389 | with a forward clock the pruned tables give every acquire the verdict of an unbounded history of calls in the closed window and unreleased unexpired leases |
| Limiter.OrderedStampsExact | noble/store.py:356-389 | tables pruned at one moment decide every acquire like the history they stand for exactly if its stamp is no earlier; with an earlier one they over-admit |
| Limiter.RateBoundExact | noble/store.py:356-389 | after any forward run from empty tables ending at now, one more acquire keeps every closed minute within its limits exactly if its stamp is no earlier than now |
| Limiter.TwoSecondsLate | noble/store.py:71-74 | from empty tables, an acquire stamped two seconds before a recovery that commits first: a limit of one admits two calls of one triple within a closed minute |
| Limiter.SkewedRateBound | noble/store.py:356-389 | over every run from empty tables whose stamps are out of order by no more than a skew, every closed window shorter than a minute by the skew keeps to the limits of a triple and of a principal |
| Limiter.SkewExact | noble/store.py:356-389 | windows of a length keep to their limits over all runs of a skew exactly if length and skew come to no more than a minute |
| Limiter.RateBoundOverRuns | noble/store.py:356-389 | no closed minute holds more admissions of a triple, or of a principal, than the limit passed with the last of them |
| Limiter.CleanupsInvisible | noble/recovery.py:24-39 | cleanups inserted anywhere in a forward run change no verdict |
| Limiter.LeaseBound | noble/store.py:367-389 | no event whose concurrency limit is within the bound takes the lease table above it or duplicates an id |
| Limiter.CrashRecovery | noble/store.py:356-389 | an acquire later than every expiry and more than a minute after every call is admitted and leaves only its own rows |
| AuditChain.VerifyAudit | noble/store.py:323-336 | valid exactly if every row is linked; otherwise the count is the index of the first unlinked row |
| AuditChain.AppendsVerify | noble/store.py:299-314 | a table built by appends verifies, with one row per append and the data in order |
| AuditChain.TamperEvident | noble/store.py:299-336 | two verifying tables with one last hash hold the same data, or a collision is produced, or (unequal lengths only) a preimage of 64 zeros |
| AuditChain.DetectCorruption | noble/ledger_integrity.py:103-130 | the verdict over two reads of the table; the unknown-corruption branch is taken exactly when the first read is corrupt and the second is not |
| AuditChain.Localise | noble/ledger_integrity.py:103-130 | over one snapshot verifier and detector name the same row, and the count is the length of the longest verifying prefix |
| AuditChain.PartialRecovery | noble/ledger_integrity.py:132-164 | over its three separate reads of the table, each allowed to differ: when it declines, and that otherwise it exports the longest verifying prefix the verdict named, as far as the third read has it |
| AuditChain.RecoverSnapshot | noble/ledger_integrity.py:132-164 | over one snapshot that only grows: exports the data of exactly the longest verifying prefix, and declines exactly when nothing is corrupt |
| Quarantine.Quarantine | noble/trust.py:77-95 | no signature occurs in the result; hostile exactly if some signature occurred in the stripped, truncated input; otherwise the text is unchanged |
| Quarantine.SweepFixpoint | noble/trust.py:88-92 | after n signatures none of them matches anywhere, although later ones rewrote text earlier ones had cleaned |
| Quarantine.ReplacedCreatesNone | noble/trust.py:88-92 | replacing one signature creates no occurrence of another |
| Quarantine.Idempotent | noble/trust.py:77-95 | a second pass finds nothing and changes nothing |
| Regex.EndsExact | noble/trust.py:46-62 | the backtracking matcher finds exactly the words of the pattern's language |
| Regex.SearchExact | noble/trust.py:88-92 | searching succeeds exactly if some stretch of the text is a word of the pattern |
| Scope.DecisionSpec | noble/scope.py:170-234 | the early-return loops decide by existence alone, and deny wins |
| Scope.OrderFree | noble/scope.py:170-234 | order and repetition of policy entries do not matter |
| Scope.ForbiddingOnlyDenies | noble/scope.py:178-186 | adding forbidden entries can only turn a decision into DENY |
| Scope.BlockMembersAllowed | noble/scope.py:208-229 | every address of an allowed block is matched by the IP branch, and allowed unless a forbidden entry names it |
| Addresses.WithinIffSubset | noble/scope.py:208-229 | the containment test holds exactly if every address of the address space that lies in the block lies in the network, for 32 and 128 bits (section 3.1 of RFC 4632, section 2.3 of RFC 4291) |
| Hostnames.WildcardIsLabelSuffix | noble/scope.py:35-41 | for every pattern and name, capitals and trailing dots included: a wildcard matches exactly the hosts whose normal form is a nonempty part followed by the labels of the normal form of its suffix; the empty suffix is spelt out |
| Hostnames.OwnerWildcard | noble/scope.py:44-49 | for every owner and name: an owner wildcard matches exactly the names that, lower-cased, have one slash, after the lower-cased owner |
| StateMachine.HistoryShape | noble/state_machine.py:17-116 | in a valid history only the last state is terminal, none recurs, and there are at most 14 |
| Validation.Validate | noble/evidence.py:55-165 | accepts exactly the outputs that match the invocation and whose every observation the parent confirms in the source file itself; anything else is InvalidOutput |
| Validation.AcceptedOk | noble/evidence.py:121-159 | accepted static scans claim nothing verified; an accepted fixture run has one verified observation and is complete |
| Findings.BuiltSupports | noble/reasoning.py:43-58 | evidence built for an observation is never refused, and the finding is confirmed exactly if the observation was verified |
| Findings.StoredIsSound | noble/evidence.py:168-234 | once its evidence is stored, a finding passes the reporter's checks |
| Report.Collect | noble/reporting.py:95-122 | returns the newest hundred findings exactly if all of them pass the schema, which is given, and the linkage checks; otherwise InvalidOutput |
| Report.CollectNeverRefuses | noble/reporting.py:95-122 | on every reachable store the linkage checks never refuse |
| Scanner.ScanPython | noble/builtins/scanner.py:43-110 | both limits hold, complete exactly if no warning was raised, observations are a prefix of all sinks, and all of them if complete and below the limit |
| Scanner.CompleteButPartial | noble/builtins/scanner.py:103-104 | exactly when a report claims completeness although it misses something: the limit is reached at the end of a file and a later one has something to say |
| Scanner.CompleteButPartialExample | noble/builtins/scanner.py:103-104 | a concrete input where it does |
| Execution.ReadPipes | noble/execution.py:112-175 | the loop ends, buffers at most the limit plus one chunk, is out of time exactly by the clock since before the worker was started, and on success each buffer is what its own pipe delivered up to end of file |
| Execution.DeliveryIndependent | noble/execution.py:128-175 | what a pipe delivered does not depend on the other one, the order of reports, or the clock |
| Execution.Process.KillGroup | noble/execution.py:51-62 | an unreaped process is reaped with whatever code it had, or waiting for it times out, or the operating system refuses, each with its own error; a reaped one is left alone |
| Execution.Run | noble/execution.py:114-204 | on every exit the worker was reaped or killed, unless the operating system refused; output is bounded; an operating-system error gets out only if the input pipe, an iteration of the loop or a kill raised it; all other faults are those of the runner |

## Left out

- SQLite, its files, permissions and schema versions: tables are maps and sequences, transactions atomic steps.
- SHA-256, JSON printing and UUIDs: an arbitrary digest function, an arbitrary event text, and ids that may collide with stored ones (only lease ids are assumed fresh across runs).
- Concrete redaction patterns: an arbitrary text function.
- Unicode in host and repository names: lower-casing is that of ASCII; IDNA, NFKC, path resolution and URL parsing are done before a target enters the model. Signature matching does use Unicode white space and the case foldings that reach i, s and k.
- Python's AST and the in-memory SQLite reproduction: the calls found in a file and the reproduced rows are given per file.
- Datetimes and floats are reals; only the order of readings matters.
- Risk scoring, the tool registry and policy files: the assessed tier, the tool definition and the policy are inputs, chosen freely for each run and fixed while it runs.
- The report schema: what it demands of a finding is a given function.
- Ledger chains, worker identities, observability and signing hashes: their failures are swallowed by the engine and nothing else reads them there.
- Checkpoints, backup and restore.
- AuditChain.PartialRecovery: does not model the ledger rows of the export, because nothing reads them back.
- The runner's own checks before it starts a worker, resource limits and the worker itself: at the tool call the machine allows any of the runner's errors.
- A worker that outlives a crashed engine: a crashed run simply stops, wherever it was.
- Engine.NobleEngine.Run: models one run without others in between; interleaving is the subject of System and Guarantees.
- Rates.CallsPerMinute: shortens the minute by how far stamps are out of order, because the clock is read before the lock; `Limiter.SkewExact` says that no more can be had.
- Rates.CallsPerTriple: the same.
- Stores.Store.RecoverStalledLeases: counts, deletes and counts again in one step, where the code has three statements of their own, so that under other writers the number it returns can be off; what it deletes is not affected.
- Stores.Store.RecoverStaleRateCalls: the same.
- An interrupt between the last statements of the try block: entering COMPLETED and setting the outcome are one step.
- Guarantees.Completion: says nothing of a run whose exception nobody catches, because such a run does not return.
- Progress.CanComplete: says that the steps exist, not that a scheduler takes them.
- Validation.Validate: file resolution and parsing are total functions; library errors they raise enter the engine as unexpected failures.
- Execution.Run: decoding bytes into text is a given function, because it is library behaviour.
- The command line, doctor, release, provenance, compliance, dashboard and metrics commands.
