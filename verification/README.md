# The certificate lifecycle of goedge-ip-cert, modelled and proved

goedge-ip-cert keeps one TLS certificate per public IPv4 address alive in GoEdge. One run of the program repairs what
earlier runs left behind and then places at most one order at the ACME authority. Five stores that share no transaction
hold its state: the SQLite operation log with the managed certificates, the challenge journal, the foreign challenge
table, the directory of rollback snapshots, and the certificate records of GoEdge, which the service sees again only
through TLS. The process may stop between any two writes, and the new private key exists in memory only.

The project models these stores as classes, every external call as a method whose fate is open (it may succeed, fail
before or after its effect, or end the process before or after its effect), and the runner as methods over them. `Valid()`
of the runner holds on every return, crash returns included; `Services.RunMany` carries it over any sequence of starts,
modes, failures and crashes, and `Services.Live` states what that means for the outside world.

## How it is laid out

- `outcomes.dfy`: errors, outcomes, the clock and the fate of calls.
- `operations.dfy`, `goedge.dfy`, `rollback.dfy`, `challenge.dfy`, `issuer.dfy`: the five stores, the challenge protocol, and
  the authority.
- `scheduler.dfy`: renewal times and backoff, in nanoseconds.
- `lifecycle.dfy`: the durable state as one value (`World`), its history variables, and the invariant `Inv`.
- `lifecycle_rows.dfy`, `lifecycle_steps.dfy`, `lifecycle_world.dfy`, `lifecycle_orders.dfy`, `lifecycle_edge.dfy`: one lemma for
  each part of the invariant and each kind of step, and their compositions.
- `lifecycle_theorems.dfy`: what the invariant means; `lifecycle_runs.dfy`: the steps as a transition system, which states it
  reaches, two runs in which a documented promise fails, and one to an active operation that bears an error.
- `scope.dfy`: what a phase of a run may change; `transitions.dfy`: what a read, a marker hit or a TLS check allows.
- `runner.dfy`: the methods of the runner; `service.dfy`: processes, whole lives, and theorems over them.
- `discovery.dfy`, `lexicographic.dfy`: website discovery and the sort both it and the snapshot listing use.

The history variables of `Lifecycle.History` only record. The objects of the outside world note their own calls:
`EdgeClient.bound`, `EdgeClient.creations`, `EdgeClient.read` and `EdgeClient.asked`, the input each record was created with,
`EdgeClient.discovered`, the target last named for an address, `TLSVerifier.shown` and `TLSVerifier.missed`, and
`Issuer.calls`, `Issuer.placed` and `Issuer.denied`, the instants at which the authority was asked and answered with a
failure. `Runner.Witnessed`, a part of `Valid()`, ties the history to them: an observation in the log was made by a check
that was answered so, at the instant the log names; every order and every create call is in the log, once for each call;
and the instants of orders and refusals are those of the authority.

## Assumptions

- One process at a time: the lock file of `cmd/goedge-ip-cert/main.go:135`.
- The clock moves forward at every call, so `updated_at` strictly increases, and it is past the first second of 1970.
- The renewal policy and the account reference stay the same over the whole life. The program reads them from its
  configuration at every start (`cmd/goedge-ip-cert/main.go:166`); a stored `next_retry_at` or `next_renewal_at` keeps the value
  of the policy it was computed with.
- Drawn values are fresh: operation identifiers, the leaves of the authority, and its challenge tokens. A draw that
  meets a known value is modelled as a failed draw.
- TLS verification is sound and may fail spuriously: it succeeds only when some record for exactly this address carries
  the expected leaf (`internal/lifecycle/runner_test.go:116-132`). A fingerprint determines a certificate.
- Only this service writes the records it manages; the administrator edits policy bindings, which every check reads
  afresh. Rows of other users in the challenge table do not change during a run.
- No foreign challenge row shares domain, token and second with a pending entry (`Unshared`).
  `Challenges.ForeignRowCanBeSelected` shows why this is needed and `Challenges.SelectsOwnRowExactly` says exactly when
  the right row is selected.

## Where the code does less than its documentation says

- `docs/STATE-MACHINE.md:16` lets every step end in ERROR. In the code a certificate that is created is never given up
  except by a renewal that published a snapshot, which then still exists or whose old certificate TLS confirmed since, and a
  bound one never (`LifecycleTheorems.GivenUpOnlyUnderSnapshot`).
- `docs/STATE-MACHINE.md:13` draws a renewal as a continuation of ACTIVE. In the code it is a new operation, and the old one
  stays ACTIVE.
- `docs/STATE-MACHINE.md:45` promises, for certificates that are already ACTIVE, an exponential backoff after temporary errors
  of a renewal, and that security errors stay closed until a person has acted. The two plain `SetError` paths store no
  backoff, and nothing reads category or marker before the next renewal. `LifecycleRuns.InterruptedRenewalHasNoBackoff` gives a
  due renewal of an active certificate that recovery ends as a temporary error (`internal/lifecycle/runner.go:308`), and
  `LifecycleRuns.RejectedRenewalIsOrderedAgain` one whose issued chain fails its checks and is marked for a person
  (`internal/lifecycle/runner.go:282`); in both the next renewal begins one instant later.
  `LifecycleTheorems.OrderedAgainExactly` says when a managed address may be ordered for: exactly when the stored
  `next_retry_at` has passed, whatever category, message and marker say; `LifecycleTheorems.BackoffExactlyByCause` says which
  failures store one. The rollback and the lost key always use count 1 and the first delay (`Runners.Runner.Reschedule`,
  `Runners.Runner.Resume`); only consecutive refused orders grow.
- An ACTIVE operation can bear an error. When the transaction of `internal/state/store.go:323-364` is committed and reported as
  failed, `internal/lifecycle/runner.go:364-378` records the failure on the operation that is already ACTIVE:
  `LifecycleRuns.ActiveOperationCanBearError` gives such a state, and `LifecycleTheorems.ActiveBearsErrorExactly` says that this
  is the only way.
- `Validate` does not bound the jitter by the renewal margin: `Scheduler.WindowFitsExactly` says exactly which parameters renew
  in time, and `Scheduler.ValidatedPolicyCanMissExpiry` gives a policy that passes and does not.
- A challenge insert that took effect and was reported as failed loses its journal entry
  (`internal/challenge/provider.go:44-48`): `Challenges.ReportedFailureCanLoseARow` gives such a state, and the contract of
  `Challenges.Provider.Present` says that a row is orphaned in exactly this case.
- The doubling of the backoff compares with half the cap, so for an odd cap it can reach the cap one nanosecond early:
  `Scheduler.ClosedFormExactness`.

## Model

| member | source | states |
|---|---|---|
| Services.Live | cmd/goedge-ip-cert/main.go:130-204 | Over a whole life, any commands, failures and crashes: every command is handled in its turn (as `RunMany` says); before an address is managed the authority gets at most one order for all interactive commands together plus one per manual command, and never more orders than runs; the order after a failure with a backoff reaches it later than the order that failed plus the stored delay, less one second; GoEdge gets at most one create call per marker; every bound or active operation, first issue or renewal, had its binding and its leaf confirmed by real checks made between its own creation and its last write; under each managed certificate ID GoEdge holds the newest deployed certificate or a side of the snapshot; foreign challenge rows stay |
| Services.RunMany | cmd/goedge-ip-cert/main.go:130-204 | Every command is handled in its turn, in the state that the one before it left: its run is counted, or the process failed before it; a success has delivered for its address as `RunOnce` says; a calm process leaves nothing in flight. The invariant over all stores holds after each, wherever it stopped, and nothing final is undone |
| Services.Process | cmd/goedge-ip-cert/main.go:197-203 | One start: leftover snapshot files are removed, then one run, whose success has delivered for the address as `RunOnce` says; without an account reference nothing is ordered; a calm start in any reachable state leaves nothing in flight, its own order included, and an operation that had a snapshot is ACTIVE exactly when its record held the new certificate, and in ERROR with count 1 otherwise |
| Services.Install | cmd/goedge-ip-cert/main.go:141-202 | A fresh installation beside arbitrary foreign rows and records satisfies the invariant |
| Services.SameCertificateForever | internal/lifecycle/runner.go:161-195 | Once managed, an address keeps server, policy and certificate ID through all later states, and every later operation for it is a renewal of that certificate |
| Services.OrdersOverLife | internal/lifecycle/runner.go:198-227 | First-issue pause: orders before management are bounded by one if some command runs interactively for the address, plus its manual commands; timer commands pay for none |
| Services.FinishedStaysFinished | internal/state/store.go:454-469 | ACTIVE and ERROR are never left, and a final operation keeps its backoff, leaf and certificate |
| Services.EmptyWorldIsValid | internal/state/store.go:74-89 | The empty log satisfies the whole invariant whatever GoEdge holds |
| Runners.Runner.RunOnce | internal/lifecycle/runner.go:139-196 | One run from any reachable state to a reachable state. Success delivers, by the authority's own count of orders: it leaves no renewal behind that was due when the run began, unless the run has just placed it; from a settled state a due renewal or an allowed first issue is placed exactly once, in every mode; a manual run, and an interactive one for an address without operations, leaves the address managed, and an address that is not managed has its newest failure marked for a person; a certificate that was ordered is ACTIVE without an error; nothing is in flight. An order was its address's turn in the state that recovery had left. The run is counted; at most one order and only for its address, none by the timer for an address that stays unmanaged, none without an account reference; no conflict, constraint, unknown-stage or refused-order error is possible; a calm run leaves nothing in flight and finishes an operation under a snapshot on the side its record was on |
| Runners.Runner.Restart | internal/lifecycle/runner.go:139-160 | Without an account reference a run is refused with every row as it was; otherwise recovery comes first: success leaves nothing in flight, a settled state keeps every operation and managed certificate, and a calm recovery succeeds |
| Runners.Runner.Repair | internal/lifecycle/runner.go:149-160 | Challenges, snapshots, operations: success leaves no snapshot, no operation in flight and an empty journal. An operation that had a snapshot ends ACTIVE after a TLS check of this call that showed the new leaf, or in ERROR after one that missed it and one that showed the old leaf; every other ends as its stage prescribes. A calm repair succeeds from every reachable state and takes the side its record was on. Records change only by writing snapshots back; no order, no create call, no new operation |
| Runners.Runner.Proceed | internal/lifecycle/runner.go:161-195 | For a managed address, an order is the order of one new renewal of exactly the managed certificate, created after the backoff it found stored, when due, and after GoEdge confirmed the binding in this call; otherwise it is an allowed first issue for the target GoEdge named. A successful run places what was due or allowed exactly once and leaves the certificate ACTIVE without an error; one that ordered nothing changed no managed certificate |
| Runners.Runner.RunFirstIssue | internal/lifecycle/runner.go:198-227 | The timer never orders; an interactive run orders only without any earlier operation, a manual one only after a failure. An order is one new first issue under its own marker for the server, policy and user that GoEdge named, and in a calm run its answer is counted from where the newest operation had stopped; success leaves the address managed for that target, ACTIVE without an error, or the failure marked for a person |
| Runners.Runner.FirstIssueAttempt | internal/lifecycle/runner.go:199-221 | Orders only when allowed, and a success that was allowed does order; a manual retry goes on with the count of the newest operation of the address, an interactive order starts at zero; on success the newest failure bears the needs-attention marker; the refusal for other operations is unreachable |
| Runners.Runner.RenewIfDue | internal/lifecycle/runner.go:168-195 | An order means a new renewal of the managed certificate, created when no stored backoff reaches its creation, when due, and after a check of the binding made since the call began; a successful run that was due and had no backoff did order and left the certificate ACTIVE without an error; one that did not order changed nothing |
| Runners.Runner.ReadRetry | internal/lifecycle/runner.go:168-174 | Returns the retry stored by the newest operation when no backoff reaches this instant, and nothing only while one lasts |
| Runners.Runner.CheckTarget | internal/lifecycle/runner.go:175-191 | Passes only when discovery names the managed server and policy, the managed record was read during the call and is no CA, no ACME and for exactly this address, and GoEdge confirmed the binding during the call |
| Runners.Runner.StartIssue | internal/lifecycle/runner.go:229-241 | Success leaves the address managed with the discovered server and policy, after exactly one order; the order is one new operation with the target's server, policy and user and its own marker, and ends, in a calm run, active, with the next backoff, or refused for review |
| Runners.Runner.StartRenew | internal/lifecycle/runner.go:243-255 | Success is one order for the managed certificate; the order is one new renewal with the managed server, policy and certificate ID and its own marker, and ends as a first issue does |
| Runners.Runner.ObtainAndContinue | internal/lifecycle/runner.go:257-298 | At most one order; success means the operation is active, for the target it was placed for, and neither it nor its certificate bears an error; an order that the authority refused ends with the next backoff or as a failure of the log, and a calm one leaves nothing in flight: it is active, backed off, or refused for review; the challenge stores stay consistent |
| Runners.Runner.Order | internal/lifecycle/runner.go:261-261 | The call is counted and dated whatever came of it; a leaf it returns is known to nobody, and any failure but a crash is dated as the authority's refusal |
| Runners.Runner.StoreBackoff | internal/lifecycle/runner.go:263-272 | A refused order ends in ERROR with its attempt number plus one, the delay from an instant of this call, and the marker of its kind |
| Runners.Runner.Refuse | internal/lifecycle/runner.go:262-279 | The cause is reported, its backoff stored and, for a renewal, the error on the managed certificate; an error other than the cause is a crash or a failure of the log |
| Runners.Runner.Store | internal/lifecycle/runner.go:280-297 | A chain that fails its checks ends the order in ERROR for review, in the security category, without a backoff and without a leaf; any other is stored, continued and, on success, active |
| Runners.Runner.SaveLeaf | internal/lifecycle/runner.go:287-289 | The stored fingerprint and expiry are those of the key in hand, and no create call has been made yet |
| Runners.Runner.RecoverOperations | internal/lifecycle/runner.go:300-327 | Without a key: records, snapshots and create calls stay as they are; success ends every operation as its stage prescribes: before a leaf was stored in ERROR with nothing to wait for, with a stored leaf ACTIVE or in ERROR with count 1, with a created certificate ACTIVE; a calm recovery succeeds |
| Runners.Runner.RecoverOperation | internal/lifecycle/runner.go:305-325 | One operation of any stage is brought to its end: without a stored leaf to ERROR with nothing to wait for, otherwise to ACTIVE or, when the key is lost, to ERROR with the first backoff; the unknown-stage branch is unreachable |
| Runners.Runner.Resume | internal/lifecycle/runner.go:311-321 | Success is ACTIVE with no error on the operation or its certificate, or, for an operation whose leaf had not reached GoEdge, ERROR with count 1 and the first delay from an instant of this call |
| Runners.Runner.Interrupt | internal/lifecycle/runner.go:307-310 | An order interrupted before its leaf was stored ends in ERROR, with its message and marker and with no backoff |
| Runners.Runner.RecoverRollbacks | internal/lifecycle/runner.go:329-362 | Every snapshot is settled: on the new side after a TLS check of this call that showed the new leaf, on the old side only after one that missed it and one that showed the old leaf; a calm recovery takes the side the record was on; records are only written back from snapshots |
| Runners.Runner.RecoverRollback | internal/lifecycle/runner.go:334-360 | One snapshot: CERT_CREATED after a TLS check of this call that showed the new leaf; ERROR only after a check that missed it and another that showed the old leaf; without failures the side is the one the record was on |
| Runners.Runner.Confirm | internal/lifecycle/runner.go:342-355 | With the new leaf shown by TLS, success means that the record was read in this call and bears that leaf, that the operation is in CERT_CREATED and that the snapshot is gone; the read-back cannot disagree in a calm run |
| Runners.Runner.CatchUp | internal/lifecycle/runner.go:347-351 | The operation records its deployed certificate although recovery never compared fingerprints |
| Runners.Runner.ContinueRecorded | internal/lifecycle/runner.go:364-378 | Success is activation; the error of a failed step is reported unchanged and classified on the operation at whatever stage it reached, unless the log itself fails |
| Runners.Runner.RecordFailure | internal/lifecycle/runner.go:369-377 | Whatever the cause, it is reported unchanged with its category and marker on the operation, and a log that works never hides it |
| Runners.ClassifyError | internal/lifecycle/runner.go:380-391 | Category and marker for every error: authentication anywhere in it wins over schema, schema over configuration, and everything else is transient |
| Runners.PlainErrors | internal/lifecycle/runner.go:139-196 | No error a run may return wraps a conflict, a constraint violation, an unknown stage or a refused order |
| Runners.Runner.ContinueOperation | internal/lifecycle/runner.go:393-431 | Deployed, bound, active; without a key no snapshot appears |
| Runners.Runner.BindPolicy | internal/lifecycle/runner.go:409-425 | Success means that GoEdge confirmed the binding during this call, for renewals too, and that TLS showed the leaf of a first certificate during this call |
| Runners.Runner.Activate | internal/lifecycle/runner.go:426-429 | Success commits: the operation is ACTIVE without an error, and its managed certificate repeats the operation's target and expiry, the account reference and the renewal time computed from the expiry, and is ACTIVE with the second of the commit as its last success and no error |
| Runners.Runner.EnsureCreated | internal/lifecycle/runner.go:433-465 | Success records the one record under the marker: the one found there, with no record changed, or the one made from the key in hand; a lost key is reported only when that record does not exist |
| Runners.Runner.Adopt | internal/lifecycle/runner.go:435-448 | A marker hit is the operation's own record and passes its checks in a calm run |
| Runners.Runner.CreateRecord | internal/lifecycle/runner.go:455-464 | The create call is made once per operation and counted even when its answer is lost; success stores the ID of a record that is on, is named by the marker, has no description and no server name, and holds exactly the verified chain, key, names and times, created for the user of the operation's server |
| Runners.Runner.EnsureUpdated | internal/lifecycle/runner.go:467-526 | Success leaves no snapshot and the new certificate in the record, which keeps every setting; without a key nothing is written |
| Runners.Runner.Replace | internal/lifecycle/runner.go:484-498 | When the record has changed, or on success, a snapshot with every field of the record as it was found is published and complete; success leaves no snapshot and the new certificate, key, names and times in the record, with every setting kept and the new leaf shown during the call |
| Runners.Runner.PutNew | internal/lifecycle/runner.go:499-500 | The one record rewritten is the managed one: it holds exactly the verified chain, key, names and times, and keeps ID, switch, name, description, server name and ACME flag |
| Runners.Runner.CheckNew | internal/lifecycle/runner.go:503-525 | Success of the checks needs the record read during the call, bearing the new leaf, and a TLS check during the call that showed it; when they fail, the outcome is that of a rollback for their error |
| Runners.Runner.RollbackAfterFailure | internal/lifecycle/runner.go:528-533 | After a restoration the cause is reported, the snapshot is gone, the backoff stored and the managed certificate in error; otherwise both the cause and the error of the restoration are found in what is reported |
| Runners.Runner.RestoreOldCertificate | internal/lifecycle/runner.go:535-558 | Success: the old certificate was confirmed by TLS, the snapshot is gone, the managed certificate bears the error, and an operation that had not failed before is in ERROR with its count plus one and the delay from an instant of this call; a failed one is left as it was |
| Runners.Runner.WriteBack | internal/lifecycle/runner.go:536-542 | Success needs a TLS check of this call that showed the old leaf, and any failure but a crash means one that missed it: what the update reported decides nothing |
| Runners.Runner.Reschedule | internal/lifecycle/runner.go:543-549 | Success is ERROR with the operation's count plus one, the delay of that count from an instant of this call, and the given message |
| Lifecycle.LaterIsTransitive | internal/state/store.go:454-469 | What no step undoes, no run undoes |
| LifecycleSteps.MoveKeepsInv | internal/lifecycle/runner.go:257-558 | A stage transition, made from the stage and with the evidence that `MayMove` lists, keeps the invariant over all stores and undoes nothing |
| LifecycleOrders.CreateKeepsInv | internal/lifecycle/runner.go:229-255 | A new order after complete recovery keeps the invariant |
| LifecycleOrders.PromoteKeepsInv | internal/state/store.go:323-364 | Activation of both rows in one transaction keeps the invariant and every target |
| LifecycleOrders.NormalizeKeepsInv | internal/state/store.go:424-434 | Normalizing a failed first issue keeps the invariant |
| LifecycleWorld.ManagedErrorKeepsInv | internal/state/store.go:436-446 | A recorded certificate error keeps the invariant and every target |
| LifecycleEdge.MakeKeepsInv | internal/lifecycle/runner.go:455-459 | The record of a first certificate keeps the invariant |
| LifecycleEdge.PutKeepsInv | internal/lifecycle/runner.go:499-536 | A rewrite under a snapshot, with the new or the saved input, keeps the invariant |
| LifecycleEdge.SaveKeepsInv | internal/lifecycle/runner.go:492-495 | Publishing the snapshot of an untouched record keeps the invariant |
| LifecycleEdge.DropKeepsInv | internal/lifecycle/runner.go:352-355 | A snapshot may go once TLS confirmed the side its operation ended on |
| LifecycleEdge.UntouchedRecord | internal/lifecycle/runner.go:468-491 | Before its own snapshot, a renewal finds the active certificate in its record |
| LifecycleTheorems.EdgeHoldsNewest | docs/STATE-MACHINE.md:39-41 | In every reachable state: without a snapshot GoEdge holds exactly the newest deployed certificate, fingerprint and expiry; with one, the saved old certificate or the new one |
| LifecycleTheorems.HolderIsNewest | internal/lifecycle/runner.go:467-526 | The record of a managed address carries the newest operation in CERT_CREATED, POLICY_BOUND or ACTIVE |
| LifecycleTheorems.CreatedAtMostOnce | docs/STATE-MACHINE.md:37-37 | One create call per operation and one record per marker, across crashes and lost answers |
| LifecycleTheorems.EvidenceBeforeActive | internal/lifecycle/runner.go:409-428 | A bound or active operation had its own binding confirmed by GoEdge and its own leaf shown by TLS, both between its creation and its last write |
| LifecycleTheorems.ManagedAgreesWithLog | internal/state/store.go:323-364 | `managed_certs` repeats the newest activated operation, renewal time included, and its last success is the second of that activation |
| LifecycleTheorems.ActiveBearsErrorExactly | internal/state/store.go:323-364 | An ACTIVE operation bears an error if and only if it was written again after its activation |
| LifecycleTheorems.ManagedErrorExactly | internal/state/store.go:436-446 | A managed certificate is ACTIVE without an error or in ERROR with one, and nothing else |
| LifecycleTheorems.SnapshotGoneIsConfirmed | internal/lifecycle/runner.go:342-357 | A snapshot that is gone was confirmed by TLS, since it was published, on the side its operation ended on |
| LifecycleTheorems.CertificateExactlyWhenCreated | internal/state/store.go:279-284 | An issue operation has a certificate exactly in the three stages after its creation; a renewal or an active operation belongs to a managed address with its target |
| LifecycleTheorems.OnlyFirstIssueFailures | internal/lifecycle/runner.go:202-214 | After recovery an unmanaged address has only failed first issues |
| LifecycleTheorems.StagesRise | docs/STATE-MACHINE.md:5-16 | The stage history of an operation is a path of the graph for its kind, ends at its stage, rises in rank, and has at most six stages |
| LifecycleTheorems.GivenUpOnlyUnderSnapshot | docs/STATE-MACHINE.md:14-16 | In every reachable state, an operation that went from a created certificate to ERROR is a renewal that published a snapshot, which is still there or whose old certificate TLS has confirmed since; a bound one never went there |
| LifecycleTheorems.BackoffExactlyByCause | internal/lifecycle/runner.go:257-325 | A failed operation stores a backoff exactly when it bears a leaf or says that its order was refused; with a leaf the count is 1, otherwise the authority did answer its order with a failure and the count is the attempt number plus one; the backoff is the delay of the count from an instant after the order and its answer |
| LifecycleTheorems.PlainFailureDelaysNothing | internal/lifecycle/runner.go:280-310 | From every reachable state, a plain failure of an order without a leaf leads to a reachable state in which nothing is waited for |
| LifecycleTheorems.FailureDelaysNext | docs/STATE-MACHINE.md:38-45 | After any failure that stored a backoff, whatever its cause, the next renewal comes later than the failure plus its delay, less under one second, and continues its count; and its order reaches the authority later than the failed order by that much |
| LifecycleTheorems.FailureRateBound | docs/STATE-MACHINE.md:45-45 | The orders of renewals that each follow a failure with a backoff span at least the sum of the stored delays, less under one second each, across crashes and restarts |
| LifecycleTheorems.RefusalDelaysNext | internal/lifecycle/runner.go:263-274 | The next order follows a recorded refusal by its delay, less under one second, with the attempt number plus one |
| LifecycleTheorems.OrderRateBound | docs/STATE-MACHINE.md:45-45 | The orders of consecutive refused renewals span at least the sum of their delays, less under one second each, across restarts, and the attempt number grows by one each time |
| LifecycleTheorems.NextContinuesCount | internal/lifecycle/runner.go:211-217 | An operation of either kind starts with the count that the failure before it stored, and at zero after a success |
| LifecycleTheorems.RefusalsCountUp | internal/lifecycle/runner.go:263-272 | Consecutive refused operations of an address, first issues or renewals, are counted one by one from the number the first of them started with |
| LifecycleTheorems.FirstIssuesBackOff | internal/lifecycle/runner.go:211-272 | The refused first issues of an address, from the first one on, store the counts 1, 2, 3 and so on, each with its delay from the failure, and the delays never shrink |
| LifecycleTheorems.OrderedAgainExactly | internal/lifecycle/runner.go:168-174 | In every recovered reachable state, the next renewal of a managed address may begin at an instant if and only if the `next_retry_at` of its newest operation has passed and it continues the stored count, whatever category, message and marker that operation bears |
| LifecycleTheorems.PlainFailureIsOrderedAgain | internal/lifecycle/runner.go:280-310 | After a plain failure of any renewal, of whatever category, the state in which the next renewal has begun at any later instant is reachable too |
| LifecycleTheorems.FirstIssuePause | docs/STATE-MACHINE.md:18-18 | Before management the orders of an address number at most one for its interactive runs together plus its manual runs |
| LifecycleRuns.RunKeepsInv | internal/lifecycle/runner.go:139-573 | Any sequence of allowed steps keeps the invariant over all stores and undoes nothing |
| LifecycleRuns.ReachableIsValid | internal/lifecycle/runner.go:139-573 | Every state that steps reach from a fresh installation satisfies the invariant |
| LifecycleRuns.FirstCertificate | docs/STATE-MACHINE.md:5-12 | For any policy, identifier, address, leaf and expiry, a run of steps leads from a fresh installation to an active certificate with its computed renewal time |
| LifecycleRuns.ActiveOperationCanBearError | internal/lifecycle/runner.go:364-378 | A reachable state with an ACTIVE operation that bears an error: its activation was committed and reported as failed |
| LifecycleRuns.InterruptedRenewalHasNoBackoff | internal/lifecycle/runner.go:307-310 | The documented backoff fails: for any policy, identifiers, address and legal instants, a reachable state in which a due renewal of an active certificate has just ended as a temporary error with nothing to wait for, and a reachable state in which the next renewal has begun one instant later |
| LifecycleRuns.RejectedRenewalIsOrderedAgain | internal/lifecycle/runner.go:280-286 | The documented closing after a security error fails: the same for a due renewal that was ordered, whose chain was rejected, and which is marked for a person |
| Scope.WithinIsTransitive | internal/lifecycle/runner.go:300-362 | What a phase may change composes: frozen records, written-back records, or deployment |
| Scope.RestoreWithin | internal/lifecycle/runner.go:536-536 | A write-back changes one record to exactly what its snapshot saved |
| Transitions.ServedBy | internal/lifecycle/runner.go:513-519 | The leaf TLS shows can only come from the one record its operation may write |
| Transitions.MarkerHit | internal/lifecycle/runner.go:434-447 | A record under the marker of an in-flight operation carries that operation |
| Transitions.MissIsReissuable | internal/lifecycle/runner.go:449-454 | No record under the marker means nothing was created, so ordering again is safe |
| Transitions.StillActive | internal/lifecycle/runner.go:475-483 | Without a snapshot a renewal's record cannot already hold the new leaf |
| Transitions.OldServed | internal/lifecycle/runner.go:537-549 | The old leaf served under a snapshot means the record was restored |
| Transitions.NewServed | internal/lifecycle/runner.go:342-346 | The new leaf served under a snapshot means it is deployed, read-back agrees and the operation has not failed |
| Transitions.NextOrderFits | internal/state/store.go:112-113 | The one-inflight index and the unique marker never refuse the next order |
| Transitions.OneSnapshotAtMost | internal/lifecycle/runner.go:330-334 | There is never more than one snapshot |
| Transitions.OneOperationAtMost | internal/lifecycle/runner.go:301-305 | There is never more than one operation in flight |
| Transitions.RenewalKeepsSettings | internal/lifecycle/runner.go:560-566 | A renewal puts exactly the verified chain, key, names and times into its record and changes none of the administrator's settings |
| Transitions.InputIsExact | internal/lifecycle/runner.go:560-566 | Every field of the record that an operation writes: the verified material, and the settings of the record before it or those of a first certificate |
| LifecycleTheorems.LatestIsNewest | internal/state/store.go:412-422 | The newest row by `updated_at` is the operation created last |
| GoEdge.RestoreIsExact | internal/lifecycle/runner.go:568-573 | Writing a saved input back restores the whole record |
| GoEdge.SavedInputRepeats | internal/lifecycle/runner.go:568-573 | A saved input says every field that the record said, for no particular user |
| GoEdge.EdgeClient.CreateCertificate | internal/goedge/cert.go:9-26 | One new record under a new ID that says every field of the input, or nothing; counted either way |
| GoEdge.EdgeClient.UpdateCertificate | internal/goedge/cert.go:28-38 | The record says every field of the input and keeps its ACME flag, or nothing changes |
| GoEdge.EdgeClient.Certificate | internal/goedge/cert.go:40-55 | Returns the record with this ID, noted with its instant |
| GoEdge.EdgeClient.FindCertificateByMarker | internal/goedge/cert.go:57-82 | The only record with exactly this name; none and several are errors |
| GoEdge.EdgeClient.VerifyCertificateBound | internal/goedge/policy.go:25-40 | Success only when the policy is on and references the certificate as enabled, noted with its instant; not bound only when it is on and does not |
| GoEdge.TLSVerifier.Verify | internal/tlsverify/verifier.go:22-46 | Success only when the address is served with the expected leaf; success and failure are noted with their instant |
| Issuance.Issuer.Obtain | internal/acme/issuer.go:47-92 | Any order of challenge calls and crashes keeps both challenge stores consistent and foreign rows untouched; success is one fresh leaf; the call and its refusal are noted with their instants |
| Issuance.Issuer.Verify | internal/certificate/verify.go:26-87 | Accepts exactly the chains that are complete and signed link by link by authorities, whose leaf is valid now, names the address and nothing else and fits its key; and reads fingerprint, validity and issuer names from it |
| Operations.MarkerNamesOperation | internal/lifecycle/runner.go:234-249 | Equal markers name the same operation, whatever kind and address |
| Operations.OperationStore.CreateOperation | internal/state/store.go:199-218 | One new row, dated by the clock, with the listed columns as given and every other empty, when identifier and marker are new and nothing is in flight for the address; or nothing |
| Operations.OperationStore.BeginRenewal | internal/state/store.go:448-452 | The same with kind and stage of a renewal |
| Operations.OperationStore.UpdateExpected | internal/state/store.go:454-469 | Compare-and-set: one row from exactly the expected stage, or nothing; a conflict only when it was not there |
| Operations.OperationStore.Transition | internal/state/store.go:267-269 | Writes stage and recovery marker |
| Operations.OperationStore.SaveIssued | internal/state/store.go:271-277 | Refuses an incomplete leaf; otherwise writes fingerprint and expiry |
| Operations.OperationStore.SetCertCreated | internal/state/store.go:279-284 | Refuses a non-positive ID; otherwise writes it |
| Operations.OperationStore.SetPolicyBound | internal/state/store.go:286-288 | Moves the stage and clears the marker |
| Operations.OperationStore.SetError | internal/state/store.go:290-293 | Ends the operation without touching its backoff |
| Operations.OperationStore.SetErrorWithRetry | internal/state/store.go:295-299 | Ends the operation and stores its backoff |
| Operations.OperationStore.RecordOperationFailure | internal/state/store.go:301-304 | Keeps the stage and the backoff |
| Operations.OperationStore.SetActive | internal/state/store.go:323-364 | Both rows commit or neither. A commit leaves the operation ACTIVE with empty error columns, and the managed row ACTIVE with its target, expiry, account and renewal time, the second of the commit as last success and empty error columns; a conflict changes nothing |
| Operations.OperationStore.NormalizeFirstIssueFailure | internal/state/store.go:424-434 | Rewrites only the recovery marker, and only of a failed first issue |
| Operations.OperationStore.RecordManagedError | internal/state/store.go:436-446 | Rewrites only state and error columns: ERROR with the given category, message and marker |
| Operations.OperationStore.LatestOperation | internal/state/store.go:412-422 | A row of the address with the greatest `updated_at` |
| Operations.OperationStore.LatestRetry | internal/state/store.go:306-321 | The backoff of that row, zero unless it failed |
| Operations.OperationStore.ListIncompleteOperations | internal/state/store.go:239-265 | Exactly the rows in flight, once each, oldest first |
| Operations.OperationStore.Managed | internal/state/store.go:366-382 | The row of the address, or not found only when there is none |
| Scheduler.RetryDelay | internal/scheduler/policy.go:45-60 | The loop computes the closed form, stays between its bounds and never leaves int64 |
| Scheduler.ClosedFormExactness | internal/scheduler/policy.go:51-53 | The capped doubling is met exactly unless the doubled value is one short of an odd cap, and is then one nanosecond off |
| Scheduler.DelayIsMonotone | internal/scheduler/policy.go:45-60 | The delay never shrinks with the attempt number |
| Scheduler.JitterIsRemainder | internal/scheduler/policy.go:62-68 | The jitter is the remainder of the digest by its bound, and zero without one |
| Scheduler.RenewalWindow | internal/scheduler/policy.go:37-68 | The renewal instant lies in the jitter window before expiry |
| Scheduler.InTimeExactly | internal/scheduler/policy.go:41-43 | Periodic runs renew before expiry exactly when the stored time leaves one whole period |
| Scheduler.RenewalBeforeExpiry | docs/STATE-MACHINE.md:45-45 | Jitter and period that fit the margin guarantee renewal before expiry, truncation included |
| Scheduler.WindowFitsExactly | internal/scheduler/policy.go:27-68 | Every address and expiry is renewed in time, whatever the digest, if and only if the latest renewal that margin and jitter allow leaves one whole period |
| Scheduler.ValidatedPolicyCanMissExpiry | internal/scheduler/policy.go:27-35 | A validated policy and a digest with which every due run comes after expiry |
| Rollback.SnapshotStore.Open | internal/rollback/store.go:35-69 | Published snapshots stay; success leaves no temporary file |
| Rollback.SnapshotStore.Save | internal/rollback/store.go:71-104 | Publishes the whole snapshot or nothing, interrupted anywhere |
| Rollback.SnapshotStore.Load | internal/rollback/store.go:106-133 | Exactly what was published under the identifier |
| Rollback.SnapshotStore.List | internal/rollback/store.go:135-161 | Every published snapshot, strictly by identifier; cannot fail on leftovers once they are removed |
| Rollback.SnapshotStore.Delete | internal/rollback/store.go:163-175 | Removes the snapshot or nothing; removing a missing one succeeds |
| Rollback.WriteThenList | internal/rollback/store.go:50-161 | Any writes, interrupted anywhere, then a start: the listing is exactly the snapshots whose rename happened and whose removal did not |
| Rollback.NewestWriteDecides | internal/rollback/store.go:71-175 | For each identifier the newest write that took place decides what is listed |
| Rollback.RenamePublishes | internal/rollback/store.go:100-102 | The rename is what publishes |
| Rollback.TempIsInvisible | internal/rollback/store.go:79-99 | No content of a temporary file changes what is published |
| Challenges.Provider.Present | internal/challenge/provider.go:31-62 | Cut anywhere, an inserted row has exactly one entry, dated by the second of the call; it is orphaned exactly when a reported failure had inserted it and its entry was dropped; nobody else's row changes |
| Challenges.Provider.CleanUp | internal/challenge/provider.go:64-82 | At most one row goes, only the operation's own when rows are not shared; no match and several matches change nothing and keep the entry |
| Challenges.Recover | internal/challenge/provider.go:84-108 | Success leaves the journal empty and only the rows of others; restartable anywhere; ambiguity is impossible when rows are not shared; a calm recovery succeeds |
| Challenges.RecoverOne | internal/challenge/provider.go:89-105 | One entry: its row first, then the entry |
| Challenges.ResolveOwned | internal/challenge/provider.go:110-125 | The recorded row, or the sole match; none and several are told apart |
| Challenges.SelectsOwnRowExactly | internal/challenge/provider.go:114-124 | An entry without a row ID selects its own row exactly when that row is still there |
| Challenges.ForeignRowCanBeSelected | internal/challenge/provider.go:114-124 | A concrete state in which a shared second selects a foreign row |
| Challenges.UnsharedIsUnambiguous | internal/challenge/provider.go:121-123 | Without shared rows no entry is ambiguous |
| Challenges.OrphanIsUncovered | internal/challenge/provider.go:44-48 | A row whose entry was dropped is out of reach of every later recovery |
| Challenges.ReportedFailureCanLoseARow | internal/challenge/provider.go:44-48 | A concrete row lost to a failure reported after its insert |
| Challenges.ChallengeTable.CheckSchema | internal/challenge/mysql.go:40-60 | Success sets the flag without which every other call on the table is refused, as `Create`, `Delete` and `FindOwned` ensure |
| Challenges.ChallengeTable.Create | internal/challenge/mysql.go:151-175 | One row under a new ID, dated by its caller or else by the clock, or none |
| Challenges.ChallengeTable.Delete | internal/challenge/mysql.go:177-200 | At most the one row selected by ID, task, domain and token; not found only when nothing matches; refused before the schema check |
| Challenges.ChallengeTable.FindOwned | internal/challenge/mysql.go:202-222 | Exactly the matching rows, by row ID; refused before the schema check |
| Challenges.ChallengeJournal.BeginChallenge | internal/state/challenge.go:12-31 | A new entry, and only while its operation presents a challenge |
| Challenges.ChallengeJournal.SetChallengeRowID | internal/state/challenge.go:33-46 | Records a row ID once |
| Challenges.ChallengeJournal.PendingChallenge | internal/state/challenge.go:48-57 | The entry, or not found only when there is none |
| Challenges.ChallengeJournal.ListPendingChallenges | internal/state/challenge.go:59-75 | Every entry once, by creation time and then by operation identifier |
| Challenges.ChallengeJournal.CompleteChallenge | internal/state/challenge.go:77-81 | Removes one entry, or nothing |
| Discovery.Directory.ListEligibleWebsites | internal/goedge/server.go:112-162 | Over honest pages: strictly by address, exactly the eligible websites whose address nobody shares |
| Discovery.Compact | internal/goedge/server.go:153-159 | Compacting in place equals filtering the original contents |
| Discovery.CountAddresses | internal/goedge/server.go:149-152 | The counts are the occurrences |
| Discovery.CountsAlone | internal/goedge/server.go:155-155 | A count of one means that no other website has the address |
| Discovery.KeepsExactlyAlone | internal/goedge/server.go:153-159 | The filter keeps exactly the unshared websites |
| Discovery.SitesAreEligible | internal/goedge/server.go:136-144 | A website is collected exactly for an eligible server, and describes that server |
| Discovery.Directory.EligibleWebsite | internal/goedge/server.go:164-206 | The branches decide eligibility condition by condition, every field of the website comes from its server, and the names are redacted |
| Discovery.Directory.ClusterNodeState | internal/goedge/server.go:208-230 | Valid and online exactly when some node is installed and on, and up |
| Discovery.Directory.ContainsExactName | internal/goedge/server.go:95-107 | The loops find an exact full name or sub-name |
| Discovery.Directory.DiscoverServer | internal/goedge/server.go:30-93 | The one server that names the address, with HTTPS on and a policy that is referenced and on: the target is its ID, its user and that policy; each refusal says why |
| Discovery.FoundIsTheOnlyOne | internal/goedge/server.go:83-92 | With an honest keyword search, the target is the ID, the user and the enabled policy of the only server of GoEdge that names the address |
| Lexicographic.LessExactly | internal/goedge/server.go:160-160 | The order of both listings ascends by bytes: at the first place where two strings part, the smaller one ends or has the smaller character |

## Left out

- The HTTP client of GoEdge, its token refresh and JSON envelopes: every call is a method that may fail before or after its effect.
- ACME, the parsing of X.509 and the TLS handshake: an order and the TLS check are methods with contracts, and a signature is a relation between certificates.
- SQL text, pragmas, the legacy schema migration and the information_schema guard: only the table semantics and the `checked` flag stay.
- Configuration, bootstrap, the text rules of redaction and the IPv4 parser: an address is a key; whether it is public, and what redaction makes of a name, are parameters of discovery.
- The user interface, shell scripts, packaging, the flock call, file permissions, symlink checks and fsync: a single writer and an atomic rename are assumed.
- DryRun and ListManaged: read-only.
- The SHA-256 digest of the jitter: a function parameter of the policy.
- Changes that other users make to the challenge table during a run, and edits of the managed records by an administrator.
- Issuance.Issuer.Obtain: account registration and the real sequence of lego's calls are left open; any sequence of challenge calls is allowed.
- GoEdge.EdgeClient.DiscoverServer: names an arbitrary target on each call, because the administrator may change it; Discovery.Directory.DiscoverServer models the search itself.
- GoEdge.EdgeClient.FindCertificateByMarker: searches all records, while the code reads the first 100 hits of a keyword search.
- Runners.Runner.ContinueRecorded: when the cause is itself an error of the outside world, an equal error of the log cannot be told apart from it; in a run whose calls succeed the cause is always recorded.
- Operations.OperationStore.ListIncompleteOperations: one fate for the whole listing, while the code reads each row in its own query.
- Runners.Runner.FreshOperationID: treats a colliding random draw as a failed draw, which is how the freshness assumption enters.
