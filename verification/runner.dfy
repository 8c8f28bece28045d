/** The lifecycle engine: one run repairs what an earlier run left, then starts at most one order. */
module Runners {
  import opened Outcomes
  import opened Environments
  import opened Operations
  import opened GoEdge
  import opened Rollback
  import opened Scheduler
  import opened Challenges
  import opened Issuance
  import opened Lifecycle
  import opened LifecycleSteps
  import opened LifecycleWorld
  import opened LifecycleOrders
  import opened LifecycleEdge
  import opened LifecycleTheorems
  import opened Scope
  import opened Transitions

  /** The errors a run may end with. Conflicts, constraint violations, unknown stages and refused orders are not
      among them. */
  predicate Plain(e: Error)
  {
    match e
    case Joined(first, second) => Plain(first) && Plain(second)
    case Conflict | Constraint | UnknownStage | OrderRefused | ReissueRequired => false
    case _ => true
  }

  /** Nothing that a plain error wraps is one of the service's own control errors. */
  lemma {:induction false} PlainErrors(e: Error)
    requires Plain(e)
    ensures !Is(e, Conflict) && !Is(e, Constraint) && !Is(e, UnknownStage) && !Is(e, OrderRefused)
            && !Is(e, ReissueRequired)
  {
    if e.Joined? {
      PlainErrors(e.first);
      PlainErrors(e.second);
    }
  }

  lemma OnlyLostKeys(e: Error)
    ensures Plain(e) ==> !Is(e, ReissueRequired)
    ensures Is(ReissueRequired, ReissueRequired)
  {
    if Plain(e) {
      PlainErrors(e);
    }
  }

  lemma CallErrorsArePlain(e: Error)
    ensures e.Crashed? || e.NotFound? || e.InvalidArgument? || e.CertificateNotFound? || e.Rejected? || External(e) ==>
              Plain(e) && e != ReissueRequired
    ensures External(e) || e.Crashed? ==> e != Rejected
    ensures !Plain(ReissueRequired)
  {
  }

  /** Both errors of a joined one are found in it. */
  lemma JoinedWraps(first: Error, second: Error)
    ensures Is(Joined(first, second), first) && Is(Joined(first, second), second) && Is(first, first)
  {
  }

  lemma JoinedIsPlain(first: Error, second: Error)
    requires Plain(first) && Plain(second)
    ensures Plain(Joined(first, second))
  {
  }

  /** The category decides the marker. An authentication error wrapped anywhere wins over a schema mismatch, and that
      over an error of the administrator's configuration. */
  function ClassifyError(e: Error): (c: (string, string))
    ensures c.0 == "auth" <==> Is(e, Authentication)
    ensures c.0 == "schema" <==> Is(e, SchemaMismatch) && !Is(e, Authentication)
    ensures c.0 == "config" <==> (Is(e, CertificateNotBound) || Is(e, MultipleServers) || Is(e, ServerNotFound))
                                 && !Is(e, Authentication) && !Is(e, SchemaMismatch)
    ensures c.0 in {"auth", "schema", "config", "transient"}
    ensures c.1 == "fix-goedge-credentials" <==> c.0 == "auth"
    ensures c.1 == "review-goedge-schema" <==> c.0 == "schema"
    ensures c.1 == "manual-reconciliation" <==> c.0 == "config"
    ensures c.1 == "retry-integration-step" <==> c.0 == "transient"
  {
    if Is(e, Authentication) then ("auth", "fix-goedge-credentials")
    else if Is(e, SchemaMismatch) then ("schema", "review-goedge-schema")
    else if Is(e, CertificateNotBound) || Is(e, MultipleServers) || Is(e, ServerNotFound)
    then ("config", "manual-reconciliation")
    else ("transient", "retry-integration-step")
  }

  class Runner {
    const env: Environment
    const state: OperationStore
    const table: ChallengeTable
    const journal: ChallengeJournal
    const edge: EdgeClient
    const issuer: Issuer
    const rollbacks: SnapshotStore
    const tls: TLSVerifier
    const schedule: Policy
    const accountReference: string
    /** History variables, and the instant they speak of. */
    ghost var h: History
    ghost var clock: int

    // -------------------------------------------------------------- the state and its invariant

    ghost predicate Wired()
    {
      && state.env == env && table.env == env && journal.env == env && journal.store == state && edge.env == env
      && issuer.env == env && issuer.table == table && issuer.journal == journal && rollbacks.env == env
      && tls.edge == edge
      && schedule.Validate() && schedule.InRange()
    }

    ghost function W(): World
      reads this`h, this`clock, state`operations, state`managed, edge`certs, rollbacks`snapshots, issuer`issued
    {
      World(state.operations, state.managed, rollbacks.snapshots, edge.certs, issuer.issued, clock, h)
    }

    /** The history speaks of real calls: the checks, the orders and the create calls of the outside objects. */
    ghost predicate Witnessed()
      reads this`h, edge`bound, edge`creations, tls`shown, tls`missed, issuer`calls, issuer`placed, issuer`denied
    {
      && Seen(h.log, tls.shown, tls.missed, edge.bound) && Counted(h.log, h.marks, issuer.calls, edge.creations)
      && Timed(h, issuer.placed, issuer.denied)
    }

    /** Holds on every return of every method, crash returns included. */
    ghost predicate Valid()
      reads this, env, state, edge, rollbacks, issuer, tls
    {
      Wired() && edge.Valid() && rollbacks.Valid() && Witnessed() && Inv(W(), schedule) && clock <= env.now
    }

    /** The challenge stores, which the integration steps never touch. */
    ghost predicate ChallengesOk()
      reads table, journal
    {
      Consistent(table, journal) && Isolated(table, journal)
    }

    /** `op` is what the log holds. */
    ghost predicate Reads(op: Operation)
      reads state`operations
    {
      op.id in state.operations && state.operations[op.id] == op
    }

    /** What a stage transition of one operation promises its caller. */
    ghost predicate Ends(id: string, r: Outcome, stage: Stage)
      reads state`operations, env`calm
    {
      && id in state.operations
      && (r.Ok? ==> state.operations[id].stage == stage)
      && (r.Err? ==> r.error == Crashed || External(r.error))
      && (env.calm ==> r.Ok?)
    }

    /** The operation failed at an instant of this call, as its `count`-th failure in a row, and the backoff of that
        count from that instant is stored. */
    ghost predicate BacksOff(id: string, count: int, from: int)
      reads this`h, this`clock, state`operations
    {
      && id in state.operations && state.operations[id].stage == Stage.Error && state.operations[id].retryCount == count
      && id in h.failedAt && from <= h.failedAt[id] <= clock
      && state.operations[id].nextRetryAt == StoredRetry(schedule, count - 1, h.failedAt[id])
    }

    lemma BacksOffSince(id: string, count: int, from: int, later: int)
      requires BacksOff(id, count, later) && from <= later
      ensures BacksOff(id, count, from)
    {
    }

    /** What a failed operation says of its failure. */
    ghost predicate Explains(id: string, category: string, message: string, marker: string)
      reads state`operations
    {
      && id in state.operations && state.operations[id].errorCategory == category
      && state.operations[id].errorMessage == message && state.operations[id].recoveryMarker == marker
    }

    /** The managed certificate bears this error, and the next run may order again. */
    ghost predicate Complains(ip: string, message: string)
      reads state`managed
    {
      && ip in state.managed && state.managed[ip].state == Stage.Error
      && state.managed[ip].lastErrorCategory == "transient" && state.managed[ip].lastError == message
      && state.managed[ip].recoveryMarker == "retry-new-order"
    }

    /** The managed certificate of the address is ACTIVE and bears no error. */
    ghost predicate Healthy(ip: string)
      reads state`managed
    {
      ip in state.managed && ErrorFree(state.managed[ip])
    }

    /** The operation is ACTIVE, and neither it nor its managed certificate bears an error. */
    ghost predicate Flawless(id: string)
      reads state
    {
      && id in state.operations && state.operations[id].stage == Active && state.operations[id].errorCategory == ""
      && state.operations[id].errorMessage == "" && state.operations[id].recoveryMarker == ""
      && Healthy(state.operations[id].ipv4)
    }

    constructor (env: Environment, state: OperationStore, table: ChallengeTable, journal: ChallengeJournal,
                 edge: EdgeClient,
                 issuer: Issuer, rollbacks: SnapshotStore, tls: TLSVerifier, schedule: Policy, accountReference: string)
      ensures this.env == env && this.state == state && this.table == table && this.journal == journal
              && this.edge == edge
      ensures this.issuer == issuer && this.rollbacks == rollbacks && this.tls == tls && this.schedule == schedule
      ensures this.accountReference == accountReference && h == NoHistory && clock == env.now
    {
      this.env, this.state, this.table, this.journal, this.edge := env, state, table, journal, edge;
      this.issuer, this.rollbacks, this.tls, this.schedule := issuer, rollbacks, tls, schedule;
      this.accountReference := accountReference;
      this.h, this.clock := NoHistory, env.now;
    }

    /** A hook between two steps: the process may stop here, or the hook may fail. */
    method CrashPoint() returns (r: Outcome)
      requires Valid()
      modifies env`now
      ensures Valid() && env.now > old(env.now)
      ensures r.Err? ==> r.error == Crashed || External(r.error)
      ensures env.calm ==> r.Ok?
    {
      hide Inv, Seen, Counted, EdgeClient.Valid, SnapshotStore.Valid;
      var fate := env.Draw();
      r := env.Report(fate);
    }

    // -------------------------------------------------------------- the history follows the stores

    ghost method Tick(start: World, permit: Permit)
      requires Valid() && Within(start, W(), permit)
      modifies this`clock
      ensures Valid() && Within(start, W(), permit)
      ensures clock == env.now && W() == old(W()).(now := env.now)
    {
      hide Inv, Seen, Counted, Within, Later;
      TickKeepsInv(W(), schedule, env.now);
      clock := env.now;
      RowStepWithin(old(W()), W(), permit);
      WithinIsTransitive(start, old(W()), W(), permit);
    }

    /** A stage transition whose write has just been answered with `r`. */
    ghost method FollowMove(start: World, w: World, permit: Permit, id: string, expected: Stage, next: Stage,
                            patch: Patch, failedAt: int, r: Outcome)
      requires Wired() && edge.Valid() && rollbacks.Valid() && Witnessed() && Inv(w, schedule)
               && Within(start, w, permit) && MayMove(w, schedule, id, next, patch, failedAt)
      requires w.now < env.now && W() == w.(rows := state.operations)
      requires id in w.rows && w.rows[id].stage == expected
      requires CompareAndSet(w.rows, state.operations, id, expected, next, patch, env.now, r, env.calm)
      modifies this`clock, this`h
      ensures Valid() && Within(start, W(), permit) && clock >= w.now
      ensures W() == w || W() == Moved(w, id, next, patch, failedAt, env.now)
      ensures r.Ok? ==> W() == Moved(w, id, next, patch, failedAt, env.now)
      ensures Ends(id, r, next) && r != Err(Conflict)
    {
      hide Inv, Seen, Counted, Within, Later, MayMove, Patched, EdgeClient.Valid, SnapshotStore.Valid;
      if state.operations == w.rows[id := Patched(w.rows[id], next, patch, env.now)] {
        MoveKeepsInv(w, schedule, id, next, patch, failedAt, env.now);
        PatchedStage(w.rows[id], next, patch, env.now);
        h, clock := Moved(w, id, next, patch, failedAt, env.now).h, env.now;
        RowStepWithin(w, W(), permit);
        WithinIsTransitive(start, w, W(), permit);
      }
    }

    ghost method FollowLog(start: World, permit: Permit, e: Event)
      requires Observation(e) && MayLog(W(), e) && Witnesses(e, tls.shown, tls.missed, edge.bound)
      requires Valid() && Within(start, W(), permit)
      modifies this`h
      ensures W() == Logged(old(W()), e)
      ensures Valid() && Within(start, W(), permit)
    {
      hide Inv, Seen, Counted, Within, Later, MayLog, Witnesses;
      LogKeepsInv(W(), schedule, e);
      LogKeepsSeen(h.log, tls.shown, tls.missed, edge.bound, e);
      ObservationKeepsCounted(h.log, h.marks, issuer.calls, edge.creations, e);
      h := Logged(W(), e).h;
      LogWithin(old(W()), e, permit);
      WithinIsTransitive(start, old(W()), W(), permit);
    }

    /** The TLS check, and what its success leaves in the history: the leaf and the instant of the answer. */
    method VerifyTls(ip: string, fingerprint: string, ghost start: World, ghost permit: Permit) returns (r: Outcome)
      requires Valid() && Within(start, W(), permit)
      modifies this`h, this`clock, tls`shown, tls`missed, env`now
      ensures h == old(h).(log := h.log) && old(h.log) <= h.log && env.now >= old(env.now) && clock >= old(clock)
      ensures r.Ok? ==> fingerprint != "" && Serves(edge.certs, ip, fingerprint)
      ensures r.Ok? ==> TlsSeen(ip, fingerprint, clock) in h.log && old(env.now) < clock == env.now
      ensures r.Err? && !r.IsCrash() && fingerprint != "" ==>
                TlsMissed(ip, fingerprint, clock) in h.log && old(env.now) < clock == env.now
      ensures r.Err? ==> Plain(r.error)
      ensures env.calm ==> (r.Ok? <==> fingerprint != "" && Serves(edge.certs, ip, fingerprint)) && !r.IsCrash()
      ensures Valid() && Within(start, W(), permit)
    {
      hide Inv, Seen, Counted, Within, Later, Serves, EdgeClient.Valid, SnapshotStore.Valid;
      r := tls.Verify(ip, fingerprint);
      SeenGrows(h.log, old(tls.shown), old(tls.missed), edge.bound, tls.shown, tls.missed, edge.bound);
      if r.Ok? {
        FollowLog(start, permit, TlsSeen(ip, fingerprint, env.now));
        Tick(start, permit);
      } else if !r.IsCrash() && fingerprint != "" {
        FollowLog(start, permit, TlsMissed(ip, fingerprint, env.now));
        Tick(start, permit);
      }
    }

    /** The administrator's binding, and what its confirmation leaves in the history. */
    method VerifyBound(policyID: int, certID: int, ghost start: World, ghost permit: Permit) returns (r: Outcome)
      requires Valid() && Within(start, W(), permit)
      modifies this`h, this`clock, edge`bound, env`now
      ensures h == old(h).(log := h.log) && old(h.log) <= h.log && env.now >= old(env.now) && clock >= old(clock)
      ensures r.Ok? ==> BoundSeen(policyID, certID, clock) in h.log && old(env.now) < clock == env.now
      ensures r.Err? ==> Plain(r.error)
      ensures env.calm ==> r.Ok?
      ensures Valid() && Within(start, W(), permit)
    {
      hide Inv, Seen, Counted, Within, Later, EdgeClient.Valid, SnapshotStore.Valid;
      ghost var policy;
      r, policy := edge.VerifyCertificateBound(policyID, certID);
      SeenGrows(h.log, tls.shown, tls.missed, old(edge.bound), tls.shown, tls.missed, edge.bound);
      if r.Ok? {
        FollowLog(start, permit, BoundSeen(policyID, certID, env.now));
        Tick(start, permit);
      }
    }

    /** A create call: counted whatever came of it. */
    ghost method FollowMake(start: World, w: World, creations: multiset<string>, id: string, input: CertificateInput,
                            c: int)
      requires MayMake(w, id, input, c) && MayLog(w, CreateCalled(id))
      requires W() == w || W() == w.(certs := w.certs[c := Stored(input.(id := c), false)])
      requires edge.creations == creations + multiset{input.name}
      requires Seen(h.log, tls.shown, tls.missed, edge.bound) && Counted(h.log, h.marks, issuer.calls, creations)
               && Timed(h, issuer.placed, issuer.denied)
      requires Wired() && edge.Valid() && rollbacks.Valid() && Inv(w, schedule) && Within(start, w, Deploy)
               && w.now <= env.now
      modifies this`h
      ensures W() == Logged(w, CreateCalled(id)) || W() == RecordMade(Logged(w, CreateCalled(id)), id, input, c)
      ensures c in edge.certs ==> W() == RecordMade(Logged(w, CreateCalled(id)), id, input, c)
      ensures Valid() && Within(start, W(), Deploy)
    {
      hide Inv, Seen, Counted, Within, Later, MayLog;
      ghost var v := Logged(w, CreateCalled(id));
      LogKeepsInv(w, schedule, CreateCalled(id));
      LogKeepsSeen(h.log, tls.shown, tls.missed, edge.bound, CreateCalled(id));
      CreateCallKeepsCounted(w, schedule, issuer.calls, creations, id);
      LogWithin(w, CreateCalled(id), Deploy);
      WithinIsTransitive(start, w, v, Deploy);
      assert c !in w.certs && MayMake(v, id, input, c);
      hide MayMake;
      if edge.certs != w.certs {
        MakeKeepsInv(v, schedule, id, input, c);
        h := RecordMade(v, id, input, c).h;
        RowsWithin(v, W());
        WithinIsTransitive(start, v, W(), Deploy);
      } else {
        h := v.h;
      }
    }

    ghost method FollowPut(start: World, w: World, permit: Permit, id: string, input: CertificateInput, holder: string)
      requires Wired() && edge.Valid() && rollbacks.Valid() && Witnessed() && Inv(w, schedule)
               && Within(start, w, permit) && MayPut(w, id, input, holder) && w.now <= env.now
      requires || permit.Deploy?
               || (permit.Restore? && input == w.snapshots[id].previous && w.rows[id].ipv4 in w.h.active
                   && holder == w.h.active[w.rows[id].ipv4])
      requires W() == w || W() == w.(certs := w.certs[input.id := Stored(input, w.certs[input.id].isACME)])
      modifies this`h
      ensures Valid() && Within(start, W(), permit)
      ensures W() == w || W() == RecordPut(w, id, input, holder)
      ensures edge.certs != w.certs ==> W() == RecordPut(w, id, input, holder)
    {
      hide Inv, Seen, Counted, Within, Later;
      assert id in w.rows && w.rows[id].certID == input.id && input.id in w.certs && id in w.snapshots;
      if edge.certs != w.certs {
        PutKeepsInv(w, schedule, id, input, holder);
        h := RecordPut(w, id, input, holder).h;
        hide MayPut;
        if permit.Deploy? {
          RowsWithin(w, W());
        } else {
          RestoreWithin(w, schedule, id, permit);
        }
        WithinIsTransitive(start, w, W(), permit);
      }
    }

    ghost method FollowSave(start: World, w: World, id: string, sn: Snapshot)
      requires Wired() && edge.Valid() && rollbacks.Valid() && Witnessed() && Inv(w, schedule)
               && Within(start, w, Deploy) && w.now <= env.now
      requires W() == w || (MaySave(w, id, sn) && W() == w.(snapshots := w.snapshots[id := sn]))
      modifies this`h
      ensures Valid() && Within(start, W(), Deploy)
      ensures W() == w || W() == SnapshotSaved(w, id, sn)
      ensures rollbacks.snapshots != w.snapshots ==> W() == SnapshotSaved(w, id, sn)
    {
      hide Inv, Seen, Counted, Within, Later, MaySave;
      if W() != w {
        SaveKeepsInv(w, schedule, id, sn);
        h := SnapshotSaved(w, id, sn).h;
        RowsWithin(w, W());
        WithinIsTransitive(start, w, W(), Deploy);
      }
    }

    ghost method FollowDrop(start: World, w: World, permit: Permit, id: string)
      requires Wired() && edge.Valid() && rollbacks.Valid() && Witnessed() && Inv(w, schedule)
               && Within(start, w, permit) && MayDrop(w, id) && w.now <= env.now
      requires !permit.Frozen? && (W() == w || W() == SnapshotDropped(w, id))
      ensures Valid() && Within(start, W(), permit)
    {
      hide Inv, Seen, Counted, Within, Later, MayDrop;
      if W() != w {
        DropKeepsInv(w, schedule, id);
        DropWithin(w, id, permit);
        WithinIsTransitive(start, w, W(), permit);
      }
    }

    ghost method FollowManagedError(start: World, w: World, permit: Permit, ip: string, category: string,
                                    message: string, marker: string)
      requires Wired() && edge.Valid() && rollbacks.Valid() && Witnessed() && Inv(w, schedule)
               && Within(start, w, permit) && ip in w.managed && w.now <= env.now && message != ""
      requires W() == w || W() == WithManagedError(w, ip, category, message, marker)
      ensures Valid() && Within(start, W(), permit)
    {
      hide Inv, Seen, Counted, Within, Later;
      if W() != w {
        ManagedErrorKeepsInv(w, schedule, ip, category, message, marker);
        RowStepWithin(w, W(), permit);
        WithinIsTransitive(start, w, W(), permit);
      }
    }

    ghost method FollowActive(start: World, w: World, permit: Permit, id: string, nextRenewalAt: int)
      requires Wired() && edge.Valid() && rollbacks.Valid() && Witnessed() && Inv(w, schedule)
               && Within(start, w, permit) && MayActivate(w, schedule, id, nextRenewalAt)
      requires w.now < env.now
      requires var o := w.rows[id];
               W() == w || W() == w.(rows := w.rows[id := Activated(o, env.now)],
                                     managed := w.managed[o.ipv4 :=
                                                 ManagedRow(o, accountReference, nextRenewalAt, env.now)])
      modifies this`h, this`clock
      ensures Valid() && Within(start, W(), permit)
      ensures W() == w || W() == Promoted(w, id, accountReference, nextRenewalAt, env.now)
    {
      hide Inv, Seen, Counted, Within, Later, Activated, ManagedRow;
      assert id in w.rows;
      hide MayActivate;
      if W() != w {
        PromoteKeepsInv(w, schedule, id, accountReference, nextRenewalAt, env.now);
        h, clock := Promoted(w, id, accountReference, nextRenewalAt, env.now).h, env.now;
        RowStepWithin(w, W(), permit);
        WithinIsTransitive(start, w, W(), permit);
      }
    }

    // Facts of the present state, for methods that need no more of its invariant.

    lemma HistoryNow()
      ensures W().h == h
    {
    }

    lemma InvNow()
      requires Valid()
      ensures Inv(W(), schedule)
    {
      hide Inv;
    }

    lemma SavedNow(start: World, id: string)
      requires Within(start, W(), Deploy) && id in start.h.saved
      ensures id in h.saved && h.saved[id] == start.h.saved[id]
    {
    }

    lemma RowsNow()
      ensures W().rows == state.operations
    {
    }

    lemma LeafNow(start: World, permit: Permit, id: string)
      requires Within(start, W(), permit) && id in start.rows && start.rows[id].certFingerprint != ""
      ensures id in state.operations && state.operations[id].certFingerprint == start.rows[id].certFingerprint
    {
      WithinKeepsLeaf(start, W(), permit, id);
    }

    lemma KeepsLast(start: World, permit: Permit)
      requires Within(start, W(), permit)
      ensures h.last == start.h.last
    {
    }

    lemma InflightNow(op: Operation)
      requires Reads(op) && Inflight(op.stage) && Valid()
      ensures op.id == h.last && op.retryCount == 0 && op.nextRetryAt == 0 && op.updatedAt <= clock <= env.now
      ensures op.certFingerprint != "" <==> op.stage in {CertIssued, CertCreated, PolicyBound}
      ensures op.stage in {New, Renewing, ChallengePresent, CertIssued, CertCreated, PolicyBound}
    {
      hide Inv;
      InflightRow(W(), schedule, op.id);
    }

    lemma RenewalNow(id: string)
      requires Valid() && id in state.operations && Inflight(state.operations[id].stage)
      ensures state.operations[id].kind == Renew ==> state.operations[id].ipv4 in state.managed
    {
      hide Inv;
      InflightRow(W(), schedule, id);
    }

    lemma SettledNow(id: string)
      requires Valid() && rollbacks.snapshots == map[] && id == h.last && id in state.operations
               && !Inflight(state.operations[id].stage)
      ensures Settled(W())
    {
      hide Inv;
      LastIsOver(W(), schedule);
    }

    lemma SnapshotNow(id: string)
      requires Valid() && id in rollbacks.snapshots
      ensures id in state.operations && state.operations[id].ipv4 in state.managed && IsOperationID(id)
      ensures rollbacks.snapshots[id].operationID == id && rollbacks.snapshots[id].ipv4 == state.operations[id].ipv4
      ensures rollbacks.snapshots[id].oldFingerprint != "" && clock <= env.now
    {
      hide Inv, IsOperationID, MayPut;
      SnapshotFacts(W(), schedule, id);
    }

    lemma ReissuableNow(id: string)
      requires Reissuable(W(), id)
      ensures id in state.operations && state.operations[id].stage == CertIssued
    {
    }

    lemma RowsWithin(w: World, v: World)
      requires Later(w, v) && v.rows.Keys == w.rows.Keys && v.issued == w.issued && v.h.last == w.h.last
               && v.h.log == w.h.log
      ensures Within(w, v, Deploy)
    {
      hide Later;
    }

    // -------------------------------------------------------------- reads that change nothing

    /** The row as it is now. */
    method ReadOperation(id: string) returns (r: Result<Operation>)
      requires Valid()
      modifies env`now
      ensures env.now > old(env.now) && Valid()
      ensures r.Success? ==> id in state.operations && r.value == state.operations[id]
      ensures r.Failure? ==> Plain(r.error)
      ensures r.Failure? ==> r.error in {Crashed, NotFound} || External(r.error)
      ensures r == Failure(NotFound) ==> id !in state.operations
      ensures env.calm && id in state.operations ==> r.Success?
    {
      hide Inv, Seen, Counted, EdgeClient.Valid, SnapshotStore.Valid;
      r := state.Operation(id);
    }

    /** The administrator's server for the address, as it is now. */
    method Discover(ip: string) returns (r: Result<ServerTarget>)
      requires Valid()
      modifies edge`discovered, env`now
      ensures env.now > old(env.now) && Valid()
      ensures r.Success? ==> ip in edge.discovered && edge.discovered[ip] == r.value
      ensures r.Failure? ==> Plain(r.error)
    {
      hide Inv, Seen, Counted, EdgeClient.Valid, SnapshotStore.Valid;
      r := edge.DiscoverServer(ip);
    }

    /** The record as it is now. */
    method ReadRecord(id: int) returns (r: Result<CertificateConfig>)
      requires Valid()
      modifies edge`read, env`now
      ensures env.now > old(env.now) && Valid()
      ensures r.Success? ==> id in edge.certs && r.value == edge.certs[id]
      ensures r.Success? ==> id in edge.read && edge.read[id] == (r.value, env.now)
      ensures r.Failure? ==> Plain(r.error)
      ensures env.calm && id in edge.certs ==> r.Success?
    {
      hide Inv, Seen, Counted, EdgeClient.Valid, SnapshotStore.Valid;
      r := edge.Certificate(id);
    }

    // -------------------------------------------------------------- rollback

    /** Ends an operation with a backoff: its own attempt number plus one, and a delay from this instant. */
    method Reschedule(op: Operation, message: string, ghost start: World, ghost permit: Permit) returns (r: Outcome)
      requires (Reissuable(W(), op.id) || RolledBack(W(), op.id)) && message != ORDER_FAILED
      requires op.id in state.operations && state.operations[op.id].stage == op.stage
               && state.operations[op.id].retryCount == op.retryCount
      requires Valid() && Within(start, W(), permit)
      modifies this`h, this`clock, state`operations, env`now
      ensures env.now >= old(env.now)
      ensures h.log == old(h.log) && h.savedAt == old(h.savedAt) && clock >= old(clock)
      ensures Ends(op.id, r, Stage.Error)
      ensures r.Ok? ==> BacksOff(op.id, op.retryCount + 1, old(env.now))
                        && Explains(op.id, "transient", message, "retry-new-order")
      ensures Valid() && Within(start, W(), permit)
    {
      hide CompareAndSet, Inv, Seen, Counted, Within, Later, Reissuable, RolledBack, MayMove, Moved, Patched,
        EdgeClient.Valid, SnapshotStore.Valid;
      TimeKeepsReason(W(), op.id, env.now);
      Tick(start, permit);
      ghost var w := W();
      ReasonRow(w, schedule, op.id);
      var delay := RetryDelay(schedule, op.retryCount);
      var nextRetry := Unix(env.now + delay);
      ghost var patch := SetFailureWithRetry("transient", message, "retry-new-order", op.retryCount + 1, nextRetry);
      MayReschedule(w, schedule, op.id, patch);
      r := state.SetErrorWithRetry(op.id, op.stage, "transient", message, "retry-new-order",
                                   op.retryCount + 1, nextRetry);
      FollowMove(start, w, permit, op.id, op.stage, Stage.Error, patch, w.now, r);
      FailedRow(w, op.id, patch, w.now, env.now);
    }

    /** The write of the saved input and the TLS check that has to confirm it, whatever the write reported. */
    method WriteBack(op: Operation, snapshot: Snapshot, ghost start: World, ghost permit: Permit) returns (r: Outcome)
      requires op.id in rollbacks.snapshots && rollbacks.snapshots[op.id] == snapshot
      requires Reads(op) && !permit.Frozen? && Valid() && Within(start, W(), permit)
      modifies this`h, this`clock, edge`certs, tls`shown, tls`missed, env`now
      ensures env.now >= old(env.now)
      ensures r.Ok? ==> && op.id in h.savedAt
                        && ShownSince(h.log, snapshot.ipv4, snapshot.oldFingerprint, h.savedAt[op.id])
                        && (op.stage == Stage.Error || RolledBack(W(), op.id))
      ensures r.Ok? ==> ShownDuring(h.log, snapshot.ipv4, snapshot.oldFingerprint, old(env.now) + 1, clock)
      ensures r.Err? && !r.IsCrash() ==>
                MissedDuring(h.log, snapshot.ipv4, snapshot.oldFingerprint, old(env.now) + 1, clock)
      ensures old(h.log) <= h.log && clock >= old(clock)
      ensures r.Err? ==> Plain(r.error)
      ensures env.calm ==> r.Ok?
      ensures Valid() && Within(start, W(), permit)
    {
      hide Valid, W, Within, Plain, External, RolledBack, Serves, ShownSince, ShownDuring, MissedDuring;
      SnapshotNow(op.id);
      var written := PutOld(op, snapshot, start, permit);
      if written.IsCrash() {
        return written;
      }
      r := VerifyTls(snapshot.ipv4, snapshot.oldFingerprint, start, permit);
      if r.IsCrash() {
        return;
      }
      if r.Err? {
        MissedNow(snapshot.ipv4, snapshot.oldFingerprint, old(env.now) + 1);
        if written.Err? {
          JoinedIsPlain(written.error, r.error);
          r := Err(Joined(written.error, r.error));
        }
        return;
      }
      RestoredNow(op, snapshot, old(env.now) + 1);
    }

    lemma BoundNow(policyID: int, certID: int, from: int)
      requires BoundSeen(policyID, certID, clock) in h.log && from <= clock
      ensures BoundDuring(h.log, policyID, certID, from, clock)
    {
    }

    lemma MissedNow(ip: string, fingerprint: string, from: int)
      requires TlsMissed(ip, fingerprint, clock) in h.log && from <= clock
      ensures MissedDuring(h.log, ip, fingerprint, from, clock)
    {
    }

    /** The check has just shown the old leaf: the record is as it was saved. */
    lemma RestoredNow(op: Operation, snapshot: Snapshot, from: int)
      requires Reads(op) && Valid() && op.id in rollbacks.snapshots && rollbacks.snapshots[op.id] == snapshot
      requires op.ipv4 == snapshot.ipv4 && Serves(edge.certs, snapshot.ipv4, snapshot.oldFingerprint) && from <= clock
      requires TlsSeen(snapshot.ipv4, snapshot.oldFingerprint, clock) in h.log
      ensures op.id in h.savedAt && ShownSince(h.log, snapshot.ipv4, snapshot.oldFingerprint, h.savedAt[op.id])
      ensures ShownDuring(h.log, snapshot.ipv4, snapshot.oldFingerprint, from, clock)
      ensures op.stage == Stage.Error || RolledBack(W(), op.id)
    {
      hide Inv, Serves, RolledBack;
      OldServed(W(), schedule, op.id);
      ShownNow(W(), schedule, op.id, snapshot.oldFingerprint);
    }

    method PutOld(op: Operation, snapshot: Snapshot, ghost start: World, ghost permit: Permit) returns (r: Outcome)
      requires op.id in rollbacks.snapshots && rollbacks.snapshots[op.id] == snapshot
      requires Reads(op) && !permit.Frozen? && Valid() && Within(start, W(), permit)
      modifies this`h, edge`certs, env`now
      ensures env.now >= old(env.now) && h.log == old(h.log) && h.savedAt == old(h.savedAt)
      ensures r.Ok? ==> Serves(edge.certs, snapshot.ipv4, snapshot.oldFingerprint)
      ensures r.Err? ==> Plain(r.error)
      ensures env.calm ==> r.Ok?
      ensures Valid() && Within(start, W(), permit)
    {
      hide Inv, Seen, Counted, Within, Later, Plain, External, MayPut, Serves, Stored, EdgeClient.Valid,
        SnapshotStore.Valid;
      ghost var w := W();
      MayWriteBack(w, schedule, op.id);
      r := edge.UpdateCertificate(snapshot.previous);
      FollowPut(start, w, permit, op.id, snapshot.previous, w.h.active[op.ipv4]);
      CallErrorsArePlain(if r.Err? then r.error else Crashed);
      if r.Ok? {
        WrittenBackServes(w, schedule, op.id, edge.certs, w.certs[snapshot.certID].isACME);
      }
    }

    method NoteManaged(ip: string, message: string, ghost start: World, ghost permit: Permit) returns (r: Outcome)
      requires ip in state.managed && message != "" && Valid() && Within(start, W(), permit)
      modifies state`managed, env`now
      ensures env.now >= old(env.now) && state.managed.Keys == old(state.managed).Keys
      ensures r.Ok? ==> Complains(ip, message)
      ensures r.Err? ==> r.error == Crashed || External(r.error)
      ensures env.calm ==> r.Ok?
      ensures Valid() && Within(start, W(), permit)
    {
      hide Inv, Seen, Counted, Within, Later, EdgeClient.Valid, SnapshotStore.Valid;
      ghost var w := W();
      r := state.RecordManagedError(ip, "transient", message, "retry-new-order");
      FollowManagedError(start, w, permit, ip, "transient", message, "retry-new-order");
    }

    /** Records the failure on the managed certificate and drops the confirmed snapshot. */
    method Discard(op: Operation, snapshot: Snapshot, ghost start: World, ghost permit: Permit) returns (r: Outcome)
      requires op.id in rollbacks.snapshots && rollbacks.snapshots[op.id] == snapshot && op.ipv4 in state.managed
      requires op.id in state.operations && state.operations[op.id].stage == Stage.Error
      requires op.id in h.savedAt && ShownSince(h.log, snapshot.ipv4, snapshot.oldFingerprint, h.savedAt[op.id])
      requires snapshot.operationID == op.id && IsOperationID(op.id)
      requires Valid() && Within(start, W(), permit) && !permit.Frozen?
      modifies state`managed, rollbacks, env`now
      ensures env.now >= old(env.now)
      ensures r.Ok? ==> rollbacks.snapshots == map[] && Complains(op.ipv4, RESTORED)
      ensures r.Err? ==> Plain(r.error)
      ensures env.calm ==> r.Ok?
      ensures Valid() && Within(start, W(), permit)
    {
      hide Inv, Seen, Counted, Within, Later, MayDrop, ShownSince, IsOperationID, EdgeClient.Valid, SnapshotStore.Valid;
      r := NoteManaged(op.ipv4, RESTORED, start, permit);
      if r.Err? {
        return;
      }
      ghost var w := W();
      MayDiscard(w, schedule, op.id);
      r := rollbacks.Delete(snapshot.operationID);
      FollowDrop(start, w, permit, op.id);
    }

    /** Writes the saved input back, confirms it by TLS, ends an operation that has not failed yet with a backoff, and
        drops the snapshot. */
    method RestoreOldCertificate(op: Operation, snapshot: Snapshot, ghost start: World,
                                 ghost permit: Permit) returns (r: Outcome)
      requires op.id in rollbacks.snapshots && rollbacks.snapshots[op.id] == snapshot
      requires Reads(op) && !permit.Frozen? && Valid() && Within(start, W(), permit)
      modifies this`h, this`clock, state, edge`certs, edge`read, tls`shown, tls`missed, rollbacks, env`now
      ensures env.now >= old(env.now)
      ensures op.id in state.operations
      ensures r.Ok? ==> state.operations[op.id].stage == Stage.Error && rollbacks.snapshots == map[]
                        && Complains(op.ipv4, RESTORED)
      ensures r.Ok? ==> if op.stage == Stage.Error then Reads(op)
                        else BacksOff(op.id, op.retryCount + 1, old(env.now))
                             && Explains(op.id, "transient", RESTORED, "retry-new-order")
      ensures r.Ok? ==> ShownDuring(h.log, snapshot.ipv4, snapshot.oldFingerprint, old(env.now) + 1, clock)
      ensures old(h.log) <= h.log && clock >= old(clock)
      ensures r.Err? ==> Plain(r.error)
      ensures env.calm ==> r.Ok?
      ensures Valid() && Within(start, W(), permit)
    {
      hide Valid, W, Within, RolledBack, Reissuable, ShownSince, ShownDuring, MissedDuring, BacksOff, Explains,
        Complains, IsOperationID, Plain;
      SnapshotNow(op.id);
      r := WriteBack(op, snapshot, start, permit);
      if r.Err? {
        return;
      }
      ghost var shown := clock;
      if op.stage != Stage.Error {
        ghost var later := env.now;
        r := Reschedule(op, RESTORED, start, permit);
        if r.Err? {
          CallErrorsArePlain(r.error);
          return;
        }
        BacksOffSince(op.id, op.retryCount + 1, old(env.now), later);
      }
      ShownSooner(h.log, snapshot.ipv4, snapshot.oldFingerprint, old(env.now) + 1, shown, old(env.now) + 1, clock);
      r := Discard(op, snapshot, start, permit);
    }

    /** The record was read since, and had this leaf. */
    ghost predicate ReadAs(certID: int, fingerprint: string, since: int)
      reads edge`read
    {
      && certID in edge.read && edge.read[certID].1 > since
      && Fingerprint(edge.read[certID].0.certData) == fingerprint
    }

    /** TLS serves the new certificate: the record must agree, the operation catches up, and the snapshot goes. */
    method Confirm(op: Operation, snapshot: Snapshot, ghost start: World) returns (r: Outcome)
      requires op.id in rollbacks.snapshots && rollbacks.snapshots[op.id] == snapshot && IsOperationID(op.id)
               && snapshot.operationID == op.id
      requires Serves(edge.certs, snapshot.ipv4, snapshot.newFingerprint) && op.certID == snapshot.certID
               && op.kind == Renew
      requires op.id in h.savedAt && ShownSince(h.log, snapshot.ipv4, snapshot.newFingerprint, h.savedAt[op.id])
      requires ShownDuring(h.log, op.ipv4, op.certFingerprint, op.createdAt, clock)
      requires Reads(op) && Valid() && Within(start, W(), Restore)
      modifies this`h, this`clock, state`operations, edge`read, rollbacks, env`now
      ensures r.Ok? ==> rollbacks.snapshots == map[]
      ensures r.Ok? ==> op.id in state.operations && state.operations[op.id].stage == CertCreated
      ensures r.Ok? ==> ReadAs(snapshot.certID, snapshot.newFingerprint, old(env.now))
      ensures h.log == old(h.log) && clock >= old(clock) && env.now >= old(env.now)
      ensures r.Err? ==> Plain(r.error)
      ensures env.calm ==> r.Ok?
      ensures Valid() && Within(start, W(), Restore)
    {
      hide Inv, Seen, Counted, Within, Later, Deployed, MayMove, MayDrop, Serves, ShownSince, ShownDuring,
        IsOperationID, EdgeClient.Valid, SnapshotStore.Valid;
      NewServed(W(), schedule, op.id);
      var current := ReadRecord(snapshot.certID);
      if current.Failure? && current.error == Crashed {
        return Err(Crashed);
      }
      if current.Failure? || Fingerprint(current.value.certData) != snapshot.newFingerprint {
        return Err(Rejected);
      }
      r := CatchUp(op, start);
      if r.Ok? {
        r := DiscardDeployed(op.id, start, Restore);
      }
    }

    /** Drops the snapshot of a renewal whose new certificate TLS has confirmed. */
    method DiscardDeployed(id: string, ghost start: World, ghost permit: Permit) returns (r: Outcome)
      requires id in rollbacks.snapshots && IsOperationID(id) && id in h.savedAt
      requires ShownSince(h.log, rollbacks.snapshots[id].ipv4, rollbacks.snapshots[id].newFingerprint, h.savedAt[id])
      requires id in state.operations && state.operations[id].stage == CertCreated && !permit.Frozen?
      requires Deployed(W(), id) && Valid() && Within(start, W(), permit)
      modifies rollbacks, env`now
      ensures env.now >= old(env.now) && (r.Ok? ==> rollbacks.snapshots == map[])
      ensures r.Err? ==> Plain(r.error)
      ensures env.calm ==> r.Ok?
      ensures Valid() && Within(start, W(), permit)
    {
      hide Inv, Seen, Counted, Within, Later, Deployed, MayDrop, ShownSince, IsOperationID, EdgeClient.Valid,
        SnapshotStore.Valid;
      ghost var w := W();
      MayDiscardDeployed(w, schedule, id);
      r := rollbacks.Delete(id);
      FollowDrop(start, w, permit, id);
    }

    method CatchUp(op: Operation, ghost start: World) returns (r: Outcome)
      requires op.id in rollbacks.snapshots && op.certID in h.carrier && h.carrier[op.certID] == op.id
      requires ShownDuring(h.log, op.ipv4, op.certFingerprint, op.createdAt, clock)
      requires op.kind == Renew && op.stage in {CertIssued, CertCreated}
      requires Reads(op) && Valid() && Within(start, W(), Restore)
      modifies this`h, this`clock, state`operations, env`now
      ensures h.log == old(h.log) && h.savedAt == old(h.savedAt) && clock >= old(clock) && env.now >= old(env.now)
      ensures r.Ok? ==>
                op.id in state.operations && Deployed(W(), op.id) && state.operations[op.id].stage == CertCreated
      ensures r.Err? ==> Plain(r.error)
      ensures env.calm ==> r.Ok?
      ensures Valid() && Within(start, W(), Restore)
    {
      hide CompareAndSet, Inv, Seen, Counted, Within, Later, MayMove, Moved, Patched, ShownDuring, EdgeClient.Valid,
        SnapshotStore.Valid;
      ghost var w := W();
      assert Deployed(w, op.id);
      hide Deployed;
      if op.stage == CertIssued {
        MayConfirm(w, schedule, op.id);
        r := state.SetCertCreated(op.id, CertIssued, op.certID);
        FollowMove(start, w, Restore, op.id, CertIssued, CertCreated, SetCert(op.certID), 0, r);
        StaysDeployed(w, W(), op.id, env.now);
      } else {
        r := Ok;
      }
    }

    /** One snapshot: the new side if TLS shows it, the old one only after a check that missed the new one. */
    method RecoverRollback(snapshot: Snapshot, ghost start: World) returns (r: Outcome)
      requires snapshot.operationID in rollbacks.snapshots && rollbacks.snapshots[snapshot.operationID] == snapshot
      requires Valid() && Within(start, W(), Restore)
      modifies this`h, this`clock, state, edge`certs, edge`read, tls`shown, tls`missed, rollbacks, env`now
      ensures r.Ok? ==> rollbacks.snapshots == map[]
      ensures r.Ok? ==> Sided(W(), snapshot.operationID, snapshot, CertCreated, old(env.now) + 1)
      ensures env.calm ==>
                CalmSide(state.operations, snapshot.operationID, HoldsNew(old(edge.certs), snapshot), CertCreated)
      ensures env.now >= old(env.now)
      ensures r.Err? ==> Plain(r.error)
      ensures env.calm ==> r.Ok?
      ensures Valid() && Within(start, W(), Restore)
    {
      hide Inv, Seen, Counted, Within, Later, MayPut, Sided, CalmSide, HoldsNew, IsOperationID, EdgeClient.Valid,
        SnapshotStore.Valid;
      SnapshotFacts(W(), schedule, snapshot.operationID);
      var read := ReadOperation(snapshot.operationID);
      if read.Failure? {
        return Err(read.error);
      }
      var op := read.value;
      if op.kind != Renew || op.ipv4 != snapshot.ipv4 || op.certID != snapshot.certID {
        return Err(Rejected);
      }
      ghost var later := env.now;
      r := TakeSide(op, snapshot, start);
      if r.Ok? {
        SidedSince(W(), op.id, snapshot, CertCreated, old(env.now) + 1, later + 1);
      }
    }

    method TakeSide(op: Operation, snapshot: Snapshot, ghost start: World) returns (r: Outcome)
      requires op.id == snapshot.operationID && op.kind == Renew && op.ipv4 == snapshot.ipv4
      requires op.certID == snapshot.certID && op.certFingerprint == snapshot.newFingerprint != ""
      requires op.id in rollbacks.snapshots && rollbacks.snapshots[op.id] == snapshot && IsOperationID(op.id)
      requires Reads(op) && Valid() && Within(start, W(), Restore)
      modifies this`h, this`clock, state, edge`certs, edge`read, tls`shown, tls`missed, rollbacks, env`now
      ensures r.Ok? ==> rollbacks.snapshots == map[] && Sided(W(), op.id, snapshot, CertCreated, old(env.now) + 1)
      ensures env.calm ==> CalmSide(state.operations, op.id, HoldsNew(old(edge.certs), snapshot), CertCreated)
      ensures env.now >= old(env.now)
      ensures r.Err? ==> Plain(r.error)
      ensures env.calm ==> r.Ok?
      ensures Valid() && Within(start, W(), Restore)
    {
      hide Valid, W, Within, Sided, HoldsNew, Serves, ShownSince, ShownDuring, MissedDuring, BacksOff, Explains, ReadAs,
        IsOperationID;
      r := VerifyTls(snapshot.ipv4, snapshot.newFingerprint, start, Restore);
      if r.IsCrash() {
        return;
      }
      SideFacts(op, snapshot);
      ghost var log, at := h.log, clock;
      if r.Ok? {
        NewSide(op, snapshot, old(env.now) + 1);
        r := Confirm(op, snapshot, start);
        if r.Ok? {
          ShownStays(log, h.log, op.ipv4, op.certFingerprint, old(env.now) + 1, at, old(env.now) + 1, clock);
          TookNew(op.id, snapshot, old(env.now) + 1);
        }
      } else {
        OldSide(op, snapshot, old(env.now) + 1);
        ghost var later := env.now;
        r := RestoreOldCertificate(op, snapshot, start, Restore);
        if r.Ok? {
          MissedStays(log, h.log, op.ipv4, op.certFingerprint, old(env.now) + 1, at, old(env.now) + 1, clock);
          ShownSooner(h.log, op.ipv4, snapshot.oldFingerprint, later + 1, clock, old(env.now) + 1, clock);
          TookOld(op, snapshot, old(env.now) + 1, later);
        }
      }
    }

    lemma SideFacts(op: Operation, snapshot: Snapshot)
      requires Reads(op) && op.certFingerprint != "" && Valid()
      ensures op.stage == Stage.Error ==> op.retryCount == 1
      ensures Inflight(op.stage) ==> op.retryCount == 0
      ensures clock <= env.now
    {
      hide Inv, StoredRetry;
      RetryFacts(W(), schedule, op.id);
      if Inflight(op.stage) {
        InflightNow(op);
      }
    }

    /** The check has just shown the new leaf: the record holds it. */
    lemma NewSide(op: Operation, snapshot: Snapshot, from: int)
      requires Reads(op) && Valid() && op.id in rollbacks.snapshots && rollbacks.snapshots[op.id] == snapshot
      requires op.ipv4 == snapshot.ipv4 && Serves(edge.certs, snapshot.ipv4, snapshot.newFingerprint) && from <= clock
      requires TlsSeen(snapshot.ipv4, snapshot.newFingerprint, clock) in h.log
      ensures HoldsNew(edge.certs, snapshot)
      ensures ShownDuring(h.log, op.ipv4, snapshot.newFingerprint, op.createdAt, clock)
      ensures ShownDuring(h.log, op.ipv4, snapshot.newFingerprint, from, clock)
      ensures op.id in h.savedAt && ShownSince(h.log, op.ipv4, snapshot.newFingerprint, h.savedAt[op.id])
    {
      hide Inv, Serves, MayPut, IsOperationID;
      NewServed(W(), schedule, op.id);
      SnapshotFacts(W(), schedule, op.id);
      ShownNow(W(), schedule, op.id, snapshot.newFingerprint);
    }

    /** The check has just missed the new leaf; if nothing fails, the record does not hold it. */
    lemma OldSide(op: Operation, snapshot: Snapshot, from: int)
      requires Reads(op) && Valid() && op.id in rollbacks.snapshots && rollbacks.snapshots[op.id] == snapshot
      requires TlsMissed(snapshot.ipv4, snapshot.newFingerprint, clock) in h.log && from <= clock
      ensures MissedDuring(h.log, snapshot.ipv4, snapshot.newFingerprint, from, clock)
      ensures !Serves(edge.certs, snapshot.ipv4, snapshot.newFingerprint) ==> !HoldsNew(edge.certs, snapshot)
      ensures op.stage in {CertIssued, CertCreated, Stage.Error}
    {
      hide Inv, Serves, HoldsNew, MayPut, IsOperationID;
      SnapshotFacts(W(), schedule, op.id);
      if HoldsNew(edge.certs, snapshot) {
        NewInPlace(W(), schedule, op.id);
      }
    }

    lemma TookNew(id: string, snapshot: Snapshot, from: int)
      requires id in state.operations && state.operations[id].stage == CertCreated
      requires ShownDuring(h.log, snapshot.ipv4, snapshot.newFingerprint, from, clock)
      ensures Sided(W(), id, snapshot, CertCreated, from)
    {
      hide ShownDuring;
    }

    lemma TookOld(op: Operation, snapshot: Snapshot, from: int, since: int)
      requires op.id in state.operations && state.operations[op.id].stage == Stage.Error
      requires MissedDuring(h.log, snapshot.ipv4, snapshot.newFingerprint, from, clock)
      requires ShownDuring(h.log, snapshot.ipv4, snapshot.oldFingerprint, from, clock)
      requires if op.stage == Stage.Error then Reads(op) && op.retryCount == 1
               else op.retryCount == 0 && BacksOff(op.id, op.retryCount + 1, since)
      ensures Sided(W(), op.id, snapshot, CertCreated, from) && state.operations[op.id].retryCount == 1
    {
      hide ShownDuring, MissedDuring, StoredRetry;
    }

    /** Every snapshot is settled on one of its two sides, confirmed by TLS; the only write to GoEdge is the saved
        input. */
    method RecoverRollbacks(ghost start: World) returns (r: Outcome)
      requires Valid() && Within(start, W(), Restore)
      modifies this`h, this`clock, state, edge`certs, edge`read, tls`shown, tls`missed, rollbacks, env`now
      ensures r.Ok? ==> rollbacks.snapshots == map[]
      ensures r.Ok? ==> forall id <- old(rollbacks.snapshots) ::
                          Sided(W(), id, old(rollbacks.snapshots)[id], CertCreated, old(env.now) + 1)
      ensures env.calm && r.Ok? ==> forall id <- old(rollbacks.snapshots) ::
                CalmSide(state.operations, id, HoldsNew(old(edge.certs), old(rollbacks.snapshots)[id]), CertCreated)
      ensures old(rollbacks.snapshots) == map[] ==>
                state.operations == old(state.operations) && state.managed == old(state.managed)
      ensures env.now >= old(env.now)
      ensures r.Err? ==> Plain(r.error)
      ensures env.calm && old(rollbacks.Clean()) ==> r.Ok?
      ensures Valid() && Within(start, W(), Restore)
    {
      hide Inv, Seen, Counted, Within, Later, Lists, Sided, CalmSide, HoldsNew, EdgeClient.Valid, SnapshotStore.Valid;
      var listed := rollbacks.List();
      if listed.Failure? {
        return Err(listed.error);
      }
      OneSnapshotAtMost(W(), schedule, listed.value);
      ListedOnce(rollbacks.snapshots, listed.value);
      r := Ok;
      if listed.value != [] {
        var snapshot := listed.value[0];
        ghost var later := env.now;
        r := RecoverRollback(snapshot, start);
        if r.Ok? {
          SidedSince(W(), snapshot.operationID, snapshot, CertCreated, old(env.now) + 1, later + 1);
        }
      }
    }

    lemma ListedOnce(snapshots: map<string, Snapshot>, list: seq<Snapshot>)
      requires Lists(snapshots, list) && |list| <= 1
      ensures list != [] ==> list[0].operationID in snapshots && snapshots[list[0].operationID] == list[0]
      ensures forall id <- snapshots :: list != [] && id == list[0].operationID
    {
    }

    // -------------------------------------------------------------- the first certificate

    /** What every integration step promises: success moves the operation on; a lost key is reported only when
        nothing of the operation has reached GoEdge; a calm step fails for no other reason. */
    ghost predicate Steps(op: Operation, r: Outcome, stage: Stage)
      reads this`h, this`clock, env`calm, state, edge`certs, rollbacks`snapshots, issuer`issued
    {
      && op.id in state.operations
      && (r.Ok? ==> state.operations[op.id].stage == stage)
      && (r.Err? ==> Plain(r.error) || r.error == ReissueRequired)
      && (r == Err(ReissueRequired) ==> Reads(op) && Reissuable(W(), op.id))
      && (env.calm ==> r.Ok? || r == Err(ReissueRequired))
    }

    lemma StepFails(op: Operation, e: Error, stage: Stage)
      requires op.id in state.operations && Plain(e) && e != ReissueRequired && !env.calm
      ensures Steps(op, Err(e), stage)
    {
    }

    /** What the key in hand has to fit. */
    ghost predicate Fits(op: Operation, verified: Option<Verified>, permit: Permit)
    {
      verified.Some? ==> Material(op, verified.value) && permit.Deploy?
    }

    /** The certificate of the operation is a record with this name. */
    ghost predicate Holds(id: string, name: string)
      reads state`operations, edge`certs
    {
      && id in state.operations && state.operations[id].certID in edge.certs
      && edge.certs[state.operations[id].certID].name == name
    }

    /** The certificate of the operation is the record made for it: switched on, under its marker, with this material,
        and asked for on behalf of the user of its server. */
    ghost predicate HoldsIssued(op: Operation, verified: Verified)
      reads state`operations, edge`certs, edge`asked
    {
      && op.id in state.operations
      && var c := state.operations[op.id].certID;
      && c in edge.certs && IssuedRecord(edge.certs[c], op.marker, verified)
      && c in edge.asked && edge.asked[c].userID == op.userID
    }

    method EnsureCreated(op: Operation, verified: Option<Verified>, ghost start: World,
                         ghost permit: Permit) returns (r: Outcome)
      requires op.kind == Issue && op.stage == CertIssued && Fits(op, verified, permit)
      requires verified.Some? ==> h.log[CreateCalled(op.id)] == 0
      requires Reads(op) && Valid() && Within(start, W(), permit)
      modifies this`h, this`clock, state`operations, edge, env`now
      ensures env.now >= old(env.now) && edge.discovered == old(edge.discovered)
      ensures Steps(op, r, CertCreated) && (r == Err(ReissueRequired) ==> verified.None?)
      ensures r.Ok? ==> Holds(op.id, op.marker)
      ensures r.Ok? ==> if (exists c <- old(edge.certs) :: old(edge.certs)[c].name == op.marker)
                        then edge.certs == old(edge.certs)
                        else verified.Some? && HoldsIssued(op, verified.value)
      ensures Valid() && Within(start, W(), permit)
    {
      hide Valid, W, Within, Plain, External, Reissuable, Material, HoldsMaterial;
      CallErrorsArePlain(Crashed);
      var existing := FindOwn(op);
      if existing.Success? {
        r := Adopt(op, existing.value.id, start, permit);
        return;
      }
      if existing.error != CertificateNotFound {
        return Err(existing.error);
      }
      if verified.None? {
        return Err(ReissueRequired);
      }
      r := CreateRecord(op, verified.value, start);
    }

    /** The record under the marker of the operation, if there is one. */
    method FindOwn(op: Operation) returns (r: Result<CertificateConfig>)
      requires op.kind == Issue && op.stage == CertIssued && Reads(op) && Valid()
      modifies env`now
      ensures env.now > old(env.now) && Valid()
      ensures r.Success? ==> r.value.id in edge.certs && edge.certs[r.value.id].name == op.marker
      ensures r == Failure(CertificateNotFound) ==>
                Reissuable(W(), op.id) && forall c <- edge.certs :: edge.certs[c].name != op.marker
      ensures r.Failure? ==> Plain(r.error) && r.error != ReissueRequired
      ensures env.calm ==> r.Success? || r == Failure(CertificateNotFound)
    {
      hide Inv, Seen, Counted, Reissuable, External, SnapshotStore.Valid;
      NoTwoRecords(W(), schedule, op.id, edge.certs);
      r := edge.FindCertificateByMarker(op.marker, op.userID);
      CallErrorsArePlain(if r.Failure? then r.error else Crashed);
      if r == Failure(CertificateNotFound) {
        MissIsReissuable(W(), schedule, op.id);
      }
    }

    /** The record found under the marker of the operation becomes its certificate. */
    method Adopt(op: Operation, id: int, ghost start: World, ghost permit: Permit) returns (r: Outcome)
      requires op.kind == Issue && op.stage == CertIssued && id in edge.certs && edge.certs[id].name == op.marker
      requires Reads(op) && Valid() && Within(start, W(), permit)
      modifies this`h, this`clock, state`operations, edge`read, env`now
      ensures env.now >= old(env.now)
      ensures Steps(op, r, CertCreated) && r != Err(ReissueRequired)
      ensures r.Ok? ==> ReadAs(id, op.certFingerprint, old(env.now)) && state.operations[op.id].certID == id
      ensures Valid() && Within(start, W(), permit)
    {
      hide Inv, Seen, Counted, Within, Later, Reissuable, EdgeClient.Valid, SnapshotStore.Valid;
      MarkerHit(W(), schedule, op.id, id);
      HitIsOwn(W(), schedule, op.id, id);
      var full := ReadRecord(id);
      if full.Failure? {
        return Err(full.error);
      }
      if !Manageable(full.value, op.ipv4) {
        return Err(Rejected);
      }
      if Fingerprint(full.value.certData) != op.certFingerprint || full.value.timeEndAt != op.expiresAt {
        return Err(Rejected);
      }
      r := RecordID(op, id, start, permit);
    }

    /** The record that carries the operation becomes its certificate. */
    method RecordID(op: Operation, id: int, ghost start: World, ghost permit: Permit) returns (r: Outcome)
      requires op.kind == Issue && op.stage == CertIssued
      requires op.id in h.made && h.made[op.id] == id && id in h.carrier && h.carrier[id] == op.id
      requires Reads(op) && Valid() && Within(start, W(), permit)
      modifies this`h, this`clock, state`operations, env`now
      ensures env.now >= old(env.now)
      ensures Steps(op, r, CertCreated) && r != Err(ReissueRequired)
      ensures r.Ok? ==> op.id in state.operations && state.operations[op.id].certID == id
      ensures Valid() && Within(start, W(), permit)
    {
      hide CompareAndSet, Inv, Seen, Counted, Within, Later, Plain, External, MayMove, Reissuable, EdgeClient.Valid,
        SnapshotStore.Valid;
      ghost var w := W();
      MayRecord(w, schedule, op.id, id);
      r := state.SetCertCreated(op.id, CertIssued, id);
      CallErrorsArePlain(if r.Err? then r.error else Crashed);
      FollowMove(start, w, permit, op.id, CertIssued, CertCreated, SetCert(id), 0, r);
    }

    /** One create call per operation, with the key in hand. */
    method CreateRecord(op: Operation, verified: Verified, ghost start: World) returns (r: Outcome)
      requires op.kind == Issue && op.stage == CertIssued && Material(op, verified) && h.log[CreateCalled(op.id)] == 0
      requires Reissuable(W(), op.id)
      requires Reads(op) && Valid() && Within(start, W(), Deploy)
      modifies this`h, this`clock, state`operations, edge, env`now
      ensures env.now >= old(env.now) && edge.discovered == old(edge.discovered)
      ensures Steps(op, r, CertCreated) && r != Err(ReissueRequired)
      ensures r.Ok? ==> HoldsIssued(op, verified)
      ensures Valid() && Within(start, W(), Deploy)
    {
      hide Valid, W, Within, Plain, External, Steps, Material, Reissuable, IssuedRecord;
      CallErrorsArePlain(Crashed);
      var created := CallCreate(op, verified, start);
      if created.Failure? {
        StepFails(op, created.error, CertCreated);
        return Err(created.error);
      }
      r := RecordCreated(op, created.value, start);
    }

    method CallCreate(op: Operation, verified: Verified, ghost start: World) returns (r: Result<int>)
      requires op.kind == Issue && op.stage == CertIssued && Material(op, verified) && h.log[CreateCalled(op.id)] == 0
      requires Reissuable(W(), op.id)
      requires Reads(op) && Valid() && Within(start, W(), Deploy)
      modifies this`h, edge, env`now
      ensures env.now >= old(env.now) && edge.discovered == old(edge.discovered)
      ensures r.Success? ==> && op.id in h.made && h.made[op.id] == r.value
                             && r.value in h.carrier && h.carrier[r.value] == op.id
      ensures r.Success? ==> && r.value in edge.certs && IssuedRecord(edge.certs[r.value], op.marker, verified)
                             && r.value in edge.asked && edge.asked[r.value].userID == op.userID
      ensures r.Failure? ==> Plain(r.error)
      ensures env.calm ==> r.Success?
      ensures Valid() && Within(start, W(), Deploy)
    {
      hide Inv, Seen, Counted, Within, Plain, External, MayMake, Material, Reissuable, Repeats, HoldsMaterial,
        IssuedRecord, RenewedRecord, InputForOperation, Stored, SnapshotStore.Valid;
      ghost var w := W();
      ReissuableSurvivesLog(w, op.id, CreateCalled(op.id));
      ghost var creations := edge.creations;
      var blank := CertificateConfig(0, true, op.marker, "", "", false, false, Empty, "", 0, 0, [], []);
      var input := InputForOperation(op, blank, verified);
      ghost var c := edge.nextID;
      MayCreateRecord(w, op.id, blank, verified, c);
      r := edge.CreateCertificate(input);
      FollowMake(start, w, creations, op.id, input, c);
      CallErrorsArePlain(if r.Failure? then r.error else Crashed);
      if r.Success? {
        InputIsExact(op, blank, verified, edge.certs[c], c, false);
      }
    }

    method RecordCreated(op: Operation, id: int, ghost start: World) returns (r: Outcome)
      requires op.kind == Issue && op.stage == CertIssued
      requires op.id in h.made && h.made[op.id] == id && id in h.carrier && h.carrier[id] == op.id
      requires Reads(op) && Valid() && Within(start, W(), Deploy)
      modifies this`h, this`clock, state`operations, env`now
      ensures env.now >= old(env.now)
      ensures Steps(op, r, CertCreated) && r != Err(ReissueRequired)
      ensures r.Ok? ==> op.id in state.operations && state.operations[op.id].certID == id
      ensures Valid() && Within(start, W(), Deploy)
    {
      hide Valid, W, Within, Plain, External, Steps, Reissuable;
      HistoryNow();
      r := CrashPoint();
      if r.Err? {
        CallErrorsArePlain(r.error);
        StepFails(op, r.error, CertCreated);
        return;
      }
      r := RecordID(op, id, start, Deploy);
    }

    lemma NoTwoRecords(w: World, s: Policy, id: string, certs: map<int, CertificateConfig>)
      requires Inv(w, s) && id in w.rows && w.rows[id].kind == Issue && certs == w.certs
      ensures forall c, d :: c in certs && d in certs && certs[c].name == certs[d].name == w.rows[id].marker ==> c == d
    {
      hide Inv;
      forall c, d | c in certs && d in certs && certs[c].name == certs[d].name == w.rows[id].marker
        ensures c == d
      {
        MarkerIsSole(w, s, id, c, d);
      }
    }

    // -------------------------------------------------------------- the renewed certificate

    method EnsureUpdated(op: Operation, verified: Option<Verified>, ghost start: World,
                         ghost permit: Permit) returns (r: Outcome)
      requires op.kind == Renew && op.stage == CertIssued && Fits(op, verified, permit) && rollbacks.snapshots == map[]
      requires Reads(op) && Valid() && Within(start, W(), permit)
      modifies this`h, this`clock, state, edge`certs, edge`read, tls`shown, tls`missed, rollbacks, env`now
      ensures env.now >= old(env.now)
      ensures Steps(op, r, CertCreated) && (r == Err(ReissueRequired) ==> verified.None?)
      ensures r.Ok? || verified.None? ==> rollbacks.snapshots == map[]
      ensures r.Ok? ==> op.certID in old(edge.certs)
                        && var found := old(edge.certs)[op.certID];
                        if Fingerprint(found.certData) == op.certFingerprint && found.timeEndAt == op.expiresAt
                        then edge.certs == old(edge.certs)
                        else verified.Some? && Renews(op.certID, found, verified.value)
      ensures Valid() && Within(start, W(), permit)
    {
      hide Inv, Seen, Counted, Within, Later, Reissuable, Material, Kept, IsOperationID, Renews, SavesOld,
        EdgeClient.Valid, SnapshotStore.Valid;
      RecordToRenew(W(), schedule, op.id);
      var current := ReadRecord(op.certID);
      if current.Failure? {
        return Err(current.error);
      }
      if !Manageable(current.value, op.ipv4) {
        return Err(Rejected);
      }
      if Fingerprint(current.value.certData) == op.certFingerprint && current.value.timeEndAt == op.expiresAt {
        r := Reuse(op, start, permit);
        return;
      }
      if verified.None? {
        StillActive(W(), schedule, op.id);
        return Err(ReissueRequired);
      }
      r := Replace(op, current.value, verified.value, start);
    }

    /** GoEdge already holds the new certificate. */
    method Reuse(op: Operation, ghost start: World, ghost permit: Permit) returns (r: Outcome)
      requires op.kind == Renew && op.stage == CertIssued && op.certID in edge.certs && op.certFingerprint != ""
      requires edge.certs[op.certID].dnsNames == [op.ipv4]
               && Fingerprint(edge.certs[op.certID].certData) == op.certFingerprint
      requires Reads(op) && Valid() && Within(start, W(), permit)
      modifies this`h, this`clock, state`operations, tls`shown, tls`missed, env`now
      ensures env.now >= old(env.now)
      ensures Steps(op, r, CertCreated) && r != Err(ReissueRequired)
      ensures r.Ok? ==> ShownDuring(h.log, op.ipv4, op.certFingerprint, old(env.now) + 1, env.now)
      ensures Valid() && Within(start, W(), permit)
    {
      hide Inv, Seen, Counted, Within, Later, Reissuable, Deployed, MayMove, EdgeClient.Valid, SnapshotStore.Valid;
      assert Serves(edge.certs, op.ipv4, op.certFingerprint);
      hide Serves;
      r := VerifyTls(op.ipv4, op.certFingerprint, start, permit);
      if r.Err? {
        return;
      }
      ShownNow(W(), schedule, op.id, op.certFingerprint);
      r := RecordDeployed(op, start, permit);
    }

    /** TLS has just shown the new leaf. */
    method RecordDeployed(op: Operation, ghost start: World, ghost permit: Permit) returns (r: Outcome)
      requires op.kind == Renew && op.stage == CertIssued && op.certFingerprint != ""
      requires Serves(edge.certs, op.ipv4, op.certFingerprint)
      requires ShownDuring(h.log, op.ipv4, op.certFingerprint, op.createdAt, clock)
      requires Reads(op) && Valid() && Within(start, W(), permit)
      modifies this`h, this`clock, state`operations, env`now
      ensures Steps(op, r, CertCreated) && r != Err(ReissueRequired)
      ensures h.log == old(h.log) && h.savedAt == old(h.savedAt) && env.now >= old(env.now)
              && (r.Ok? ==> Deployed(W(), op.id))
      ensures Valid() && Within(start, W(), permit)
    {
      hide CompareAndSet, Inv, Seen, Counted, Within, Later, Reissuable, Deployed, MayMove, Moved, Patched, Serves,
        ShownDuring, EdgeClient.Valid, SnapshotStore.Valid;
      ghost var w := W();
      SeenIsDeployed(w, schedule, op.id);
      MayConfirm(w, schedule, op.id);
      r := state.SetCertCreated(op.id, CertIssued, op.certID);
      FollowMove(start, w, permit, op.id, CertIssued, CertCreated, SetCert(op.certID), 0, r);
      StaysDeployed(w, W(), op.id, env.now);
    }

    /** Saves the current certificate, then puts the new one in its place. */
    method Replace(op: Operation, current: CertificateConfig, verified: Verified,
                   ghost start: World) returns (r: Outcome)
      requires op.kind == Renew && op.stage == CertIssued && Material(op, verified) && rollbacks.snapshots == map[]
      requires op.certID in edge.certs && edge.certs[op.certID] == current && Manageable(current, op.ipv4)
      requires Reads(op) && Valid() && Within(start, W(), Deploy)
      modifies this`h, this`clock, state, edge`certs, edge`read, tls`shown, tls`missed, rollbacks, env`now
      ensures env.now >= old(env.now)
      ensures Steps(op, r, CertCreated) && r != Err(ReissueRequired)
      ensures r.Ok? || edge.certs != old(edge.certs) ==>
                op.id in h.saved && SavesOld(h.saved[op.id], op, current) && Complete(h.saved[op.id])
      ensures r.Ok? ==>
                && rollbacks.snapshots == map[] && Renews(op.certID, current, verified)
                && ShownDuring(h.log, op.ipv4, op.certFingerprint, old(env.now) + 1, env.now)
      ensures Valid() && Within(start, W(), Deploy)
    {
      hide Valid, W, Within, Plain, External, Steps, Reissuable, Material, Manageable, NewSnapshot, Fingerprint,
        InputFromConfig, ShownDuring, RollsBack, Renews, SavesOld, Complete, IsOperationID;
      CallErrorsArePlain(Crashed);
      var saved := SaveOld(op, current, start);
      if saved.Failure? {
        StepFails(op, saved.error, CertCreated);
        return Err(saved.error);
      }
      r := PutSaved(op, saved.value, current, verified, start, old(env.now));
    }

    method PutSaved(op: Operation, snapshot: Snapshot, current: CertificateConfig, verified: Verified,
                    ghost start: World, ghost from: int)
      returns (r: Outcome)
      requires from <= env.now
      requires op.kind == Renew && op.stage == CertIssued && Material(op, verified)
      requires op.id in rollbacks.snapshots && rollbacks.snapshots[op.id] == snapshot && IsOperationID(op.id)
               && op.id in h.saved
      requires snapshot.ipv4 == op.ipv4 && snapshot.newFingerprint == op.certFingerprint
      requires op.certID in edge.certs && edge.certs[op.certID] == current && Manageable(current, op.ipv4)
      requires Reads(op) && Valid() && Within(start, W(), Deploy)
      modifies this`h, this`clock, state, edge`certs, edge`read, tls`shown, tls`missed, rollbacks, env`now
      ensures env.now >= old(env.now)
      ensures Steps(op, r, CertCreated) && r != Err(ReissueRequired)
      ensures op.id in h.saved && h.saved[op.id] == old(h.saved)[op.id]
      ensures r.Ok? ==>
                && rollbacks.snapshots == map[] && Renews(op.certID, current, verified)
                && ShownDuring(h.log, op.ipv4, op.certFingerprint, from + 1, env.now)
      ensures Valid() && Within(start, W(), Deploy)
    {
      hide Valid, W, Within, Plain, External, Steps, Reissuable, Material, ShownDuring, RollsBack, Renews,
        IsOperationID;
      r := CrashPoint();
      if r.Err? {
        CallErrorsArePlain(r.error);
        StepFails(op, r.error, CertCreated);
        return;
      }
      ghost var mid, later := W(), env.now;
      HistoryNow();
      WithinIsReflexive(mid, Deploy);
      ghost var failure, restored;
      r, failure, restored := DeployNew(op, snapshot, current, verified, mid);
      SavedNow(mid, op.id);
      WithinIsTransitive(start, mid, W(), Deploy);
      if r.Ok? {
        ShownSooner(h.log, op.ipv4, op.certFingerprint, later + 1, env.now, from + 1, env.now);
      }
    }

    /** The snapshot is published before anything is written to GoEdge; an incomplete record is refused. */
    method SaveOld(op: Operation, current: CertificateConfig, ghost start: World) returns (r: Result<Snapshot>)
      requires op.kind == Renew && op.stage == CertIssued && rollbacks.snapshots == map[]
      requires op.certID in edge.certs && edge.certs[op.certID] == current
      requires Reads(op) && Valid() && Within(start, W(), Deploy)
      modifies this`h, this`clock, rollbacks, env`now
      ensures env.now >= old(env.now)
      ensures r.Success? ==> && SavesOld(r.value, op, current) && Complete(r.value) && IsOperationID(op.id)
                             && r.value.ipv4 == op.ipv4 && r.value.newFingerprint == op.certFingerprint
                             && op.id in h.saved && h.saved[op.id] == r.value
                             && op.id in rollbacks.snapshots && rollbacks.snapshots[op.id] == r.value
      ensures r.Failure? ==> Plain(r.error) && r.error != ReissueRequired
      ensures env.calm ==> r.Success?
      ensures Valid() && Within(start, W(), Deploy)
    {
      hide Inv, Seen, Counted, Within, Later, MaySave, IsOperationID, EdgeClient.Valid, SnapshotStore.Valid;
      Tick(start, Deploy);
      ghost var w := W();
      RecordToRenew(w, schedule, op.id);
      var previous := InputFromConfig(current);
      if previous.certData.Empty? || previous.keyData == "" {
        return Failure(Rejected);
      }
      var oldFingerprint := Fingerprint(previous.certData);
      if oldFingerprint == "" {
        return Failure(Rejected);
      }
      var snapshot := NewSnapshot(op.id, op.ipv4, op.certFingerprint, oldFingerprint, previous);
      var published := rollbacks.Save(snapshot);
      if Complete(snapshot) {
        MaySaveRecord(w, op.id, current, snapshot);
      }
      FollowSave(start, w, op.id, snapshot);
      r := if published.Ok? then Success(snapshot) else Failure(published.error);
    }

    /** How a failed deployment ends: the old certificate is back and the cause is reported, or both errors are. */
    ghost predicate RollsBack(op: Operation, cause: Error, restored: Outcome, r: Outcome, from: int)
      reads this`h, this`clock, state, rollbacks`snapshots
    {
      && (restored.Ok? ==>
            && r == Err(cause) && rollbacks.snapshots == map[] && Complains(op.ipv4, RESTORED)
            && if op.stage == Stage.Error then Reads(op)
               else BacksOff(op.id, op.retryCount + 1, from)
                    && Explains(op.id, "transient", RESTORED, "retry-new-order"))
      && (restored.IsCrash() ==> r == restored)
      && (restored.Err? && !restored.IsCrash() ==> r == Err(Joined(cause, restored.error)))
    }

    lemma RollsBackSince(op: Operation, cause: Error, restored: Outcome, r: Outcome, from: int, later: int)
      requires RollsBack(op, cause, restored, r, later) && from <= later
      ensures RollsBack(op, cause, restored, r, from)
    {
    }

    /** Puts the new certificate in place and checks it. `failure` is the error that led to a rollback, if one did. */
    method DeployNew(op: Operation, snapshot: Snapshot, current: CertificateConfig, verified: Verified,
                     ghost start: World)
      returns (r: Outcome, ghost failure: Option<Error>, ghost restored: Outcome)
      requires op.kind == Renew && op.stage == CertIssued && Material(op, verified)
      requires op.id in rollbacks.snapshots && rollbacks.snapshots[op.id] == snapshot && IsOperationID(op.id)
      requires snapshot.ipv4 == op.ipv4 && snapshot.newFingerprint == op.certFingerprint
      requires op.certID in edge.certs && edge.certs[op.certID] == current && Manageable(current, op.ipv4)
      requires Reads(op) && Valid() && Within(start, W(), Deploy)
      modifies this`h, this`clock, state, edge`certs, edge`read, tls`shown, tls`missed, rollbacks, env`now
      ensures env.now >= old(env.now)
      ensures Steps(op, r, CertCreated) && r != Err(ReissueRequired)
      ensures failure.Some? ==> RollsBack(op, failure.value, restored, r, old(env.now))
      ensures r.Ok? ==>
                && rollbacks.snapshots == map[] && Renews(op.certID, current, verified)
                && ShownDuring(h.log, op.ipv4, op.certFingerprint, old(env.now) + 1, env.now)
      ensures Valid() && Within(start, W(), Deploy)
    {
      hide Valid, W, Within, Plain, External, Steps, Reissuable, Carries, ShownDuring, RollsBack, Material, Manageable,
        Stored, RenewedRecord, IsOperationID;
      MaterialLeaf(op, verified);
      CallErrorsArePlain(Crashed);
      failure, restored := None, Ok;
      r := PutNew(op, current, verified, start);
      if r.IsCrash() {
        StepFails(op, r.error, CertCreated);
        return;
      }
      ghost var later := env.now;
      if r.Err? {
        failure := Some(r.error);
        r, restored := RollbackAfterFailure(op, snapshot, r.error, start);
        RollsBackSince(op, failure.value, restored, r, old(env.now), later);
        StepFails(op, r.error, CertCreated);
        return;
      }
      r, failure, restored := CheckAfterHook(op, snapshot, start);
      if failure.Some? {
        RollsBackSince(op, failure.value, restored, r, old(env.now), later);
      }
      if r.Ok? {
        ShownSooner(h.log, op.ipv4, op.certFingerprint, later + 1, env.now, old(env.now) + 1, env.now);
      }
    }

    method CheckAfterHook(op: Operation, snapshot: Snapshot, ghost start: World)
      returns (r: Outcome, ghost failure: Option<Error>, ghost restored: Outcome)
      requires op.kind == Renew && op.stage == CertIssued && op.certFingerprint != "" && IsOperationID(op.id)
      requires op.id in rollbacks.snapshots && rollbacks.snapshots[op.id] == snapshot
      requires snapshot.ipv4 == op.ipv4 && snapshot.newFingerprint == op.certFingerprint
      requires env.calm ==> op.certID in edge.certs && Carries(edge.certs[op.certID], op)
      requires Reads(op) && Valid() && Within(start, W(), Deploy)
      modifies this`h, this`clock, state, edge`certs, edge`read, tls`shown, tls`missed, rollbacks, env`now
      ensures env.now >= old(env.now)
      ensures Steps(op, r, CertCreated) && r != Err(ReissueRequired)
      ensures failure.Some? ==> RollsBack(op, failure.value, restored, r, old(env.now))
      ensures r.Ok? ==>
                && rollbacks.snapshots == map[] && edge.certs == old(edge.certs)
                && ShownDuring(h.log, op.ipv4, op.certFingerprint, old(env.now) + 1, env.now)
      ensures Valid() && Within(start, W(), Deploy)
    {
      hide Valid, W, Within, Plain, External, Steps, Reissuable, Carries, ShownDuring, RollsBack, IsOperationID;
      failure, restored := None, Ok;
      r := CrashPoint();
      CallErrorsArePlain(if r.Err? then r.error else Crashed);
      if r.Err? {
        StepFails(op, r.error, CertCreated);
        return;
      }
      ghost var later := env.now;
      ghost var checked;
      r, checked, restored := CheckNew(op, snapshot, start);
      if checked.Ok? {
        ShownSooner(h.log, op.ipv4, op.certFingerprint, later + 1, env.now, old(env.now) + 1, env.now);
      } else if !checked.IsCrash() {
        failure := Some(checked.error);
        RollsBackSince(op, checked.error, restored, r, old(env.now), later);
      }
    }

    /** The new certificate is in place; a failed check puts the old one back. `checked` is what the read-back and the
        TLS check said. */
    method CheckNew(op: Operation, snapshot: Snapshot, ghost start: World)
      returns (r: Outcome, ghost checked: Outcome, ghost restored: Outcome)
      requires op.kind == Renew && op.stage == CertIssued && op.certFingerprint != "" && IsOperationID(op.id)
      requires op.id in rollbacks.snapshots && rollbacks.snapshots[op.id] == snapshot
      requires snapshot.ipv4 == op.ipv4 && snapshot.newFingerprint == op.certFingerprint
      requires env.calm ==> op.certID in edge.certs && Carries(edge.certs[op.certID], op)
      requires Reads(op) && Valid() && Within(start, W(), Deploy)
      modifies this`h, this`clock, state, edge`certs, edge`read, tls`shown, tls`missed, rollbacks, env`now
      ensures env.now >= old(env.now)
      ensures Steps(op, r, CertCreated) && r != Err(ReissueRequired)
      ensures checked.Ok? ==> ReadAs(op.certID, op.certFingerprint, old(env.now))
      ensures checked.Ok? ==> ShownDuring(h.log, op.ipv4, op.certFingerprint, old(env.now) + 1, env.now)
      ensures checked.IsCrash() ==> r == checked
      ensures checked.Err? && !checked.IsCrash() ==> RollsBack(op, checked.error, restored, r, old(env.now))
      ensures r.Ok? ==> checked.Ok? && rollbacks.snapshots == map[] && edge.certs == old(edge.certs)
      ensures Valid() && Within(start, W(), Deploy)
    {
      hide Valid, W, Within, Plain, External, Steps, Reissuable, Carries, Serves, ShownSince, ShownDuring, ReadAs,
        RollsBack, IsOperationID;
      CallErrorsArePlain(Crashed);
      restored := Ok;
      r := ReadBack(op, snapshot, start);
      checked := r;
      if r.IsCrash() {
        StepFails(op, r.error, CertCreated);
        return;
      }
      if r.Err? {
        ghost var failed := env.now;
        r, restored := RollbackAfterFailure(op, snapshot, r.error, start);
        RollsBackSince(op, checked.error, restored, r, old(env.now), failed);
        StepFails(op, r.error, CertCreated);
        return;
      }
      ghost var shown := env.now;
      r := FinishRenewal(op, start);
      ShownSooner(h.log, op.ipv4, op.certFingerprint, old(env.now) + 1, shown, old(env.now) + 1, env.now);
    }

    method PutNew(op: Operation, current: CertificateConfig, verified: Verified,
                  ghost start: World) returns (r: Outcome)
      requires op.kind == Renew && op.stage == CertIssued && Material(op, verified) && op.id in rollbacks.snapshots
      requires op.certID in edge.certs && edge.certs[op.certID] == current && Manageable(current, op.ipv4)
      requires Reads(op) && Valid() && Within(start, W(), Deploy)
      modifies this`h, edge`certs, env`now
      ensures env.now >= old(env.now)
      ensures r.Ok? ==> op.certID in edge.certs && Carries(edge.certs[op.certID], op)
      ensures r.Ok? ==> Renews(op.certID, current, verified)
      ensures r.Ok? || edge.certs != old(edge.certs) ==>
                && op.certID in edge.certs && edge.certs == old(edge.certs)[op.certID := edge.certs[op.certID]]
                && RenewedRecord(edge.certs[op.certID], current, verified)
      ensures r.Err? ==> Plain(r.error)
      ensures env.calm ==> r.Ok?
      ensures Valid() && Within(start, W(), Deploy)
    {
      hide Inv, Seen, Counted, Within, Later, MayPut, HoldsMaterial, Material, Carries, Repeats, RenewedRecord,
        IssuedRecord, InputForOperation, Stored, SnapshotStore.Valid;
      ghost var w := W();
      MayPutNew(w, op.id, verified);
      InputIsForRecord(op, current, verified);
      var input := InputForOperation(op, current, verified);
      r := edge.UpdateCertificate(input);
      FollowPut(start, w, Deploy, op.id, input, op.id);
      if edge.certs != w.certs || r.Ok? {
        InputIsExact(op, current, verified, edge.certs[op.certID], op.certID, current.isACME);
      }
    }

    /** The record has this material now, and everything else as it was. */
    ghost predicate Renews(certID: int, current: CertificateConfig, verified: Verified)
      reads edge`certs
    {
      certID in edge.certs && RenewedRecord(edge.certs[certID], current, verified)
    }

    /** The record read back must be the new one, and TLS must serve it. */
    method ReadBack(op: Operation, snapshot: Snapshot, ghost start: World) returns (r: Outcome)
      requires op.id in rollbacks.snapshots && rollbacks.snapshots[op.id].ipv4 == op.ipv4 && op.certFingerprint != ""
      requires Reads(op) && Valid() && Within(start, W(), Deploy)
      modifies this`h, this`clock, edge`read, tls`shown, tls`missed, env`now
      ensures h == old(h).(log := h.log) && old(h.log) <= h.log && env.now >= old(env.now)
      ensures r.Ok? ==> && Serves(edge.certs, op.ipv4, op.certFingerprint)
                        && ShownDuring(h.log, op.ipv4, op.certFingerprint, op.createdAt, clock)
                        && ShownDuring(h.log, op.ipv4, op.certFingerprint, old(env.now) + 1, env.now)
                        && op.id in h.savedAt && ShownSince(h.log, op.ipv4, op.certFingerprint, h.savedAt[op.id])
      ensures r.Ok? ==> ReadAs(op.certID, op.certFingerprint, old(env.now))
      ensures r.Err? ==> Plain(r.error)
      ensures env.calm && op.certID in edge.certs && Carries(edge.certs[op.certID], op) ==> r.Ok?
      ensures Valid() && Within(start, W(), Deploy)
    {
      hide Inv, Seen, Counted, Within, Later, EdgeClient.Valid, SnapshotStore.Valid;
      var readBack := ReadRecord(op.certID);
      if readBack.Failure? {
        return Err(readBack.error);
      }
      if Fingerprint(readBack.value.certData) != op.certFingerprint || readBack.value.timeEndAt != op.expiresAt {
        return Err(Rejected);
      }
      r := VerifyTls(op.ipv4, op.certFingerprint, start, Deploy);
      if r.Ok? {
        ShownNow(W(), schedule, op.id, op.certFingerprint);
      }
    }

    method FinishRenewal(op: Operation, ghost start: World) returns (r: Outcome)
      requires op.kind == Renew && op.stage == CertIssued && op.certFingerprint != "" && op.id in rollbacks.snapshots
               && IsOperationID(op.id)
      requires Serves(edge.certs, op.ipv4, op.certFingerprint)
      requires ShownDuring(h.log, op.ipv4, op.certFingerprint, op.createdAt, clock)
      requires op.id in h.savedAt && ShownSince(h.log, op.ipv4, op.certFingerprint, h.savedAt[op.id])
      requires rollbacks.snapshots[op.id].newFingerprint == op.certFingerprint
               && rollbacks.snapshots[op.id].ipv4 == op.ipv4
      requires Reads(op) && Valid() && Within(start, W(), Deploy)
      modifies this`h, this`clock, state`operations, rollbacks, env`now
      ensures Steps(op, r, CertCreated) && r != Err(ReissueRequired)
      ensures h.log == old(h.log) && env.now >= old(env.now)
      ensures r.Ok? ==> rollbacks.snapshots == map[]
      ensures Valid() && Within(start, W(), Deploy)
    {
      hide Inv, Seen, Counted, Within, Later, Plain, External, Reissuable, Deployed, Serves, ShownSince, ShownDuring,
        IsOperationID, EdgeClient.Valid, SnapshotStore.Valid;
      r := CrashPoint();
      CallErrorsArePlain(if r.Err? then r.error else Crashed);
      if r.Err? {
        return;
      }
      r := RecordDeployed(op, start, Deploy);
      if r.Err? {
        return;
      }
      r := DiscardDeployed(op.id, start, Deploy);
    }

    /** Restores the old certificate; the cause is reported either way, joined with the error of the restoration when
        that failed. */
    method RollbackAfterFailure(op: Operation, snapshot: Snapshot, cause: Error, ghost start: World)
      returns (r: Outcome, ghost restored: Outcome)
      requires op.id in rollbacks.snapshots && rollbacks.snapshots[op.id] == snapshot
      requires Reads(op) && Valid() && Within(start, W(), Deploy)
      modifies this`h, this`clock, state, edge`certs, edge`read, tls`shown, tls`missed, rollbacks, env`now
      ensures env.now >= old(env.now)
      ensures op.id in state.operations && r.Err? && (Plain(cause) ==> Plain(r.error))
      ensures RollsBack(op, cause, restored, r, old(env.now))
      ensures !r.IsCrash() ==> Is(r.error, cause)
      ensures restored.Err? && !restored.IsCrash() ==> Is(r.error, restored.error)
      ensures env.calm ==> restored.Ok?
      ensures Valid() && Within(start, W(), Deploy)
    {
      hide Valid, W, Within, Plain, Is, BacksOff, Explains, Complains, ShownDuring;
      JoinedWraps(cause, Crashed);
      r := RestoreOldCertificate(op, snapshot, start, Deploy);
      restored := r;
      if r.IsCrash() {
        return;
      }
      if r.Err? {
        JoinedWraps(cause, r.error);
        if Plain(cause) {
          JoinedIsPlain(cause, r.error);
        }
        r := Err(Joined(cause, r.error));
      } else {
        r := Err(cause);
      }
    }

    // -------------------------------------------------------------- from a certificate to activation

    method ContinueOperation(op: Operation, verified: Option<Verified>, ghost start: World,
                             ghost permit: Permit) returns (r: Outcome)
      requires op.stage in {CertIssued, CertCreated, PolicyBound} && Fits(op, verified, permit)
               && rollbacks.snapshots == map[]
      requires verified.Some? && op.kind == Issue ==> h.log[CreateCalled(op.id)] == 0
      requires Reads(op) && Valid() && Within(start, W(), permit)
      modifies this`h, this`clock, state, edge, tls, rollbacks, env`now
      ensures env.now >= old(env.now) && edge.discovered == old(edge.discovered)
      ensures Steps(op, r, Active) && (r == Err(ReissueRequired) ==> verified.None?) && (r.Ok? ==> Flawless(op.id))
      ensures r.Ok? || verified.None? ==> rollbacks.snapshots == map[]
      ensures Valid() && Within(start, W(), permit)
    {
      hide Valid, W, Within, Reissuable, Fits, Flawless, Plain, External;
      CallErrorsArePlain(Crashed);
      var current := op;
      if op.stage == CertIssued {
        r := EnsureDeployed(op, verified, start, permit);
        if r.Err? {
          return;
        }
        var read := ReadOperation(op.id);
        if read.Failure? {
          return Err(read.error);
        }
        current := read.value;
      }
      KeyedNow();
      InflightNow(current);
      r := BindAndActivate(current, start, permit);
    }

    method EnsureDeployed(op: Operation, verified: Option<Verified>, ghost start: World,
                          ghost permit: Permit) returns (r: Outcome)
      requires op.stage == CertIssued && Fits(op, verified, permit) && rollbacks.snapshots == map[]
      requires verified.Some? && op.kind == Issue ==> h.log[CreateCalled(op.id)] == 0
      requires Reads(op) && Valid() && Within(start, W(), permit)
      modifies this`h, this`clock, state, edge, tls, rollbacks, env`now
      ensures env.now >= old(env.now) && edge.discovered == old(edge.discovered)
      ensures Steps(op, r, CertCreated) && (r == Err(ReissueRequired) ==> verified.None?)
      ensures r.Ok? || verified.None? ==> rollbacks.snapshots == map[]
      ensures Valid() && Within(start, W(), permit)
    {
      hide Inv, Seen, Counted, Within, Later, Reissuable, Material, Fits, EdgeClient.Valid, SnapshotStore.Valid;
      if op.kind == Issue {
        r := EnsureCreated(op, verified, start, permit);
      } else {
        r := EnsureUpdated(op, verified, start, permit);
      }
    }

    method BindAndActivate(op: Operation, ghost start: World, ghost permit: Permit) returns (r: Outcome)
      requires op.stage in {CertCreated, PolicyBound} && rollbacks.snapshots == map[]
      requires Reads(op) && Valid() && Within(start, W(), permit)
      modifies this`h, this`clock, state, edge`bound, tls`shown, tls`missed, env`now
      ensures env.now >= old(env.now)
      ensures Steps(op, r, Active) && r != Err(ReissueRequired) && (r.Ok? ==> Flawless(op.id))
      ensures Valid() && Within(start, W(), permit)
    {
      hide Inv, Seen, Counted, Within, Later, Reissuable, Flawless, CleanRow, ActivatedFrom, EdgeClient.Valid,
        SnapshotStore.Valid;
      if op.stage == CertCreated {
        r := BindPolicy(op, start, permit);
        if r.Err? {
          return;
        }
      }
      r := Activate(op, start, permit);
    }

    /** The administrator's binding and, for a first certificate, the TLS check. */
    method BindPolicy(op: Operation, ghost start: World, ghost permit: Permit) returns (r: Outcome)
      requires op.stage == CertCreated && rollbacks.snapshots == map[]
      requires Reads(op) && Valid() && Within(start, W(), permit)
      modifies this`h, this`clock, state`operations, edge`bound, tls`shown, tls`missed, env`now
      ensures env.now >= old(env.now)
      ensures Steps(op, r, PolicyBound) && r != Err(ReissueRequired)
      ensures r.Ok? ==> state.operations[op.id].ipv4 == op.ipv4 && state.operations[op.id].expiresAt == op.expiresAt
      ensures r.Ok? ==> Observed(op, old(env.now) + 1, env.now)
      ensures Valid() && Within(start, W(), permit)
    {
      hide Valid, W, Within, BoundDuring, ShownDuring, Steps, Reissuable, Plain, External;
      CallErrorsArePlain(Crashed);
      InflightNow(op);
      r := Observe(op, start, permit);
      if r.Err? {
        StepFails(op, r.error, PolicyBound);
        return;
      }
      r := CrashPoint();
      if r.Err? {
        CallErrorsArePlain(r.error);
        StepFails(op, r.error, PolicyBound);
        return;
      }
      ghost var log, seen := h.log, clock;
      ObservedInLife(op, old(env.now) + 1);
      r := RecordBound(op, start, permit);
      ObservedLater(op, log, old(env.now) + 1, seen, env.now);
    }

    /** Both observations that a binding needs, made in this span of time. */
    ghost predicate Observed(op: Operation, from: int, to: int)
      reads this`h
    {
      && BoundDuring(h.log, op.policyID, op.certID, from, to)
      && (op.kind == Issue ==> ShownDuring(h.log, op.ipv4, op.certFingerprint, from, to))
    }

    lemma ObservedLater(op: Operation, log: multiset<Event>, from: int, seen: int, to: int)
      requires log == h.log && seen <= to && BoundDuring(log, op.policyID, op.certID, from, seen)
      requires op.kind == Issue ==> ShownDuring(log, op.ipv4, op.certFingerprint, from, seen)
      ensures Observed(op, from, to)
    {
    }

    lemma ObservedInLife(op: Operation, from: int)
      requires Reads(op) && Valid() && Observed(op, from, clock) && op.updatedAt <= from
      ensures Observed(op, op.createdAt, clock) && clock <= env.now
    {
      hide Inv, BoundDuring, ShownDuring;
      BoundInLife(W(), schedule, op.id, op.policyID, op.certID, from);
      if op.kind == Issue {
        ShownInLife(W(), schedule, op.id, op.ipv4, op.certFingerprint, from);
      }
    }

    /** GoEdge is asked each time, and the listener too for a first certificate. */
    method Observe(op: Operation, ghost start: World, ghost permit: Permit) returns (r: Outcome)
      requires op.stage == CertCreated && rollbacks.snapshots == map[]
      requires Reads(op) && Valid() && Within(start, W(), permit)
      modifies this`h, this`clock, edge`bound, tls`shown, tls`missed, env`now
      ensures h == old(h).(log := h.log) && env.now >= old(env.now) && clock >= old(clock)
      ensures r.Ok? ==> Observed(op, old(env.now) + 1, clock)
      ensures r.Err? ==> Plain(r.error)
      ensures env.calm ==> r.Ok?
      ensures Valid() && Within(start, W(), permit)
    {
      hide Inv, Seen, Counted, Within, Later, Serves, EdgeClient.Valid, SnapshotStore.Valid;
      CreatedIsServed(W(), schedule, op.id);
      r := VerifyBound(op.policyID, op.certID, start, permit);
      if r.Err? {
        return;
      }
      if op.kind == Issue {
        r := VerifyTls(op.ipv4, op.certFingerprint, start, permit);
      }
    }

    method RecordBound(op: Operation, ghost start: World, ghost permit: Permit) returns (r: Outcome)
      requires op.stage == CertCreated && rollbacks.snapshots == map[] && Observed(op, op.createdAt, clock)
      requires Reads(op) && Valid() && Within(start, W(), permit)
      modifies this`h, this`clock, state`operations, env`now
      ensures Steps(op, r, PolicyBound) && r != Err(ReissueRequired)
      ensures r.Ok? ==> state.operations[op.id].ipv4 == op.ipv4 && state.operations[op.id].expiresAt == op.expiresAt
      ensures h.log == old(h.log) && env.now >= old(env.now)
      ensures Valid() && Within(start, W(), permit)
    {
      hide CompareAndSet, Inv, Seen, Counted, Within, Later, Reissuable, MayMove, BoundDuring, ShownDuring,
        EdgeClient.Valid, SnapshotStore.Valid;
      ghost var w := W();
      MayBind(w, schedule, op.id);
      r := state.SetPolicyBound(op.id, CertCreated);
      FollowMove(start, w, permit, op.id, CertCreated, PolicyBound, ClearMarker, 0, r);
    }

    method Activate(op: Operation, ghost start: World, ghost permit: Permit) returns (r: Outcome)
      requires op.id in state.operations && state.operations[op.id].stage == PolicyBound
      requires state.operations[op.id].ipv4 == op.ipv4 && state.operations[op.id].expiresAt == op.expiresAt
      requires Valid() && Within(start, W(), permit)
      modifies this`h, this`clock, state, env`now
      ensures env.now >= old(env.now)
      ensures Steps(op, r, Active) && r != Err(ReissueRequired)
      ensures r.Ok? ==> Flawless(op.id) && state.operations[op.id].updatedAt == env.now
      ensures r.Ok? ==> && op.ipv4 in state.managed && CleanRow(state.managed[op.ipv4], env.now)
                        && ActivatedFrom(state.managed[op.ipv4], old(state.operations)[op.id], accountReference,
                                         StoredRenewal(schedule, op.ipv4, op.expiresAt))
      ensures Valid() && Within(start, W(), permit)
    {
      hide Inv, Seen, Counted, Within, Later, Reissuable, Plain, External, EdgeClient.Valid, SnapshotStore.Valid;
      ghost var w := W();
      var next := schedule.NextRenewal(op.ipv4, FromUnix(op.expiresAt));
      r := state.SetActive(op.id, PolicyBound, accountReference, Unix(next));
      CallErrorsArePlain(if r.Err? then r.error else Crashed);
      FollowActive(start, w, permit, op.id, Unix(next));
    }

    /** A failed step leaves its category on the operation, whatever stage the step reached, and its error is reported
        unchanged; only a failure to read or write the log hides it. `step` is how the step ended. */
    method ContinueRecorded(op: Operation, verified: Option<Verified>, ghost start: World, ghost permit: Permit)
      returns (r: Outcome, ghost step: Outcome)
      requires op.stage in {CertIssued, CertCreated, PolicyBound} && Fits(op, verified, permit)
               && rollbacks.snapshots == map[]
      requires verified.Some? && op.kind == Issue ==> h.log[CreateCalled(op.id)] == 0
      requires Reads(op) && Valid() && Within(start, W(), permit)
      modifies this`h, this`clock, state, edge, tls, rollbacks, env`now
      ensures Recorded(op, r) && (r == Err(ReissueRequired) ==> verified.None?) && (r.Ok? ==> Flawless(op.id))
      ensures env.calm ==> r.Ok? || r == Err(ReissueRequired)
      ensures r.Ok? || verified.None? ==> rollbacks.snapshots == map[]
      ensures if step.Ok? || step.IsCrash() then r == step else r.Err? && Reported(op.id, step.error, r)
      ensures env.now >= old(env.now) && edge.discovered == old(edge.discovered)
      ensures Valid() && Within(start, W(), permit)
    {
      hide Valid, W, Within, Plain, External, Steps, Reportable, Reissuable, Fits, Recorded, NotedAs, Flawless;
      InflightNow(op);
      KeepsLast(start, permit);
      ghost var mid := W();
      RowsNow();
      WithinIsReflexive(mid, permit);
      r := ContinueOperation(op, verified, mid, permit);
      step := r;
      LeafNow(mid, permit, op.id);
      WithinIsTransitive(start, mid, W(), permit);
      if r.Ok? || r.IsCrash() {
        StepIsRecorded(op, r);
        return;
      }
      KeepsLast(start, permit);
      StepIsReportable(op, r);
      r := RecordFailure(op, r.error, start, permit);
    }

    /** The cause is reported with its category on the operation, or the log failed. */
    ghost predicate Reported(id: string, cause: Error, r: Outcome)
      reads state`operations, env`calm
    {
      && (r != Err(cause) ==> r.Err? && (r.error == Crashed || External(r.error)))
      && (r == Err(cause) && !(cause == Crashed || External(cause)) ==> NotedAs(id, cause))
      && (env.calm ==> r == Err(cause) && NotedAs(id, cause))
    }

    ghost predicate NotedAs(id: string, cause: Error)
      reads state`operations
    {
      Explains(id, ClassifyError(cause).0, STEP_FAILED, ClassifyError(cause).1)
    }

    lemma StepIsRecorded(op: Operation, r: Outcome)
      requires Steps(op, r, Active) && (r.Ok? || r.IsCrash())
      ensures Recorded(op, r) && (env.calm ==> r.Ok?)
    {
    }

    ghost predicate Recorded(op: Operation, r: Outcome)
      reads this`h, this`clock, state, edge`certs, rollbacks`snapshots, issuer`issued
    {
      && op.id in state.operations
      && (r.Ok? ==> state.operations[op.id].stage == Active)
      && (r.Err? ==> Plain(r.error) || r.error == ReissueRequired)
      && (r == Err(ReissueRequired) ==>
            Reissuable(W(), op.id) && op.stage == CertIssued && state.operations[op.id].retryCount == op.retryCount)
    }

    lemma StepIsReportable(op: Operation, r: Outcome)
      requires Steps(op, r, Active) && r.Err?
      ensures op.id in state.operations && Reportable(op, r.error) && (env.calm ==> r == Err(ReissueRequired))
    {
    }

    /** The log could not be read or written. */
    lemma LogFails(op: Operation, cause: Error, e: Error)
      requires op.id in state.operations && (e == Crashed || External(e)) && !env.calm
      ensures Recorded(op, Err(e)) && Reported(op.id, cause, Err(e)) && e != ReissueRequired
    {
      CallErrorsArePlain(e);
    }

    lemma FailureIsReported(op: Operation, cause: Error)
      requires NotedAs(op.id, cause) && (Plain(cause) || cause == ReissueRequired)
      requires cause == ReissueRequired ==> Reissuable(W(), op.id) && op.stage == CertIssued
                                            && state.operations[op.id].retryCount == op.retryCount
      ensures Recorded(op, Err(cause)) && Reported(op.id, cause, Err(cause))
    {
    }

    /** A failure that a run may report, or a key lost before anything reached GoEdge. */
    ghost predicate Reportable(op: Operation, cause: Error)
      reads this`h, this`clock, state`operations, state`managed, edge`certs, rollbacks`snapshots, issuer`issued
    {
      Plain(cause) || (cause == ReissueRequired && Reads(op) && Reissuable(W(), op.id))
    }

    method RecordFailure(op: Operation, cause: Error, ghost start: World, ghost permit: Permit) returns (r: Outcome)
      requires op.id in state.operations && op.id == h.last && state.operations[op.id].certFingerprint != ""
      requires Reportable(op, cause)
      requires Valid() && Within(start, W(), permit)
      modifies this`h, this`clock, state`operations, env`now
      ensures Recorded(op, r) && r.Err? && (r.error == ReissueRequired ==> cause == ReissueRequired)
      ensures Reported(op.id, cause, r) && env.now >= old(env.now)
      ensures Valid() && Within(start, W(), permit)
    {
      hide Valid, W, Within, Reissuable, Recorded, Reported, ClassifyError, Explains, Plain, External, Is;
      CallErrorsArePlain(Crashed);
      var read := ReadOperation(op.id);
      if read.Failure? {
        LogFails(op, cause, read.error);
        return Err(read.error);
      }
      var kind := ClassifyError(cause);
      r := NoteFailure(op, read.value.stage, kind.0, kind.1, start, permit);
      if r.Err? {
        LogFails(op, cause, r.error);
        return;
      }
      FailureIsReported(op, cause);
      r := Err(cause);
    }

    method NoteFailure(op: Operation, stage: Stage, category: string, marker: string, ghost start: World,
                       ghost permit: Permit)
      returns (r: Outcome)
      requires op.id in state.operations && state.operations[op.id].stage == stage && op.id == h.last
      requires state.operations[op.id].certFingerprint != ""
      requires Valid() && Within(start, W(), permit)
      modifies this`h, this`clock, state`operations, env`now
      ensures Ends(op.id, r, stage) && (r.Ok? ==> Explains(op.id, category, STEP_FAILED, marker))
              && env.now >= old(env.now)
      ensures old(Reads(op)) && old(Reissuable(W(), op.id)) ==>
                && Reissuable(W(), op.id) && op.stage == CertIssued
                && state.operations[op.id].retryCount == op.retryCount
      ensures Valid() && Within(start, W(), permit)
    {
      hide CompareAndSet, Inv, Seen, Counted, Within, Later, Reissuable, MayMove, Moved, EdgeClient.Valid,
        SnapshotStore.Valid;
      ghost var w := W();
      ghost var patch := SetFailure(category, STEP_FAILED, marker);
      MayRecordFailure(w, schedule, op.id, patch);
      r := state.RecordOperationFailure(op.id, stage, category, STEP_FAILED, marker);
      FollowMove(start, w, permit, op.id, stage, stage, patch, 0, r);
      NotedRow(w, op.id, patch, env.now);
      FailureKeepsReissuable(w, W(), op.id, patch, env.now);
    }

    // -------------------------------------------------------------- recovery

    method RecoverOperation(op: Operation, ghost start: World) returns (r: Outcome)
      requires Inflight(op.stage) && rollbacks.snapshots == map[]
      requires Reads(op) && Valid() && Within(start, W(), Frozen)
      modifies this`h, this`clock, state, edge, tls, rollbacks, env`now
      ensures env.now >= old(env.now)
      ensures r.Ok? ==> Settled(W())
      ensures r.Ok? && op.stage in {New, Renewing, ChallengePresent} ==> Interrupted(op.id)
      ensures r.Ok? && op.stage in {CertIssued, CertCreated, PolicyBound} ==> Finished(op, old(env.now))
      ensures r.Ok? ==> op.id in state.operations && EndsAs(op, state.operations[op.id])
      ensures r.Err? ==> Plain(r.error)
      ensures env.calm ==> r.Ok?
      ensures Valid() && Within(start, W(), Frozen)
    {
      hide Valid, W, Within, Settled, Plain, External, Interrupted, Finished, EndsAs;
      InflightNow(op);
      KeepsLast(start, Frozen);
      match op.stage {
        case New | Renewing | ChallengePresent =>
          r := Interrupt(op, start);
        case CertIssued | CertCreated | PolicyBound =>
          r := Resume(op, start);
        case _ =>
          r := Err(UnknownStage);
      }
      CallErrorsArePlain(if r.Err? then r.error else Crashed);
      KeepsLast(start, Frozen);
      if r.Ok? {
        RecoveredIsOver(op, old(env.now));
        SettledNow(op.id);
      }
    }

    /** Continues without a key; an operation whose key is lost is given up with a backoff. */
    method Resume(op: Operation, ghost start: World) returns (r: Outcome)
      requires op.stage in {CertIssued, CertCreated, PolicyBound} && rollbacks.snapshots == map[]
      requires Reads(op) && Valid() && Within(start, W(), Frozen)
      modifies this`h, this`clock, state, edge, tls, rollbacks, env`now
      ensures env.now >= old(env.now)
      ensures op.id in state.operations && rollbacks.snapshots == map[]
      ensures r.Ok? ==> Finished(op, old(env.now))
      ensures r.Err? ==> Plain(r.error)
      ensures env.calm ==> r.Ok?
      ensures Valid() && Within(start, W(), Frozen)
    {
      hide Valid, W, Within, Reissuable, Fits, BacksOff, Explains, Reported, Flawless, Plain, External, Is;
      NothingFits(op, Frozen);
      InflightNow(op);
      ghost var step;
      r, step := ContinueRecorded(op, None, start, Frozen);
      OnlyLostKeys(if r.Err? then r.error else Crashed);
      if r.Err? && Is(r.error, ReissueRequired) {
        ReissuableNow(op.id);
        ghost var later := env.now;
        r := Reschedule(op, KEY_LOST, start, Frozen);
        CallErrorsArePlain(if r.Err? then r.error else Crashed);
        if r.Ok? {
          BacksOffSince(op.id, 1, old(env.now), later);
        }
      }
    }

    /** Recovery without a key: the operation is active, or, when its leaf had not reached GoEdge, over with the first
        backoff. */
    ghost predicate Finished(op: Operation, from: int)
      reads this`h, this`clock, state
    {
      && op.id in state.operations
      && (|| Flawless(op.id)
          || (op.stage == CertIssued && BacksOff(op.id, 1, from)
              && Explains(op.id, "transient", KEY_LOST, "retry-new-order")))
    }

    /** Recovery of an order without a stored leaf: over, and nothing to wait for. */
    ghost predicate Interrupted(id: string)
      reads state`operations
    {
      && Explains(id, "transient", INTERRUPTED, "retry-new-order")
      && state.operations[id].stage == Stage.Error && RetryOf(state.operations[id]) == RetryInfo(0, 0)
    }

    lemma RecoveredIsOver(op: Operation, from: int)
      requires if op.stage in {New, Renewing, ChallengePresent} then Interrupted(op.id) else Finished(op, from)
      ensures op.id in state.operations && !Inflight(state.operations[op.id].stage)
      ensures EndsAs(op, state.operations[op.id])
    {
    }

    lemma NothingFits(op: Operation, permit: Permit)
      ensures Fits(op, None, permit)
    {
    }

    method Interrupt(op: Operation, ghost start: World) returns (r: Outcome)
      requires op.stage in {New, Renewing, ChallengePresent}
      requires Reads(op) && Valid() && Within(start, W(), Frozen)
      modifies this`h, this`clock, state`operations, env`now
      ensures env.now >= old(env.now)
      ensures Ends(op.id, r, Stage.Error) && (r.Ok? ==> Interrupted(op.id))
      ensures Valid() && Within(start, W(), Frozen)
    {
      hide CompareAndSet, Inv, Seen, Counted, Within, Later, MayMove, Moved, Patched, Plain, External, EdgeClient.Valid,
        SnapshotStore.Valid;
      ghost var w := W();
      InflightRow(w, schedule, op.id);
      ghost var patch := SetFailure("transient", INTERRUPTED, "retry-new-order");
      MayInterrupt(w, schedule, op.id, patch);
      r := state.SetError(op.id, op.stage, "transient", INTERRUPTED, "retry-new-order");
      PlainlyFailedRow(w.rows[op.id], patch, env.now);
      CallErrorsArePlain(if r.Err? then r.error else Crashed);
      FollowMove(start, w, Frozen, op.id, op.stage, Stage.Error, patch, 0, r);
    }

    /** Every operation ends as its stage prescribes; without a key nothing is written to GoEdge. */
    method RecoverOperations(ghost start: World) returns (r: Outcome)
      requires rollbacks.snapshots == map[] && Valid() && Within(start, W(), Frozen)
      modifies this`h, this`clock, state, edge, tls, rollbacks, env`now
      ensures env.now >= old(env.now)
      ensures r.Ok? ==> Settled(W()) && Recovered(old(state.operations), state.operations)
      ensures old(Settled(W())) ==> state.operations == old(state.operations) && state.managed == old(state.managed)
      ensures r.Err? ==> Plain(r.error)
      ensures env.calm ==> r.Ok?
      ensures Valid() && Within(start, W(), Frozen)
    {
      hide Inv, Seen, Counted, Within, Later, Settled, Recovered, EndsAs, ListsIncomplete, EdgeClient.Valid,
        SnapshotStore.Valid;
      KeyedNow();
      var listed := state.ListIncompleteOperations();
      if listed.Failure? {
        return Err(listed.error);
      }
      ListedNow(listed.value);
      ghost var w := W();
      WithinIsReflexive(w, Frozen);
      r := Ok;
      for i := 0 to |listed.value|
        invariant i == 0 ==> state.operations == old(state.operations) && state.managed == old(state.managed)
        invariant i == 0 ==> rollbacks.snapshots == map[]
        invariant old(Settled(W())) ==> listed.value == []
        invariant i > 0 || listed.value == [] ==> Settled(W()) && Recovered(old(state.operations), state.operations)
        invariant i == 0 ==> W() == w
        invariant r.Ok? && Valid() && Within(w, W(), Frozen) && env.now >= old(env.now)
      {
        r := RecoverOperation(listed.value[i], w);
        if r.Err? {
          WithinIsTransitive(start, w, W(), Frozen);
          return;
        }
        RecoveredNow(w, listed.value[i]);
      }
      WithinIsTransitive(start, w, W(), Frozen);
    }

    lemma KeyedNow()
      requires Valid()
      ensures Keyed(state.operations) && clock <= env.now
    {
      hide Inv;
      RowsAreKeyed(W(), schedule);
    }

    lemma ListedNow(list: seq<Operation>)
      requires Valid() && ListsIncomplete(state.operations, list) && rollbacks.snapshots == map[]
      ensures |list| <= 1 && (list == [] ==> Settled(W()) && Recovered(state.operations, state.operations))
      ensures forall i :: 0 <= i < |list| ==> Reads(list[i]) && Inflight(list[i].stage)
      ensures Settled(W()) ==> list == []
    {
      hide Inv, ListsIncomplete;
      OneOperationAtMost(W(), schedule, list);
      if list != [] {
        assert Reads(list[0]) && Inflight(list[0].stage);
      }
    }

    /** Everything but the newest operation was over already. */
    lemma RecoveredNow(w: World, op: Operation)
      requires Inv(w, schedule) && Within(w, W(), Frozen)
               && op.id in w.rows && w.rows[op.id] == op && Inflight(op.stage)
      requires op.id in state.operations && EndsAs(op, state.operations[op.id])
      ensures Recovered(w.rows, state.operations)
    {
      hide Inv, Within, EndsAs;
      OneRecovered(w, schedule, W(), op);
    }

    // -------------------------------------------------------------- one order

    ghost method FollowCreate(start: World, w: World, op: Operation, attempt: int)
      requires W() == w || (MayCreate(w, op, attempt) && W() == w.(rows := w.rows[op.id := Inserted(op, env.now)]))
      requires Wired() && edge.Valid() && rollbacks.Valid() && Witnessed() && Inv(w, schedule) && w.now < env.now
      requires Ordered(start, w, op.ipv4, 0)
      modifies this`clock, this`h
      ensures W() == w || W() == Created(w, op, attempt, env.now)
      ensures if state.operations != w.rows then W() == Created(w, op, attempt, env.now) else W() == w
      ensures Valid() && Ordered(start, W(), op.ipv4, 0)
    {
      hide Inv, Seen, Counted, Ordered, Later, MayCreate, Inserted;
      if W() != w {
        CreateKeepsInv(w, schedule, op, attempt, env.now);
        NewOperationKeepsCounted(w, schedule, issuer.calls, edge.creations, op, attempt, env.now);
        h, clock := Created(w, op, attempt, env.now).h, env.now;
        CreateIsOrdered(start, w, op, attempt, env.now, 0);
      }
    }

    /** The authority was asked in the state `w` and has answered: with a leaf that nobody knew, with a refusal, or not
        at all. The history has not been told yet. */
    ghost predicate Answering(w: World, calls: multiset<string>, placed: map<string, int>, denied: map<string, int>,
                              id: string, leaf: Option<string>, refused: bool)
      reads this, env, state, edge, rollbacks, issuer, tls
    {
      && MaySend(w, id) && id in w.rows && (refused ==> leaf.None?)
      && (leaf.Some? ==> leaf.value != "" && leaf.value !in w.issued)
      && W() == (if leaf.Some? then WithLeaf(w, leaf.value) else w)
      && issuer.calls == calls + multiset{w.rows[id].ipv4} && issuer.placed == placed[id := w.now]
      && issuer.denied == (if refused then denied[id := env.now] else denied)
      && Seen(h.log, tls.shown, tls.missed, edge.bound) && Counted(h.log, h.marks, calls, edge.creations)
      && Timed(h, placed, denied)
      && Wired() && edge.Valid() && rollbacks.Valid() && Inv(w, schedule) && w.now <= env.now
    }

    /** A call to the authority: counted whatever came of it; a success left a leaf that nobody knew. */
    ghost method FollowOrder(start: World, w: World, calls: multiset<string>, placed: map<string, int>,
                             denied: map<string, int>, id: string, leaf: Option<string>, refused: bool)
      requires Answering(w, calls, placed, denied, id, leaf, refused)
      requires Ordered(start, w, w.rows[id].ipv4, 0)
      modifies this`h, this`clock
      ensures h.log == w.h.log + multiset{ObtainCalled(w.rows[id].ipv4)} && h.attempt == w.h.attempt
      ensures h.orderedAt == w.h.orderedAt[id := w.now]
      ensures h.deniedAt == if refused then w.h.deniedAt[id := env.now] else w.h.deniedAt
      ensures leaf.Some? ==> IsNew(W(), leaf.value)
      ensures Valid() && Ordered(start, W(), w.rows[id].ipv4, 1)
    {
      hide Inv, Seen, Counted, Ordered, IsNew, MaySend, Answered;
      ghost var ip := w.rows[id].ipv4;
      AnsweredFields(w, id, leaf, refused, env.now);
      LogKeepsSeen(h.log, tls.shown, tls.missed, edge.bound, ObtainCalled(ip));
      ObtainKeepsCounted(h.log, h.marks, calls, edge.creations, ip);
      AnswerKeepsInv(start, w, schedule, id, leaf, refused, env.now);
      ghost var v := Answered(w, id, leaf, refused, env.now);
      h, clock := v.h, v.now;
    }

    /** The operation waits for the authority, in an order started with this attempt number. */
    ghost predicate AtAuthority(op: Operation, attempt: int)
      reads this`h, state`operations
    {
      && op.id in state.operations && op.id in h.attempt && h.attempt[op.id] == attempt >= 0
      && var o := state.operations[op.id];
      o.stage == ChallengePresent && o.ipv4 == op.ipv4 && o.kind == op.kind
    }

    /** What a refused order says of itself, by its kind. */
    ghost predicate SaysRefused(op: Operation)
      reads state`operations
    {
      Explains(op.id, "transient", ORDER_FAILED,
               if op.kind == Issue then RECOVERY_NEEDS_ATTENTION else "retry-new-order")
    }

    /** The authority refused: the backoff is stored with the attempt number this order was started with. */
    method Refuse(op: Operation, retryAttempt: int, cause: Error, ghost start: World) returns (r: Outcome)
      requires AtAuthority(op, retryAttempt) && op.id in h.deniedAt && Plain(cause)
      requires Valid() && Within(start, W(), Deploy)
      modifies this`h, this`clock, state, env`now
      ensures r.Err? && Plain(r.error)
      ensures r != Err(cause) ==> r.error == Crashed || External(r.error)
      ensures r == Err(cause) && !(cause == Crashed || External(cause)) ==>
              && BacksOff(op.id, retryAttempt + 1, old(env.now)) && SaysRefused(op)
              && (op.kind == Renew ==> Complains(op.ipv4, ORDER_FAILED))
      ensures env.calm ==> && r == Err(cause) && BacksOff(op.id, retryAttempt + 1, old(env.now)) && SaysRefused(op)
                           && (op.kind == Renew ==> Complains(op.ipv4, ORDER_FAILED))
      ensures Valid() && Within(start, W(), Deploy)
    {
      hide Valid, W, Within, BacksOff, Explains, Complains, Plain, External;
      RenewalNow(op.id);
      r := StoreBackoff(op, retryAttempt, start);
      CallErrorsArePlain(if r.Err? then r.error else Crashed);
      if r.Ok? {
        r := ReportRefusal(op, cause, start);
      }
    }

    method StoreBackoff(op: Operation, retryAttempt: int, ghost start: World) returns (r: Outcome)
      requires AtAuthority(op, retryAttempt) && op.id in h.deniedAt
      requires Valid() && Within(start, W(), Deploy)
      modifies this`h, this`clock, state`operations, env`now
      ensures r.Ok? ==> BacksOff(op.id, retryAttempt + 1, old(env.now))
      ensures r.Ok? ==> SaysRefused(op)
      ensures r.Err? ==> r.error == Crashed || External(r.error)
      ensures env.calm ==> r.Ok?
      ensures Valid() && Within(start, W(), Deploy)
    {
      hide CompareAndSet, Inv, Seen, Counted, Within, Later, MayMove, Moved, Patched, EdgeClient.Valid,
        SnapshotStore.Valid;
      InflightRow(W(), schedule, op.id);
      Tick(start, Deploy);
      ghost var w := W();
      var delay := RetryDelay(schedule, retryAttempt);
      var nextRetry := Unix(env.now + delay);
      var marker := if op.kind == Issue then RECOVERY_NEEDS_ATTENTION else "retry-new-order";
      ghost var patch := SetFailureWithRetry("transient", ORDER_FAILED, marker, retryAttempt + 1, nextRetry);
      MayRefuse(w, schedule, op.id, retryAttempt, patch);
      r := state.SetErrorWithRetry(op.id, ChallengePresent, "transient", ORDER_FAILED, marker,
                                   retryAttempt + 1, nextRetry);
      FollowMove(start, w, Deploy, op.id, ChallengePresent, Stage.Error, patch, w.now, r);
      FailedRow(w, op.id, patch, w.now, env.now);
    }

    method ReportRefusal(op: Operation, cause: Error, ghost start: World) returns (r: Outcome)
      requires (op.kind == Renew ==> op.ipv4 in state.managed) && Plain(cause)
      requires Valid() && Within(start, W(), Deploy)
      modifies state`managed, env`now
      ensures r.Err? && Plain(r.error) && env.now >= old(env.now)
      ensures r != Err(cause) ==> r.error == Crashed || External(r.error)
      ensures r == Err(cause) && !(cause == Crashed || External(cause)) && op.kind == Renew ==>
              Complains(op.ipv4, ORDER_FAILED)
      ensures env.calm ==> r == Err(cause) && (op.kind == Renew ==> Complains(op.ipv4, ORDER_FAILED))
      ensures Valid() && Within(start, W(), Deploy)
    {
      hide Valid, W, Within, Complains;
      if op.kind == Renew {
        r := NoteManaged(op.ipv4, ORDER_FAILED, start, Deploy);
        if r.Err? {
          return;
        }
      }
      r := Err(cause);
    }

    /** The authority issued: a chain that fails its checks is refused for review, without a backoff; any other is
        stored. `verdict` is what the checks said. */
    method Store(op: Operation, leaf: Issued, ghost start: World) returns (r: Outcome, ghost verdict: Outcome)
      requires op.id in state.operations && state.operations[op.id].stage == ChallengePresent
               && state.operations[op.id].ipv4 == op.ipv4
      requires op.id in h.orderedAt && op.id !in h.deniedAt
      requires IsNew(W(), leaf.fingerprint) && rollbacks.snapshots == map[]
      requires Valid() && Within(start, W(), Deploy)
      modifies this`h, this`clock, state, edge, tls, rollbacks, env`now
      ensures edge.discovered == old(edge.discovered)
      ensures r.Ok? ==> Settled(W()) && Flawless(op.id)
      ensures r.Ok? ==> verdict.Ok?
      ensures verdict.Err? ==>
                if r == Err(Rejected) then RefusedForReview(op.id)
                else r.Err? && (r.error == Crashed || External(r.error))
      ensures verdict.Err? ==> rollbacks.snapshots == map[]
      ensures env.calm ==> if verdict.Ok? then r.Ok? else r == Err(Rejected)
      ensures verdict.Ok? && r == Err(Rejected) ==>
                op.id in state.operations && state.operations[op.id].certFingerprint == leaf.fingerprint
      ensures r.Err? ==> Plain(r.error)
      ensures Valid() && Within(start, W(), Deploy)
    {
      hide Inv, Seen, Counted, Within, Later, Plain, External, IsNew, Settled, RefusedForReview, Material,
        EdgeClient.Valid, SnapshotStore.Valid;
      var checked := issuer.Verify(leaf, op.ipv4, env.now);
      CallErrorsArePlain(if checked.Failure? then checked.error else Crashed);
      verdict := if checked.Failure? then Err(checked.error) else Ok;
      if checked.Failure? {
        r := RefuseChain(op, start);
        return;
      }
      r := SaveLeaf(op, checked.value, start);
      if r.Err? {
        return;
      }
      r := CrashPoint();
      CallErrorsArePlain(if r.Err? then r.error else Crashed);
      if r.Err? {
        return;
      }
      r := ContinueIssued(op, checked.value, start);
    }

    /** The operation is over for review, with no backoff and no leaf. */
    ghost predicate RefusedForReview(id: string)
      reads state`operations
    {
      && Explains(id, "security", REJECTED, "manual-review")
      && var o := state.operations[id];
      o.stage == Stage.Error && o.retryCount == 0 && o.nextRetryAt == 0 && o.certFingerprint == ""
    }

    method RefuseChain(op: Operation, ghost start: World) returns (r: Outcome)
      requires op.id in state.operations && state.operations[op.id].stage == ChallengePresent
      requires Valid() && Within(start, W(), Deploy)
      modifies this`h, this`clock, state`operations, env`now
      ensures r.Err? && Plain(r.error)
      ensures if r == Err(Rejected) then RefusedForReview(op.id) else r.error == Crashed || External(r.error)
      ensures env.calm ==> r == Err(Rejected)
      ensures Valid() && Within(start, W(), Deploy)
    {
      hide CompareAndSet, Inv, Seen, Counted, Within, Later, MayMove, Moved, Patched, Plain, External, EdgeClient.Valid,
        SnapshotStore.Valid;
      CallErrorsArePlain(Rejected);
      ghost var w := W();
      InflightRow(w, schedule, op.id);
      ghost var patch := SetFailure("security", REJECTED, "manual-review");
      MayInterrupt(w, schedule, op.id, patch);
      r := state.SetError(op.id, ChallengePresent, "security", REJECTED, "manual-review");
      PlainlyFailedRow(w.rows[op.id], patch, env.now);
      CallErrorsArePlain(if r.Err? then r.error else Crashed);
      FollowMove(start, w, Deploy, op.id, ChallengePresent, Stage.Error, patch, 0, r);
      if r.Ok? {
        r := Err(Rejected);
      }
    }

    method SaveLeaf(op: Operation, verified: Verified, ghost start: World) returns (r: Outcome)
      requires op.id in state.operations && state.operations[op.id].stage == ChallengePresent
               && state.operations[op.id].ipv4 == op.ipv4
      requires op.id in h.orderedAt && op.id !in h.deniedAt
      requires IsNew(W(), verified.fingerprint) && verified.certPEM == Leaf(verified.fingerprint)
      requires verified.keyPEM != "" && verified.dnsNames == [op.ipv4]
      requires Valid() && Within(start, W(), Deploy)
      modifies this`h, this`clock, state`operations, env`now
      ensures r.Ok? ==> && op.id in state.operations && state.operations[op.id].stage == CertIssued
                        && Material(state.operations[op.id], verified) && h.log[CreateCalled(op.id)] == 0
      ensures r.Err? ==> Plain(r.error) && r.error != Rejected
      ensures env.calm && SECOND <= verified.notAfter ==> r.Ok?
      ensures Valid() && Within(start, W(), Deploy)
    {
      hide CompareAndSet, Inv, Seen, Counted, Within, Later, MayMove, Material, Moved, Patched, EdgeClient.Valid,
        SnapshotStore.Valid;
      ghost var w := W();
      var fingerprint, expiresAt := verified.fingerprint, Unix(verified.notAfter);
      NeverCreated(w, schedule, op.id);
      if expiresAt > 0 {
        MayStore(w, schedule, op.id, fingerprint, expiresAt);
      }
      r := state.SaveIssued(op.id, ChallengePresent, fingerprint, expiresAt);
      if expiresAt > 0 {
        FollowMove(start, w, Deploy, op.id, ChallengePresent, CertIssued, SetIssued(fingerprint, expiresAt), 0, r);
        IssuedRow(w, op.id, verified, env.now);
      }
    }

    method ContinueIssued(op: Operation, verified: Verified, ghost start: World) returns (r: Outcome)
      requires op.id in state.operations && state.operations[op.id].stage == CertIssued
               && Material(state.operations[op.id], verified)
      requires h.log[CreateCalled(op.id)] == 0 && rollbacks.snapshots == map[]
      requires Valid() && Within(start, W(), Deploy)
      modifies this`h, this`clock, state, edge, tls, rollbacks, env`now
      ensures edge.discovered == old(edge.discovered)
      ensures r.Ok? ==> Settled(W()) && Flawless(op.id)
      ensures op.id in state.operations && verified.certPEM == Leaf(state.operations[op.id].certFingerprint)
      ensures r.Err? ==> Plain(r.error)
      ensures env.calm ==> r.Ok?
      ensures Valid() && Within(start, W(), Deploy)
    {
      hide Inv, Seen, Counted, Within, Later, Settled, Material, Reissuable, EdgeClient.Valid, SnapshotStore.Valid;
      MaterialLeaf(state.operations[op.id], verified);
      var read := ReadOperation(op.id);
      if read.Failure? {
        return Err(read.error);
      }
      InflightRow(W(), schedule, op.id);
      WithinKeepsLast(start, W(), Deploy);
      ghost var w := W();
      WithinIsReflexive(w, Deploy);
      ghost var step;
      r, step := ContinueRecorded(read.value, Some(verified), w, Deploy);
      WithinKeepsLeaf(w, W(), Deploy, op.id);
      WithinIsTransitive(start, w, W(), Deploy);
      WithinKeepsLast(start, W(), Deploy);
      if r.Ok? {
        LastIsOver(W(), schedule);
      }
    }

    /** Nothing but the service's own rows of the challenge table has changed. */
    twostate predicate ChallengesKept()
      reads table, journal
    {
      ChallengesOk() && Foreign(table, journal) == old(Foreign(table, journal)) && table.checked == old(table.checked)
    }

    /** A new operation for the order to come. */
    ghost predicate Placed(op: Operation, attempt: int)
      reads this`h, this`clock, state`operations, state`managed, edge`certs, rollbacks`snapshots, issuer`issued
    {
      && op.id in state.operations && op.id !in h.orderedAt && op.id in h.attempt && h.attempt[op.id] == attempt
      && MayOrder(W(), op.ipv4)
      && state.operations[op.id].stage == op.stage && SameOrder(op, state.operations[op.id])
    }

    /** A successful order ends with the operation active, for the target it was placed for. */
    ghost predicate Concluded(op: Operation)
      reads state
    {
      Flawless(op.id) && SameOrder(op, state.operations[op.id])
    }

    method ObtainAndContinue(op: Operation, retryAttempt: int, ghost start: World) returns (r: Outcome)
      requires Placed(op, retryAttempt) && op.stage in {New, Renewing} && retryAttempt >= 0
               && rollbacks.snapshots == map[]
      requires ChallengesOk() && Valid() && Ordered(start, W(), op.ipv4, 0)
      modifies this`h, this`clock, state, edge, tls, rollbacks, issuer, table, journal, env`now
      ensures edge.discovered == old(edge.discovered)
      ensures r.Ok? ==> Settled(W()) && Concluded(op)
      ensures op.id in state.operations && SameOrder(op, state.operations[op.id])
      ensures r.Ok? ==> h.log[ObtainCalled(op.ipv4)] == old(h.log)[ObtainCalled(op.ipv4)] + 1
      ensures r.Err? ==> Plain(r.error)
      ensures op.id in issuer.denied ==> BacksOffOrBreaks(op.id, retryAttempt, r, old(env.now))
      ensures env.calm ==> Settled(W()) && Resolved(op.id, retryAttempt, r, old(env.now))
      ensures ChallengesKept() && Valid() && Ordered(start, W(), op.ipv4, 1)
    {
      hide Valid, Ordered, MayOrder, Settled, ChallengesOk, Foreign, BacksOffOrBreaks, Resolved;
      ghost var w := W();
      OrderedIsReflexive(w, op.ipv4, 0);
      DeniedNow();
      NotYetDenied(op.id);
      r := Present(op, retryAttempt, w);
      ghost var later := env.now;
      if r.Err? {
        OrderedWidens(w, W(), op.ipv4);
      } else {
        r := OrderAndConclude(op, retryAttempt, w);
        if env.calm {
          ResolvedSince(op.id, retryAttempt, r, old(env.now), later);
        }
        if op.id in issuer.denied {
          BacksOffOrBreaksSince(op.id, retryAttempt, r, old(env.now), later);
        }
      }
      SameOperation(start, w, op.ipv4, op.id);
    }

    lemma NotYetDenied(id: string)
      requires Valid() && id in state.operations && id !in h.orderedAt
      ensures id !in h.deniedAt
    {
      hide Inv;
      PlacementFacts(W(), schedule, id);
    }

    lemma SameOperation(start: World, w: World, ip: string, id: string)
      requires Ordered(start, w, ip, 0) && Ordered(w, W(), ip, 1) && id in w.rows
      ensures Ordered(start, W(), ip, 1) && id in state.operations && SameOrder(w.rows[id], state.operations[id])
    {
      hide Ordered, SameOrder;
      OrderedIsTransitive(start, w, W(), ip, 1);
      OrderedKeepsOrder(w, W(), ip, 1, id);
    }

    /** The order, and what its answer makes of the operation. */
    method OrderAndConclude(op: Operation, retryAttempt: int, ghost start: World) returns (r: Outcome)
      requires Placed(op.(stage := ChallengePresent), retryAttempt) && retryAttempt >= 0 && rollbacks.snapshots == map[]
      requires ChallengesOk() && Valid() && Ordered(start, W(), op.ipv4, 0)
      modifies this`h, this`clock, state, edge, tls, rollbacks, issuer, table, journal, env`now
      ensures edge.discovered == old(edge.discovered)
      ensures r.Ok? ==> Settled(W()) && Concluded(op)
      ensures r.Ok? ==> h.log[ObtainCalled(op.ipv4)] == old(h.log)[ObtainCalled(op.ipv4)] + 1
      ensures r.Err? ==> Plain(r.error)
      ensures op.id in issuer.denied ==> BacksOffOrBreaks(op.id, retryAttempt, r, old(env.now))
      ensures env.calm ==> Settled(W()) && Resolved(op.id, retryAttempt, r, old(env.now))
      ensures ChallengesKept() && Valid() && Ordered(start, W(), op.ipv4, 1)
    {
      hide Valid, Ordered, MayOrder, Settled, IsNew, ChallengesOk, Foreign, BacksOffOrBreaks, Resolved;
      ghost var w := W();
      OrderedIsReflexive(w, op.ipv4, 0);
      var issued := Order(op, retryAttempt, w);
      SameOperation(start, w, op.ipv4, op.id);
      CrashBreaks(op.id, retryAttempt, old(env.now));
      if issued.Failure? && issued.error == Crashed {
        return Err(Crashed);
      }
      ghost var later := env.now;
      DeniedNow();
      r := Conclude(op, retryAttempt, issued, w);
      SameOperation(start, w, op.ipv4, op.id);
      if env.calm {
        ResolvedSince(op.id, retryAttempt, r, old(env.now), later);
      }
      if op.id in issuer.denied {
        BacksOffOrBreaksSince(op.id, retryAttempt, r, old(env.now), later);
      }
    }

    lemma DeniedNow()
      requires Valid()
      ensures h.deniedAt == issuer.denied
    {
      hide Inv, Seen, Counted, EdgeClient.Valid, SnapshotStore.Valid;
    }

    /** Moves the operation to the stage in which challenges may be journalled. */
    method Present(op: Operation, retryAttempt: int, ghost start: World) returns (r: Outcome)
      requires Placed(op, retryAttempt) && op.stage in {New, Renewing}
      requires Valid() && Ordered(start, W(), op.ipv4, 0)
      modifies this`h, this`clock, state`operations, env`now
      ensures r.Ok? ==> Placed(op.(stage := ChallengePresent), retryAttempt)
      ensures env.calm ==> r.Ok?
      ensures h.log == old(h.log) && env.now >= old(env.now)
      ensures r.Err? ==> Plain(r.error)
      ensures Valid() && Ordered(start, W(), op.ipv4, 0)
    {
      hide CompareAndSet, Inv, Seen, Counted, Within, Ordered, Later, MayMove, MayOrder, Moved, Patched,
        EdgeClient.Valid, SnapshotStore.Valid;
      ghost var w := W();
      MayPresent(w, schedule, op.id, "awaiting-acme");
      WithinIsReflexive(w, Deploy);
      r := state.Transition(op.id, op.stage, ChallengePresent, "awaiting-acme");
      FollowMove(w, w, Deploy, op.id, op.stage, ChallengePresent, SetMarker("awaiting-acme"), 0, r);
      MovedOperation(w, op.id, ChallengePresent, SetMarker("awaiting-acme"), env.now);
      WithinIsOrdered(start, w, W(), Deploy, op.ipv4, 0);
    }

    /** The order at the authority: counted and dated before the call, at most one leaf after it. */
    method Order(op: Operation, retryAttempt: int, ghost start: World) returns (r: Result<Issued>)
      requires Placed(op.(stage := ChallengePresent), retryAttempt)
      requires ChallengesOk() && Valid() && Ordered(start, W(), op.ipv4, 0)
      modifies this`h, this`clock, issuer, table, journal, env`now
      ensures h.attempt == old(h.attempt) && h.log[ObtainCalled(op.ipv4)] == old(h.log)[ObtainCalled(op.ipv4)] + 1
      ensures op.id in h.orderedAt && h.orderedAt[op.id] == old(env.now)
      ensures r.Success? ==> IsNew(W(), r.value.fingerprint) && op.id !in h.deniedAt
      ensures r.Failure? ==> Plain(r.error) && (r.error != Crashed ==> op.id in h.deniedAt)
      ensures env.calm ==> r != Failure(Crashed)
      ensures env.now >= old(env.now)
      ensures ChallengesKept() && Valid() && Ordered(start, W(), op.ipv4, 1)
    {
      hide Valid, Ordered, MaySend, MayOrder, IsNew, Plain, ChallengesOk, Foreign;
      TickReady(op, retryAttempt, start);
      r := Place(op, start);
    }

    method Place(op: Operation, ghost start: World) returns (r: Result<Issued>)
      requires clock == env.now && MaySend(W(), op.id) && op.id !in h.deniedAt && op.id in state.operations
               && state.operations[op.id].ipv4 == op.ipv4
      requires ChallengesOk() && Valid() && Ordered(start, W(), op.ipv4, 0)
      modifies this`h, this`clock, issuer, table, journal, env`now
      ensures h.attempt == old(h.attempt) && h.log[ObtainCalled(op.ipv4)] == old(h.log)[ObtainCalled(op.ipv4)] + 1
      ensures op.id in h.orderedAt && h.orderedAt[op.id] == old(env.now)
      ensures r.Success? ==> IsNew(W(), r.value.fingerprint) && op.id !in h.deniedAt
      ensures r.Failure? ==> Plain(r.error) && (r.error != Crashed ==> op.id in h.deniedAt)
      ensures env.calm ==> r != Failure(Crashed)
      ensures env.now >= old(env.now)
      ensures ChallengesKept() && Valid() && Ordered(start, W(), op.ipv4, 1)
    {
      hide Valid, Ordered, MaySend, IsNew, Plain, ChallengesOk, Foreign, Answering;
      ghost var w, calls, placed, denied := W(), issuer.calls, issuer.placed, issuer.denied;
      r := Ask(op);
      FollowOrder(start, w, calls, placed, denied, op.id, if r.Success? then Some(r.value.fingerprint) else None,
                  r.Failure? && r.error != Crashed);
    }

    method Ask(op: Operation) returns (r: Result<Issued>)
      requires clock == env.now && MaySend(W(), op.id) && op.id in state.operations
               && state.operations[op.id].ipv4 == op.ipv4
      requires ChallengesOk() && Valid()
      modifies issuer, table, journal, env`now
      ensures Answering(old(W()), old(issuer.calls), old(issuer.placed), old(issuer.denied), op.id,
                        if r.Success? then Some(r.value.fingerprint) else None, r.Failure? && r.error != Crashed)
      ensures r.Failure? ==> Plain(r.error)
      ensures env.calm ==> r != Failure(Crashed)
      ensures ChallengesKept() && env.now >= old(env.now)
    {
      hide Inv, Seen, Counted, MaySend, Plain, External, Consistent, Isolated, Foreign, EdgeClient.Valid,
        SnapshotStore.Valid;
      r := issuer.Obtain(op.id, op.ipv4);
      CallErrorsArePlain(if r.Failure? then r.error else Crashed);
    }

    /** The order is dated by the instant of its call. */
    ghost method TickReady(op: Operation, retryAttempt: int, start: World)
      requires Placed(op.(stage := ChallengePresent), retryAttempt)
      requires Valid() && Ordered(start, W(), op.ipv4, 0)
      modifies this`clock
      ensures clock == env.now && MaySend(W(), op.id) && op.id !in h.deniedAt && h == old(h)
      ensures Valid() && Ordered(start, W(), op.ipv4, 0)
    {
      hide Inv, Seen, Counted, Ordered, Later, MayOrder, MaySend, EdgeClient.Valid, SnapshotStore.Valid;
      TickKeepsInv(W(), schedule, env.now);
      TickIsOrdered(start, W(), env.now, op.ipv4, 0);
      TickKeepsBudget(W(), env.now, op.ipv4);
      clock := env.now;
      MaySendOrder(W(), schedule, op.id);
    }

    /** How an order ends when nothing else fails: active and without an error; refused by the authority, with the
        next backoff; or refused for review. */
    ghost predicate Resolved(id: string, attempt: int, r: Outcome, from: int)
      reads this`h, this`clock, state
    {
      || (r.Ok? && Flawless(id))
      || (r.Err? && BacksOff(id, attempt + 1, from))
      || (r == Err(Rejected) && RefusedForReview(id))
    }

    /** A refused order is never taken for a success: its backoff is stored, or the log or the process failed. */
    ghost predicate BacksOffOrBreaks(id: string, attempt: int, r: Outcome, from: int)
      reads this`h, this`clock, state`operations
    {
      r.Err? && (r.error == Crashed || External(r.error) || BacksOff(id, attempt + 1, from))
    }

    lemma CrashBreaks(id: string, attempt: int, from: int)
      ensures BacksOffOrBreaks(id, attempt, Err(Crashed), from)
    {
    }

    lemma BacksOffOrBreaksSince(id: string, attempt: int, r: Outcome, from: int, later: int)
      requires BacksOffOrBreaks(id, attempt, r, later) && from <= later
      ensures BacksOffOrBreaks(id, attempt, r, from)
    {
      hide External;
    }

    /** The order of this operation went on counting where the newest operation before it had stopped. */
    ghost predicate AnsweredFor(before: map<string, Operation>, ip: string, id: string, r: Outcome, from: int)
      reads this`h, this`clock, state
    {
      exists n :: CountsSoFar(before, ip, n) && Resolved(id, n, r, from)
    }

    lemma ResolvedSince(id: string, attempt: int, r: Outcome, from: int, later: int)
      requires Resolved(id, attempt, r, later) && from <= later
      ensures Resolved(id, attempt, r, from)
    {
      hide Flawless, RefusedForReview;
    }

    method Conclude(op: Operation, retryAttempt: int, issued: Result<Issued>, ghost start: World) returns (r: Outcome)
      requires AtAuthority(op, retryAttempt) && rollbacks.snapshots == map[]
      requires if issued.Success? then IsNew(W(), issued.value.fingerprint) else Plain(issued.error)
      requires if issued.Success? then op.id in h.orderedAt && op.id !in h.deniedAt else op.id in h.deniedAt
      requires Valid() && Ordered(start, W(), op.ipv4, 1)
      modifies this`h, this`clock, state, edge, tls, rollbacks, env`now
      ensures edge.discovered == old(edge.discovered)
      ensures r.Ok? ==> Settled(W()) && Flawless(op.id)
      ensures r.Err? ==> Plain(r.error)
      ensures h.log[ObtainCalled(op.ipv4)] == old(h.log)[ObtainCalled(op.ipv4)]
      ensures issued.Failure? ==> BacksOffOrBreaks(op.id, retryAttempt, r, old(env.now))
      ensures issued.Failure? && env.calm ==> r == Err(issued.error) && BacksOff(op.id, retryAttempt + 1, old(env.now))
      ensures env.calm ==> Settled(W()) && Resolved(op.id, retryAttempt, r, old(env.now))
      ensures Valid() && Ordered(start, W(), op.ipv4, 1)
    {
      hide Valid, W, Within, Ordered, IsNew, Settled, BacksOff, Flawless, RefusedForReview, External, Plain;
      ghost var w := W();
      HistoryNow();
      WithinIsReflexive(w, Deploy);
      AtAuthorityIsLast(op, retryAttempt);
      if issued.Failure? {
        r := Refuse(op, retryAttempt, issued.error, w);
      } else {
        ghost var verdict;
        r, verdict := Store(op, issued.value, w);
      }
      HistoryNow();
      if env.calm && r.Err? {
        ResolvedIsOver(w, op.id, retryAttempt, r, old(env.now));
      }
      WithinIsOrdered(start, w, W(), Deploy, op.ipv4, 1);
      WithinKeepsCounts(w, W(), Deploy, op.ipv4);
    }

    lemma AtAuthorityIsLast(op: Operation, attempt: int)
      requires AtAuthority(op, attempt) && Valid()
      ensures op.id == h.last
    {
      hide Inv;
      InflightRow(W(), schedule, op.id);
    }

    /** Nothing is left of an order that failed. */
    lemma ResolvedIsOver(start: World, id: string, attempt: int, r: Outcome, from: int)
      requires Resolved(id, attempt, r, from) && r.Err? && rollbacks.snapshots == map[]
      requires Valid() && Within(start, W(), Deploy) && id == start.h.last
      ensures Settled(W())
    {
      hide Valid, W, Within, Settled, StoredRetry;
      KeepsLast(start, Deploy);
      SettledNow(id);
    }

    /** 128 random bits: a draw that meets a known operation or the name of a record counts as a failed draw. */
    method FreshOperationID(kind: Kind, ip: string) returns (r: Result<string>)
      ensures r.Success? ==> IsOperationID(r.value) && r.value !in state.operations
                             && forall c <- edge.certs :: edge.certs[c].name != Marker(kind, ip, r.value)
      ensures r.Failure? ==> Plain(r.error)
    {
      r := state.NewOperationID();
      if r.Success? && (|| r.value in state.operations
                        || exists c <- edge.certs :: edge.certs[c].name == Marker(kind, ip, r.value)) {
        r := Failure(Unexpected);
      }
    }

    lemma NotYetPlaced(op: Operation)
      requires CanInsert(state.operations, op) && Valid()
      ensures op.id !in state.operations && op.id !in h.orderedAt && op.id !in issuer.denied
    {
      hide Inv;
      OnlyRowsOrder(W(), schedule, op.id);
      DeniedNow();
    }

    ghost method FollowPlacement(start: World, w: World, op: Operation, attempt: int)
      requires op.id !in w.rows && op.id !in w.h.orderedAt && MayOrder(w, op.ipv4)
      requires W() == w || (MayCreate(w, op, attempt) && W() == w.(rows := w.rows[op.id := Inserted(op, env.now)]))
      requires Wired() && edge.Valid() && rollbacks.Valid() && Witnessed() && Inv(w, schedule) && w.now < env.now
      requires Ordered(start, w, op.ipv4, 0)
      modifies this`clock, this`h
      ensures op.id in state.operations ==> Placed(op, attempt)
      ensures state.operations == w.rows ==> W() == w
      ensures h.log == w.h.log && Valid() && Ordered(start, W(), op.ipv4, 0)
    {
      hide Inv, Seen, Counted, Ordered, MayCreate, MayOrder, Inserted, Created, EdgeClient.Valid, SnapshotStore.Valid;
      FollowCreate(start, w, op, attempt);
      CreatedOperation(w, op, attempt, env.now);
    }

    method CreateIssue(op: Operation, attempt: int, ghost start: World) returns (r: Outcome)
      requires op.kind == Issue && op.stage == New && MayOrder(W(), op.ipv4) && CanInsert(state.operations, op)
      requires op.ipv4 != "" ==> MayCreate(W(), op, attempt)
      requires Valid() && Ordered(start, W(), op.ipv4, 0)
      modifies this`h, this`clock, state`operations, env`now
      ensures r.Ok? ==> Placed(op, attempt)
      ensures op.ipv4 == "" ==> r.Err? && W() == old(W())
      ensures env.calm && op.ipv4 != "" ==> r.Ok?
      ensures h.log == old(h.log) && env.now >= old(env.now)
      ensures r.Err? ==> Plain(r.error)
      ensures Valid() && Ordered(start, W(), op.ipv4, 0)
    {
      hide Inv, Seen, Counted, Ordered, Placed, SameTarget, Marker, IsOperationID, MayCreate, MayOrder, CanInsert,
        Inserted, EdgeClient.Valid, SnapshotStore.Valid;
      ghost var w := W();
      NotYetPlaced(op);
      if op.ipv4 != "" {
        OrderIsNamed(w, op, attempt);
      }
      r := state.CreateOperation(op);
      FollowPlacement(start, w, op, attempt);
    }

    method CreateRenewal(op: Operation, attempt: int, ghost start: World) returns (r: Outcome)
      requires op.kind == Renew && op.stage == Renewing && MayOrder(W(), op.ipv4) && CanInsert(state.operations, op)
      requires MayCreate(W(), op, attempt)
      requires Valid() && Ordered(start, W(), op.ipv4, 0)
      modifies this`h, this`clock, state`operations, env`now
      ensures r.Ok? ==> Placed(op, attempt)
      ensures env.calm ==> r.Ok?
      ensures h.log == old(h.log) && env.now >= old(env.now)
      ensures r.Err? ==> Plain(r.error)
      ensures Valid() && Ordered(start, W(), op.ipv4, 0)
    {
      hide Inv, Seen, Counted, Ordered, Placed, SameTarget, Marker, IsOperationID, MayCreate, MayOrder, CanInsert,
        Inserted, EdgeClient.Valid, SnapshotStore.Valid;
      ghost var w := W();
      NotYetPlaced(op);
      OrderIsNamed(w, op, attempt);
      assert op.(kind := Renew, stage := Renewing) == op;
      r := state.BeginRenewal(op);
      FollowPlacement(start, w, op, attempt);
    }

    lemma OrderIsNamed(w: World, op: Operation, attempt: int)
      requires MayCreate(w, op, attempt)
      ensures op.id != "" && op.ipv4 != "" && op.marker != ""
    {
      MarkerReads(op.ipv4, op.id);
    }

    /** The operation is a new one, of exactly this order. */
    ghost predicate Began(before: map<string, Operation>, op: Operation)
      reads state`operations
    {
      NewOperation(before, state.operations, op.ipv4, op.id) && SameOrder(op, state.operations[op.id])
    }

    /** A new first issue for the target, under its own marker. */
    ghost predicate BeganIssue(before: map<string, Operation>, ip: string, target: ServerTarget, id: string)
      reads state`operations
    {
      && NewOperation(before, state.operations, ip, id)
      && var o := state.operations[id];
      && o.kind == Issue && o.marker == Marker(Issue, ip, id) && o.serverID == target.id
      && o.policyID == target.policyID && o.userID == target.userID
    }

    /** A new renewal of the managed certificate, under its own marker. */
    ghost predicate BeganRenewal(before: map<string, Operation>, managed: ManagedCert, id: string)
      reads state`operations
    {
      && NewOperation(before, state.operations, managed.ipv4, id)
      && var o := state.operations[id];
      && o.kind == Renew && o.marker == Marker(Renew, managed.ipv4, id) && o.serverID == managed.serverID
      && o.policyID == managed.policyID && o.certID == managed.certID
    }

    /** The operation is recorded, and then ordered for. */
    method BeginAndObtain(op: Operation, retryAttempt: int, ghost start: World) returns (r: Outcome)
      requires op.stage == (if op.kind == Issue then New else Renewing) && retryAttempt >= 0
      requires if op.kind == Issue then op.ipv4 != "" ==> MayCreate(W(), op, retryAttempt)
               else MayCreate(W(), op, retryAttempt)
      requires Settled(W()) && MayOrder(W(), op.ipv4) && CanInsert(state.operations, op)
      requires ChallengesOk() && Valid() && Ordered(start, W(), op.ipv4, 0)
      modifies this`h, this`clock, state, edge, tls, rollbacks, issuer, table, journal, env`now
      ensures edge.discovered == old(edge.discovered)
      ensures r.Ok? ==> && Settled(W()) && Concluded(op)
                        && h.log[ObtainCalled(op.ipv4)] == old(h.log)[ObtainCalled(op.ipv4)] + 1
      ensures h.log[ObtainCalled(op.ipv4)] != old(h.log)[ObtainCalled(op.ipv4)] ==>
                Began(old(state.operations), op)
      ensures op.id in issuer.denied ==> BacksOffOrBreaks(op.id, retryAttempt, r, old(env.now))
      ensures env.calm ==> Settled(W())
      ensures if op.ipv4 == "" then h.log == old(h.log)
              else env.calm ==> Resolved(op.id, retryAttempt, r, old(env.now))
      ensures r.Err? ==> Plain(r.error)
      ensures ChallengesKept() && Valid() && Ordered(start, W(), op.ipv4, 1)
    {
      hide Valid, Ordered, Settled, Concluded, Placed, MayCreate, MayOrder, Plain, ChallengesOk, Foreign, CanInsert,
        Resolved, BacksOffOrBreaks;
      OrderedWidens(start, W(), op.ipv4);
      NotYetPlaced(op);
      NothingLeftNow();
      if op.kind == Issue {
        r := CreateIssue(op, retryAttempt, start);
      } else {
        OrderIsNamed(W(), op, retryAttempt);
        r := CreateRenewal(op, retryAttempt, start);
      }
      ghost var later := env.now;
      if r.Ok? {
        r := ObtainAndContinue(op, retryAttempt, start);
        if env.calm {
          ResolvedSince(op.id, retryAttempt, r, old(env.now), later);
        }
        if op.id in issuer.denied {
          BacksOffOrBreaksSince(op.id, retryAttempt, r, old(env.now), later);
        }
      } else {
        OrderedWidens(start, W(), op.ipv4);
      }
    }

    lemma NothingLeftNow()
      requires Settled(W())
      ensures rollbacks.snapshots == map[]
    {
    }

    method StartIssue(ip: string, target: ServerTarget, retryAttempt: int, ghost start: World) returns (r: Outcome)
      requires Settled(W()) && ip !in state.managed && retryAttempt >= 0 && MayOrder(W(), ip)
               && Continues(W(), ip, retryAttempt)
      requires ChallengesOk() && Valid() && Ordered(start, W(), ip, 0)
      modifies this`h, this`clock, state, edge, tls, rollbacks, issuer, table, journal, env`now
      ensures edge.discovered == old(edge.discovered)
      ensures r.Ok? ==> && Settled(W()) && ip in state.managed && state.managed[ip].serverID == target.id
                        && state.managed[ip].policyID == target.policyID && Healthy(ip)
      ensures r.Ok? ==> h.log[ObtainCalled(ip)] == old(h.log)[ObtainCalled(ip)] + 1
      ensures h.log[ObtainCalled(ip)] != old(h.log)[ObtainCalled(ip)] ==>
                exists id :: BeganIssue(old(state.operations), ip, target, id)
                             && (env.calm ==> Resolved(id, retryAttempt, r, old(env.now)))
      ensures env.calm ==> Settled(W())
      ensures r.Err? ==> Plain(r.error)
      ensures ChallengesKept() && Valid() && Ordered(start, W(), ip, 1)
    {
      hide Valid, Ordered, MayOrder, Continues, ChallengesOk, Foreign, Marker, IsOperationID, CanInsert, BeganIssue,
        Began, Resolved, BacksOffOrBreaks;
      OrderedWidens(start, W(), ip);
      var drawn := FreshOperationID(Issue, ip);
      if drawn.Failure? {
        return Err(drawn.error);
      }
      var id := drawn.value;
      var op := Operation(id, ip, Issue, New, Marker(Issue, ip, id), target.id, target.policyID, 0, target.userID,
                          "", 0, "", "", "", 0, 0, 0, 0);
      InvNow();
      NextOrderFits(W(), schedule, op);
      r := BeginAndObtain(op, retryAttempt, start);
      IssueBegan(old(state.operations), ip, target, op);
      if r.Ok? {
        InvNow();
        ActiveIsManaged(W(), schedule, op.id);
      }
    }

    lemma IssueBegan(before: map<string, Operation>, ip: string, target: ServerTarget, op: Operation)
      requires op.kind == Issue && op.ipv4 == ip && op.marker == Marker(Issue, ip, op.id) && op.serverID == target.id
      requires op.policyID == target.policyID && op.userID == target.userID
      ensures Began(before, op) ==> BeganIssue(before, ip, target, op.id)
    {
    }

    lemma RenewalBegan(before: map<string, Operation>, managed: ManagedCert, op: Operation)
      requires op.kind == Renew && op.ipv4 == managed.ipv4 && op.marker == Marker(Renew, managed.ipv4, op.id)
      requires op.serverID == managed.serverID && op.policyID == managed.policyID && op.certID == managed.certID > 0
      ensures Began(before, op) ==> BeganRenewal(before, managed, op.id)
    {
    }

    method StartRenew(managed: ManagedCert, retryAttempt: int, ghost start: World) returns (r: Outcome)
      requires managed.ipv4 in state.managed && state.managed[managed.ipv4] == managed && managed.ipv4 != ""
      requires Settled(W()) && BackoffOver(W(), managed.ipv4, retryAttempt) && retryAttempt >= 0
      requires ChallengesOk() && Valid() && Ordered(start, W(), managed.ipv4, 0)
      modifies this`h, this`clock, state, edge, tls, rollbacks, issuer, table, journal, env`now
      ensures r.Ok? ==> && Settled(W()) && Healthy(managed.ipv4)
                        && h.log[ObtainCalled(managed.ipv4)] == old(h.log)[ObtainCalled(managed.ipv4)] + 1
      ensures h.log[ObtainCalled(managed.ipv4)] != old(h.log)[ObtainCalled(managed.ipv4)] ==>
                exists id :: BeganRenewal(old(state.operations), managed, id)
                             && (env.calm ==> Resolved(id, retryAttempt, r, old(env.now)))
      ensures env.calm ==> Settled(W())
      ensures r.Err? ==> Plain(r.error)
      ensures ChallengesKept() && Valid() && Ordered(start, W(), managed.ipv4, 1)
    {
      hide Valid, Ordered, BackoffOver, ChallengesOk, Foreign, Marker, IsOperationID, CanInsert, BeganRenewal, Began,
        Resolved, BacksOffOrBreaks;
      var ip := managed.ipv4;
      OrderedWidens(start, W(), ip);
      var drawn := FreshOperationID(Renew, ip);
      if drawn.Failure? {
        return Err(drawn.error);
      }
      var id := drawn.value;
      var op := Operation(id, ip, Renew, Renewing, Marker(Renew, ip, id), managed.serverID, managed.policyID,
                          managed.certID, 0,
                          "", 0, "", "", "", 0, 0, 0, 0);
      InvNow();
      NextOrderFits(W(), schedule, op);
      ManagedRecord(W(), schedule, ip);
      r := BeginAndObtain(op, retryAttempt, start);
      RenewalBegan(old(state.operations), managed, op);
    }

    // -------------------------------------------------------------- one run

    method Normalize(op: Operation, ghost start: World) returns (r: Outcome)
      requires op.id in state.operations && state.operations[op.id] == op && IsFirstIssueFailure(op)
      requires exists k :: IsLatest(state.operations, op.ipv4, k) && state.operations[k] == op
      requires Valid() && Ordered(start, W(), op.ipv4, 0) && Settled(W())
      modifies this`h, this`clock, state`operations, env`now
      ensures env.now >= old(env.now)
      ensures h == old(h) && state.operations.Keys == old(state.operations).Keys
      ensures forall n :: old(Continues(W(), op.ipv4, n)) ==> Continues(W(), op.ipv4, n)
      ensures old(MayOrder(W(), op.ipv4)) ==> MayOrder(W(), op.ipv4)
      ensures r.Ok? ==> op.id in state.operations && state.operations[op.id].recoveryMarker == RECOVERY_NEEDS_ATTENTION
      ensures r.Ok? ==> NeedsPerson(state.operations, op.ipv4)
      ensures r.Err? ==> Plain(r.error)
      ensures Valid() && Ordered(start, W(), op.ipv4, 0) && Settled(W())
    {
      hide Inv, Seen, Counted, Within, Ordered, Later, Settled, Continues, MayOrder, IsLatest, NeedsPerson,
        EdgeClient.Valid, SnapshotStore.Valid;
      ghost var w := W();
      r := state.NormalizeFirstIssueFailure(op.id);
      NormalizedKeeps(w, op.id, op.ipv4);
      NormalizedIsLatest(w, op.id, op.ipv4, op);
      if state.operations != w.rows {
        NormalizeKeepsInv(w, schedule, op.id);
        RowStepWithin(w, W(), Deploy);
        WithinIsOrdered(start, w, W(), Deploy, op.ipv4, 0);
      }
      if r.Ok? {
        assert W() == Normalized(w, op.id);
        LatestNeedsPerson(W(), schedule, op.ipv4, state.operations[op.id]);
      }
    }

    /** An unmanaged address: the timer never orders, and after a failure only a manual run does. */
    method RunFirstIssue(ip: string, mode: RunMode, ghost start: World, ghost from: int) returns (r: Outcome)
      requires from <= env.now && Settled(W()) && ip !in state.managed && Paid(W(), ip, mode)
      requires ChallengesOk() && Valid() && Ordered(start, W(), ip, 0)
      modifies this`h, this`clock, state, edge, tls, rollbacks, issuer, table, journal, env`now
      ensures r.Ok? ==> Settled(W())
      ensures r.Ok? && FirstIssueAllowed(mode, old(state.operations), ip) ==>
                ip in state.managed && h.log[ObtainCalled(ip)] == old(h.log)[ObtainCalled(ip)] + 1
      ensures r.Ok? && FirstIssueAllowed(mode, old(state.operations), ip) ==>
                && Healthy(ip) && ip in edge.discovered && state.managed[ip].serverID == edge.discovered[ip].id
                && state.managed[ip].policyID == edge.discovered[ip].policyID
      ensures h.log[ObtainCalled(ip)] != old(h.log)[ObtainCalled(ip)] ==>
                && ip in edge.discovered
                && exists id :: BeganIssue(old(state.operations), ip, edge.discovered[ip], id)
                                && (env.calm ==> AnsweredFor(old(state.operations), ip, id, r, from))
      ensures env.calm ==> Settled(W())
      ensures r.Ok? && h.log[ObtainCalled(ip)] == old(h.log)[ObtainCalled(ip)] ==> state.managed == old(state.managed)
      ensures r.Ok? && mode.ManualFirstIssueRetry? ==> ip in state.managed
      ensures !FirstIssueAllowed(mode, old(state.operations), ip) ==> h.log == old(h.log)
      ensures r.Ok? && ip !in state.managed ==> NeedsPerson(state.operations, ip)
      ensures mode.ManualFirstIssueRetry? && NoOperation(old(state.operations), ip) ==> r.Err?
      ensures r.Err? ==> Plain(r.error)
      ensures ChallengesKept() && Valid() && Ordered(start, W(), ip, if mode.Timer? then 0 else 1)
    {
      hide Valid, Ordered, Settled, MayOrder, NoOperation, NeedsPerson, Plain, Continues, IsLatest, Healthy, BeganIssue,
        CountsSoFar, Resolved, ChallengesOk, Foreign;
      var orders, attempt;
      r, orders, attempt := FirstIssueAttempt(ip, mode, start);
      OrderedWidens(start, W(), ip);
      if !orders {
        return;
      }
      var target := Discover(ip);
      if target.Failure? {
        return Err(target.error);
      }
      ghost var before, later := state.operations, env.now;
      r := StartIssue(ip, target.value, attempt, start);
      if h.log[ObtainCalled(ip)] != old(h.log)[ObtainCalled(ip)] {
        ghost var id :| BeganIssue(before, ip, target.value, id)
          && (env.calm ==> Resolved(id, attempt, r, later));
        SameKeysBegan(before, old(state.operations), ip, target.value, id);
        if env.calm {
          ResolvedSince(id, attempt, r, from, later);
        }
      }
    }

    lemma SameKeysBegan(before: map<string, Operation>, earlier: map<string, Operation>, ip: string,
                        target: ServerTarget, id: string)
      requires before.Keys == earlier.Keys && BeganIssue(before, ip, target, id)
      ensures BeganIssue(earlier, ip, target, id)
    {
    }

    /** Whether this run may order at all, and with which attempt number. */
    method FirstIssueAttempt(ip: string, mode: RunMode, ghost start: World) returns (r: Outcome, orders: bool,
                             attempt: int)
      requires Settled(W()) && ip !in state.managed && Paid(W(), ip, mode)
      requires Valid() && Ordered(start, W(), ip, 0)
      modifies this`h, this`clock, state`operations, env`now
      ensures env.now >= old(env.now)
      ensures orders ==> attempt >= 0 && MayOrder(W(), ip) && Continues(W(), ip, attempt)
                         && FirstIssueAllowed(mode, old(state.operations), ip)
      ensures orders && mode.ManualFirstIssueRetry? ==>
                exists k :: IsLatest(old(state.operations), ip, k) && attempt == old(state.operations)[k].retryCount
      ensures orders && mode.Interactive? ==> attempt == 0
      ensures orders ==> CountsSoFar(old(state.operations), ip, attempt)
      ensures r.Err? ==> Plain(r.error) && !orders
      ensures r.Ok? && FirstIssueAllowed(mode, old(state.operations), ip) ==> orders
      ensures mode.ManualFirstIssueRetry? && NoOperation(old(state.operations), ip) ==> r.Err?
      ensures r.Ok? ==> NeedsPerson(state.operations, ip)
      ensures h == old(h) && state.operations.Keys == old(state.operations).Keys
      ensures Settled(W()) && Valid() && Ordered(start, W(), ip, 0)
    {
      hide Valid, W, Ordered, Settled, MayOrder, Continues, NoOperation, CountsSoFar, NeedsPerson, IsLatest, Plain,
        External;
      CallErrorsArePlain(Rejected);
      r, orders, attempt := Ok, false, 0;
      var latest := ReadFailure(ip);
      if latest.Success? {
        if !IsFirstIssueFailure(latest.value) {
          return Err(OrderRefused), false, 0;
        }
        if latest.value.recoveryMarker != RECOVERY_NEEDS_ATTENTION {
          r := Normalize(latest.value, start);
        }
        if r.Ok? && mode.ManualFirstIssueRetry? {
          orders, attempt := true, latest.value.retryCount;
        }
      } else if latest.error != NotFound {
        r := Err(latest.error);
      } else if mode.ManualFirstIssueRetry? {
        r := Err(Rejected);
      } else if mode.Interactive? {
        FirstOrderNow(ip);
        orders := true;
      }
    }

    /** The newest operation of an unmanaged address; after recovery it can only be a failed first issue. */
    method ReadFailure(ip: string) returns (r: Result<Operation>)
      requires Settled(W()) && ip !in state.managed && Valid()
      modifies env`now
      ensures Valid() && env.now > old(env.now)
      ensures r.Success? ==> && Reads(r.value) && r.value.ipv4 == ip && IsFirstIssueFailure(r.value)
                             && (exists k :: IsLatest(state.operations, ip, k) && state.operations[k] == r.value)
                             && !NoOperation(state.operations, ip) && r.value.retryCount >= 0
                             && Continues(W(), ip, r.value.retryCount)
                             && CountsSoFar(state.operations, ip, r.value.retryCount)
      ensures r.Success? && r.value.recoveryMarker == RECOVERY_NEEDS_ATTENTION ==> NeedsPerson(state.operations, ip)
      ensures r == Failure(NotFound) ==> && NoOperation(state.operations, ip) && NeedsPerson(state.operations, ip)
                                         && CountsSoFar(state.operations, ip, 0)
      ensures r.Failure? ==> Plain(r.error)
    {
      hide Inv, Seen, Counted, Settled, Continues, NeedsPerson, EdgeClient.Valid, SnapshotStore.Valid;
      OnlyFirstIssueFailures(W(), schedule, ip);
      r := state.LatestOperation(ip);
      if r.Success? {
        LatestRowIsKeyed(W(), schedule, ip, r.value);
        LatestContinues(W(), schedule, ip, r.value);
        if r.value.recoveryMarker == RECOVERY_NEEDS_ATTENTION {
          LatestNeedsPerson(W(), schedule, ip, r.value);
        }
      } else {
        NobodyNeeded(state.operations, ip);
      }
    }

    lemma NobodyNeeded(rows: map<string, Operation>, ip: string)
      ensures NoOperation(rows, ip) ==> NeedsPerson(rows, ip)
    {
    }

    lemma FirstOrderNow(ip: string)
      requires Valid() && NoOperation(state.operations, ip) && Paid(W(), ip, Interactive)
      ensures MayOrder(W(), ip) && Continues(W(), ip, 0)
    {
      hide Inv, Continues, MayOrder;
      FirstOrderIsFree(W(), schedule, ip);
      NothingToContinue(W(), schedule, ip);
    }

    lemma LatestRowIsKeyed(w: World, s: Policy, ip: string, op: Operation)
      requires Inv(w, s) && exists k :: IsLatest(w.rows, ip, k) && w.rows[k] == op
      ensures op.id in w.rows && w.rows[op.id] == op && op.ipv4 == ip && op.retryCount >= 0
    {
      hide Inv;
      var k :| IsLatest(w.rows, ip, k) && w.rows[k] == op;
      RetryCountIsNatural(w, s, k);
    }

    ghost method TickOrdered(start: World, ip: string)
      requires Valid() && Ordered(start, W(), ip, 0) && Settled(W())
      modifies this`clock
      ensures clock == env.now && h == old(h)
      ensures Valid() && Ordered(start, W(), ip, 0) && Settled(W())
    {
      hide Inv, Seen, Counted, Within, Ordered, Later;
      ghost var w := W();
      WithinIsReflexive(w, Deploy);
      Tick(w, Deploy);
      WithinIsOrdered(start, w, W(), Deploy, ip, 0);
    }

    /** The target must be unchanged, and the record still managed and bound. */
    method CheckTarget(managed: ManagedCert, ghost start: World) returns (r: Outcome)
      requires Settled(W()) && Valid() && Ordered(start, W(), managed.ipv4, 0)
      modifies this`h, this`clock, edge`bound, edge`read, edge`discovered, env`now
      ensures env.now >= old(env.now) && h.log[ObtainCalled(managed.ipv4)] == old(h.log)[ObtainCalled(managed.ipv4)]
      ensures r.Ok? ==> && BoundDuring(h.log, managed.policyID, managed.certID, old(env.now) + 1, env.now)
                        && managed.ipv4 in edge.discovered
                        && edge.discovered[managed.ipv4].id == managed.serverID
                        && edge.discovered[managed.ipv4].policyID == managed.policyID
      ensures r.Ok? ==> && managed.certID in edge.read && edge.read[managed.certID].1 > old(env.now)
                        && var cert := edge.read[managed.certID].0;
                        cert.id > 0 && !cert.isCA && !cert.isACME && cert.dnsNames == [managed.ipv4]
      ensures r.Err? ==> Plain(r.error)
      ensures Settled(W()) && Valid() && Ordered(start, W(), managed.ipv4, 0)
    {
      hide Valid, Ordered, Plain, BoundDuring;
      CallErrorsArePlain(Rejected);
      var target := Discover(managed.ipv4);
      if target.Failure? {
        return Err(target.error);
      }
      if managed.serverID != target.value.id || managed.policyID != target.value.policyID {
        return Err(Rejected);
      }
      var current := ReadRecord(managed.certID);
      if current.Failure? {
        return Err(current.error);
      }
      if !Manageable(current.value, managed.ipv4) {
        return Err(Rejected);
      }
      ghost var w := W();
      WithinIsReflexive(w, Deploy);
      r := VerifyBound(managed.policyID, managed.certID, w, Deploy);
      if r.Ok? {
        BoundNow(managed.policyID, managed.certID, old(env.now) + 1);
      }
      WithinKeepsCounts(w, W(), Deploy, managed.ipv4);
      WithinIsOrdered(start, w, W(), Deploy, managed.ipv4, 0);
    }

    /** The stored retry, or nothing while its backoff lasts. */
    method ReadRetry(ip: string) returns (r: Result<Option<RetryInfo>>)
      requires ip in state.managed && Valid()
      modifies env`now
      ensures env.now >= old(env.now)
      ensures r.Success? && r.value.Some? ==>
                && FromUnix(r.value.value.nextAt) <= env.now
                && exists k :: IsLatest(state.operations, ip, k) && r.value.value == RetryOf(state.operations[k])
      ensures r.Success? && r.value.Some? ==> NoBackoff(state.operations, ip, env.now)
      ensures r == Success(None) ==> !NoBackoff(state.operations, ip, old(env.now))
      ensures r.Failure? ==> Plain(r.error)
      ensures Valid()
    {
      hide Inv, Seen, Counted, IsLatest, EdgeClient.Valid, SnapshotStore.Valid;
      var retry := state.LatestRetry(ip);
      if retry.Failure? {
        return Failure(retry.error);
      }
      RetryIsStored(W(), schedule, ip, retry.value);
      if retry.value.nextAt > Unix(env.now) {
        return Success(None);
      }
      RetryIsSole(W(), schedule, ip, retry.value, env.now);
      return Success(Some(retry.value));
    }

    /** The run started this operation: after the stored backoff, when renewal was due, and after GoEdge confirmed the
        binding in this call. */
    ghost predicate RenewedInTurn(before: map<string, Operation>, managed: ManagedCert, from: int, id: string,
                                  r: Outcome)
      reads this`h, this`clock, state, env`calm
    {
      && BeganRenewal(before, managed, id)
      && var at := state.operations[id].createdAt;
      && NoBackoff(before, managed.ipv4, at) && managed.nextRenewalAt * SECOND <= at
      && BoundDuring(h.log, managed.policyID, managed.certID, from + 1, at)
      && (env.calm ==> AnsweredFor(before, managed.ipv4, id, r, from))
    }

    /** A managed address: a new order only after the backoff, for an unchanged and bound target, and when renewal is
        due; and then it is placed. */
    method RenewIfDue(managed: ManagedCert, ghost start: World, ghost from: int) returns (r: Outcome)
      requires from <= env.now
      requires managed.ipv4 in state.managed && state.managed[managed.ipv4] == managed && managed.ipv4 != ""
               && Settled(W())
      requires ChallengesOk() && Valid() && Ordered(start, W(), managed.ipv4, 0)
      modifies this`h, this`clock, state, edge, tls, rollbacks, issuer, table, journal, env`now
      ensures r.Ok? || env.calm ==> Settled(W())
      ensures r.Ok? && managed.nextRenewalAt * SECOND <= old(env.now)
              && NoBackoff(old(state.operations), managed.ipv4, old(env.now)) ==>
                h.log[ObtainCalled(managed.ipv4)] == old(h.log)[ObtainCalled(managed.ipv4)] + 1
      ensures h.log[ObtainCalled(managed.ipv4)] != old(h.log)[ObtainCalled(managed.ipv4)] ==>
                exists id :: RenewedInTurn(old(state.operations), managed, from, id, r)
      ensures r.Ok? ==> if h.log[ObtainCalled(managed.ipv4)] != old(h.log)[ObtainCalled(managed.ipv4)]
                        then Healthy(managed.ipv4)
                        else state.operations == old(state.operations) && state.managed == old(state.managed)
      ensures r.Err? ==> Plain(r.error)
      ensures ChallengesKept() && Valid() && Ordered(start, W(), managed.ipv4, 1)
    {
      hide Valid, Ordered, Plain, NoBackoff, RetryOf, Settled, IsLatest, RenewedInTurn, Healthy, CountsSoFar,
        ChallengesOk, Foreign;
      OrderedWidens(start, W(), managed.ipv4);
      var retry := ReadRetry(managed.ipv4);
      if retry.Failure? {
        return Err(retry.error);
      }
      if retry.value.None? {
        return Ok;
      }
      ghost var before, asked := state.operations, env.now;
      r := RenewUnlessEarly(managed, retry.value.value, start);
      if h.log[ObtainCalled(managed.ipv4)] != old(h.log)[ObtainCalled(managed.ipv4)] {
        ghost var id :| RenewedInTurn(before, managed, asked, id, r);
        RenewedEarlier(before, managed, from, asked, id, r);
      }
    }

    /** No backoff lasts any more: GoEdge is asked, and the renewal begins if its time has come. */
    method RenewUnlessEarly(managed: ManagedCert, retry: RetryInfo, ghost start: World) returns (r: Outcome)
      requires managed.ipv4 in state.managed && state.managed[managed.ipv4] == managed && managed.ipv4 != ""
               && Settled(W())
      requires FromUnix(retry.nextAt) <= env.now && NoBackoff(state.operations, managed.ipv4, env.now)
      requires exists k :: IsLatest(state.operations, managed.ipv4, k) && retry == RetryOf(state.operations[k])
      requires ChallengesOk() && Valid() && Ordered(start, W(), managed.ipv4, 0)
      modifies this`h, this`clock, state, edge, tls, rollbacks, issuer, table, journal, env`now
      ensures r.Ok? || env.calm ==> Settled(W())
      ensures r.Ok? && managed.nextRenewalAt * SECOND <= old(env.now) ==>
                h.log[ObtainCalled(managed.ipv4)] == old(h.log)[ObtainCalled(managed.ipv4)] + 1
      ensures h.log[ObtainCalled(managed.ipv4)] != old(h.log)[ObtainCalled(managed.ipv4)] ==>
                exists id :: RenewedInTurn(old(state.operations), managed, old(env.now), id, r)
      ensures r.Ok? ==> if h.log[ObtainCalled(managed.ipv4)] != old(h.log)[ObtainCalled(managed.ipv4)]
                        then Healthy(managed.ipv4)
                        else state.operations == old(state.operations) && state.managed == old(state.managed)
      ensures r.Err? ==> Plain(r.error)
      ensures ChallengesKept() && Valid() && Ordered(start, W(), managed.ipv4, 1)
    {
      hide Valid, Ordered, Plain, NoBackoff, RetryOf, Settled, BoundDuring, IsLatest, RenewedInTurn, BeganRenewal,
        Resolved, Healthy, CountsSoFar, ChallengesOk, Foreign;
      r := CheckTarget(managed, start);
      OrderedWidens(start, W(), managed.ipv4);
      if r.Err? || !Due(env.now, FromUnix(managed.nextRenewalAt)) {
        return;
      }
      ghost var before, log, ready := state.operations, h.log, env.now;
      r := RenewNow(managed, retry, start);
      if h.log[ObtainCalled(managed.ipv4)] != log[ObtainCalled(managed.ipv4)] {
        ghost var id :| BeganRenewal(before, managed, id) && (env.calm ==> Resolved(id, retry.attempt, r, ready));
        InTurn(before, managed, old(env.now), log, ready, id, retry, r);
      }
    }

    lemma InTurn(before: map<string, Operation>, managed: ManagedCert, from: int, log: multiset<Event>, ready: int,
                 id: string, retry: RetryInfo, r: Outcome)
      requires BeganRenewal(before, managed, id) && log <= h.log && from <= ready
      requires NoBackoff(before, managed.ipv4, from) && managed.nextRenewalAt * SECOND <= ready
      requires BoundDuring(log, managed.policyID, managed.certID, from + 1, ready)
      requires forall k <- state.operations :: k in before || ready < state.operations[k].createdAt
      requires env.calm ==> Resolved(id, retry.attempt, r, ready)
      requires exists k :: IsLatest(before, managed.ipv4, k) && retry == RetryOf(before[k])
      ensures RenewedInTurn(before, managed, from, id, r)
    {
      hide NoBackoff, BoundDuring, Resolved;
      var at := state.operations[id].createdAt;
      NoBackoffLater(before, managed.ipv4, from, at);
      BoundStays(log, h.log, managed.policyID, managed.certID, from + 1, ready, from + 1, at);
      if env.calm {
        ResolvedSince(id, retry.attempt, r, from, ready);
        assert CountsSoFar(before, managed.ipv4, retry.attempt);
      }
    }

    method RenewNow(managed: ManagedCert, retry: RetryInfo, ghost start: World) returns (r: Outcome)
      requires managed.ipv4 in state.managed && state.managed[managed.ipv4] == managed && managed.ipv4 != ""
               && Settled(W())
      requires FromUnix(retry.nextAt) <= env.now
      requires exists k :: IsLatest(state.operations, managed.ipv4, k) && retry == RetryOf(state.operations[k])
      requires ChallengesOk() && Valid() && Ordered(start, W(), managed.ipv4, 0)
      modifies this`h, this`clock, state, edge, tls, rollbacks, issuer, table, journal, env`now
      ensures r.Ok? ==> && Settled(W()) && Healthy(managed.ipv4)
                        && h.log[ObtainCalled(managed.ipv4)] == old(h.log)[ObtainCalled(managed.ipv4)] + 1
      ensures h.log[ObtainCalled(managed.ipv4)] != old(h.log)[ObtainCalled(managed.ipv4)] ==>
                exists id :: BeganRenewal(old(state.operations), managed, id)
                             && (env.calm ==> Resolved(id, retry.attempt, r, old(env.now)))
      ensures env.calm ==> Settled(W())
      ensures forall id <- state.operations ::
                id in old(state.operations) || old(env.now) < state.operations[id].createdAt
      ensures old(h.log) <= h.log && env.now >= old(env.now)
      ensures r.Err? ==> Plain(r.error)
      ensures ChallengesKept() && Valid() && Ordered(start, W(), managed.ipv4, 1)
    {
      hide Inv, Seen, Counted, Ordered, Later, Settled, BackoffOver, IsLatest, BeganRenewal, Resolved, Healthy,
        ChallengesOk, Foreign, EdgeClient.Valid, SnapshotStore.Valid;
      TickOrdered(start, managed.ipv4);
      ghost var w := W();
      OrderedIsReflexive(w, managed.ipv4, 0);
      ReadBackoff(w, schedule, managed.ipv4, retry);
      r := StartRenew(managed, retry.attempt, w);
      OrderedIsTransitive(start, w, W(), managed.ipv4, 1);
      OrderedKeepsLog(w, W(), managed.ipv4, 1);
      OrderedIsNewer(w, W(), managed.ipv4, 1);
    }

    /** Challenges, snapshots and operations of earlier runs, in this order. An operation under a snapshot ends on the
        side that TLS showed, any other as its stage prescribes. */
    method Repair() returns (r: Outcome)
      requires ChallengesOk() && Valid()
      modifies this`h, this`clock, state, edge, tls, rollbacks, table, journal, env`now
      ensures env.now >= old(env.now)
      ensures r.Ok? ==> Settled(W()) && journal.pending == map[] && journal.own == map[]
      ensures r.Ok? ==> forall id <- old(rollbacks.snapshots) ::
                          Sided(W(), id, old(rollbacks.snapshots)[id], Active, old(env.now) + 1)
      ensures r.Ok? ==> forall id <- old(state.operations) :: id in old(rollbacks.snapshots)
                          || (id in state.operations && EndsAs(old(state.operations)[id], state.operations[id]))
      ensures env.calm && r.Ok? ==> forall id <- old(rollbacks.snapshots) ::
                CalmSide(state.operations, id, HoldsNew(old(edge.certs), old(rollbacks.snapshots)[id]), Active)
      ensures old(Settled(W())) ==> state.operations == old(state.operations) && state.managed == old(state.managed)
      ensures r.Err? ==> Plain(r.error)
      ensures env.calm && old(rollbacks.Clean()) ==> r.Ok?
      ensures ChallengesOk() && Foreign(table, journal) == old(Foreign(table, journal)) && Valid()
              && Within(old(W()), W(), Restore)
    {
      hide Valid, Within, Settled, Sided, CalmSide, HoldsNew, EndsAs, ChallengesOk, Foreign, SnapshotStore.Clean;
      WithinIsReflexive(W(), Restore);
      r := RecoverChallenges();
      if r.Err? {
        return;
      }
      ghost var later := env.now;
      r := RepairLog();
      if r.Ok? {
        AllSidedSince(W(), old(rollbacks.snapshots), Active, old(env.now) + 1, later + 1);
      }
    }

    /** The part of recovery that works on challenges, after the check of the foreign table. */
    method RecoverChallenges() returns (r: Outcome)
      requires ChallengesOk() && Valid()
      modifies table, journal, env`now
      ensures r.Ok? ==> journal.pending == map[] && journal.own == map[]
      ensures r.Err? ==> Plain(r.error)
      ensures env.calm ==> r.Ok?
      ensures ChallengesOk() && Foreign(table, journal) == old(Foreign(table, journal)) && env.now >= old(env.now)
      ensures Valid() && W() == old(W())
    {
      hide Inv, Seen, Counted, Consistent, Isolated, Foreign, EdgeClient.Valid, SnapshotStore.Valid;
      r := table.CheckSchema();
      if r.Ok? {
        r := Recover(table, journal);
      }
    }

    /** The part of recovery that works on snapshots and operations. */
    method RepairLog() returns (r: Outcome)
      requires Valid()
      modifies this`h, this`clock, state, edge, tls, rollbacks, env`now
      ensures env.now >= old(env.now)
      ensures r.Ok? ==> Settled(W())
      ensures r.Ok? ==> forall id <- old(rollbacks.snapshots) ::
                          Sided(W(), id, old(rollbacks.snapshots)[id], Active, old(env.now) + 1)
      ensures r.Ok? ==> forall id <- old(state.operations) :: id in old(rollbacks.snapshots)
                          || (id in state.operations && EndsAs(old(state.operations)[id], state.operations[id]))
      ensures env.calm && r.Ok? ==> forall id <- old(rollbacks.snapshots) ::
                CalmSide(state.operations, id, HoldsNew(old(edge.certs), old(rollbacks.snapshots)[id]), Active)
      ensures old(Settled(W())) ==> state.operations == old(state.operations) && state.managed == old(state.managed)
      ensures r.Err? ==> Plain(r.error)
      ensures env.calm && old(rollbacks.Clean()) ==> r.Ok?
      ensures Valid() && Within(old(W()), W(), Restore)
    {
      hide Valid, Within, Settled, Sided, CalmSide, HoldsNew, EndsAs, Recovered, SnapshotStore.Clean;
      InvNow();
      SettledHasNoSnapshot();
      ghost var before := W();
      WithinIsReflexive(before, Restore);
      r := RecoverRollbacks(before);
      if r.Err? {
        return;
      }
      ghost var w := W();
      if Settled(before) {
        StillSettled(before, w);
      }
      WithinIsReflexive(w, Frozen);
      r := RecoverOperations(w);
      FrozenIsWithin(w, W(), Restore);
      WithinIsTransitive(before, w, W(), Restore);
      if r.Ok? {
        forall id | id in before.snapshots
          ensures Sided(W(), id, before.snapshots[id], Active, old(env.now) + 1)
        {
          SidedActive(w, W(), id, before.snapshots[id], old(env.now) + 1);
        }
        if env.calm {
          forall id | id in before.snapshots
            ensures CalmSide(state.operations, id, HoldsNew(before.certs, before.snapshots[id]), Active)
          {
            CalmSideActive(w, W(), id, HoldsNew(before.certs, before.snapshots[id]));
          }
        }
        RowsRecovered(before, schedule, w, W());
      }
    }

    lemma SettledHasNoSnapshot()
      ensures Settled(W()) ==> rollbacks.snapshots == map[]
    {
    }

    /** A run is counted when it starts. */
    ghost method FollowStart(ip: string, mode: RunMode)
      requires Valid()
      modifies this`h
      ensures W() == Logged(old(W()), RunStarted(ip, mode)) && Paid(W(), ip, mode)
      ensures Valid() && Later(old(W()), W())
    {
      hide Inv, Seen, Counted, Later, MayOrder;
      if mode.ManualFirstIssueRetry? {
        ManualRunPays(W(), schedule, ip);
      }
      LogKeepsInv(W(), schedule, RunStarted(ip, mode));
      LogKeepsSeen(h.log, tls.shown, tls.missed, edge.bound, RunStarted(ip, mode));
      ObservationKeepsCounted(h.log, h.marks, issuer.calls, edge.creations, RunStarted(ip, mode));
      h := Logged(W(), RunStarted(ip, mode)).h;
    }

    lemma RenewedEarlier(before: map<string, Operation>, managed: ManagedCert, from: int, asked: int, id: string,
                         r: Outcome)
      requires RenewedInTurn(before, managed, asked, id, r) && from <= asked
      ensures RenewedInTurn(before, managed, from, id, r)
    {
      hide AnsweredFor, BeganRenewal, NoBackoff;
      if env.calm {
        AnsweredSince(before, managed.ipv4, id, r, from, asked);
      }
    }

    /** After recovery: a first issue or a renewal. */
    method Proceed(ip: string, mode: RunMode) returns (r: Outcome)
      requires Settled(W()) && Paid(W(), ip, mode)
      requires ChallengesOk() && Valid()
      modifies this`h, this`clock, state, edge, tls, rollbacks, issuer, table, journal, env`now
      ensures r.Ok? || env.calm ==> Settled(W())
      ensures r.Err? ==> Plain(r.error)
      ensures r.Ok? && ip !in old(state.managed)
              && FirstIssueAllowed(mode, old(state.operations), ip) ==>
                ip in state.managed && h.log[ObtainCalled(ip)] == old(h.log)[ObtainCalled(ip)] + 1
      ensures r.Ok? && RenewalIsDue(old(state.operations), old(state.managed), ip, old(env.now)) ==>
                h.log[ObtainCalled(ip)] == old(h.log)[ObtainCalled(ip)] + 1
      ensures r.Ok? ==> if h.log[ObtainCalled(ip)] != old(h.log)[ObtainCalled(ip)] then Healthy(ip)
                        else && state.managed == old(state.managed)
                             && (ip in state.managed ==> state.operations == old(state.operations))
      ensures h.log[ObtainCalled(ip)] != old(h.log)[ObtainCalled(ip)] ==>
                InTurnFor(old(state.operations), old(state.managed), ip, mode, old(env.now), r)
      ensures r.Ok? && mode.ManualFirstIssueRetry? ==> ip in state.managed
      ensures r.Ok? && ip !in state.managed ==> NeedsPerson(state.operations, ip)
      ensures ip in old(state.managed) ==> ip in state.managed
      ensures mode.Timer? && ip !in state.managed ==> Ordered(old(W()), W(), ip, 0)
      ensures ChallengesKept() && Valid() && Ordered(old(W()), W(), ip, 1)
    {
      hide Inv, Seen, Counted, Ordered, Later, NoOperation, NoBackoff, FirstIssueAllowed, RenewedInTurn, Settled, Paid,
        BeganIssue, AnsweredFor, Healthy, NeedsPerson, ChallengesOk, Foreign, EdgeClient.Valid, SnapshotStore.Valid;
      ghost var w := W();
      OrderedIsReflexive(w, ip, 0);
      OrderedWidens(w, w, ip);
      var managed := state.Managed(ip);
      if managed == Failure(NotFound) {
        r := RunFirstIssue(ip, mode, w, old(env.now));
        if mode.Timer? {
          OrderedWidens(w, W(), ip);
        }
        return;
      }
      if managed.Failure? {
        return Err(managed.error);
      }
      ManagedRecord(w, schedule, ip);
      NoBackoffLater(w.rows, ip, old(env.now), env.now);
      r := RenewIfDue(managed.value, w, old(env.now));
      OrderedKeepsManaged(w, W(), ip, 1, ip);
    }

    lemma AnsweredSince(before: map<string, Operation>, ip: string, id: string, r: Outcome, from: int, later: int)
      requires AnsweredFor(before, ip, id, r, later) && from <= later
      ensures AnsweredFor(before, ip, id, r, from)
    {
      hide Resolved, CountsSoFar;
      var n :| CountsSoFar(before, ip, n) && Resolved(id, n, r, later);
      ResolvedSince(id, n, r, from, later);
    }

    /** The order of a run was its address's turn: a renewal when one was due, or an allowed first issue for the target
        that GoEdge named; and its answer was counted from where the newest operation had stopped. */
    ghost predicate InTurnFor(rows: map<string, Operation>, managed: map<string, ManagedCert>, ip: string,
                              mode: RunMode, from: int, r: Outcome)
      reads this`h, this`clock, state, edge`discovered, env`calm
    {
      if ip in managed then exists id :: RenewedInTurn(rows, managed[ip], from, id, r)
      else
        && FirstIssueAllowed(mode, rows, ip) && ip in edge.discovered
        && exists id :: BeganIssue(rows, ip, edge.discovered[ip], id)
                        && (env.calm ==> AnsweredFor(rows, ip, id, r, from))
    }

    /** The start of a run: it is counted, and everything an earlier run left is brought to its end. */
    method Restart(ip: string, mode: RunMode) returns (r: Outcome)
      requires ChallengesOk() && Valid()
      modifies this`h, this`clock, state, edge, tls, rollbacks, table, journal, env`now
      ensures RunOf(old(W()), W(), ip, mode, 0)
      ensures r.Ok? ==> Settled(W()) && Paid(W(), ip, mode) && accountReference != ""
      ensures accountReference == "" ==> r == Err(Rejected)
      ensures accountReference == "" || old(Settled(W())) ==>
                state.operations == old(state.operations) && state.managed == old(state.managed)
      ensures NoOperation(old(state.operations), ip) ==> NoOperation(state.operations, ip)
      ensures r.Err? ==> Plain(r.error)
      ensures env.calm && old(rollbacks.Clean()) && accountReference != "" ==>
                r.Ok? && forall id <- old(rollbacks.snapshots) ::
                  CalmSide(state.operations, id, HoldsNew(old(edge.certs), old(rollbacks.snapshots)[id]), Active)
      ensures ChallengesOk() && Foreign(table, journal) == old(Foreign(table, journal)) && Valid()
              && env.now >= old(env.now)
    {
      hide Valid, Within, Ordered, Later, RunOf, NoOperation, Settled, Paid, Sided, CalmSide, HoldsNew, EndsAs,
        ChallengesOk, Foreign, SnapshotStore.Clean;
      ghost var before := W();
      FollowStart(ip, mode);
      ghost var start := W();
      if Settled(before) {
        StillSettled(before, start);
      }
      OrderedIsReflexive(start, ip, 0);
      OrderedIsRun(before, start, start, ip, mode, 0);
      if accountReference == "" {
        return Err(Rejected);
      }
      r := Repair();
      WithinIsOrdered(start, start, W(), Restore, ip, 0);
      OrderedIsRun(before, start, W(), ip, mode, 0);
      RecoveryKeepsBudget(start, W(), Restore, ip, mode);
      if NoOperation(before.rows, ip) {
        StillNoOperation(start, W(), Restore, ip);
      }
    }

    lemma ManagedNow()
      ensures W().managed == state.managed && W().rows == state.operations
    {
    }

    lemma CountedNow(ip: string)
      requires Valid()
      ensures h.log[ObtainCalled(ip)] == issuer.calls[ip]
    {
      hide Inv, Seen, EdgeClient.Valid, SnapshotStore.Valid;
    }

    /** One run for one address. `repaired` is the state that recovery left, at instant `at`. */
    method RunOnce(ip: string, mode: RunMode) returns (r: Outcome, ghost repaired: World, ghost at: int)
      requires ChallengesOk() && Valid()
      modifies this`h, this`clock, state, edge, tls, rollbacks, issuer, table, journal, env`now
      ensures RunOf(old(W()), W(), ip, mode, 1)
      ensures mode.Timer? && ip !in state.managed ==> RunOf(old(W()), W(), ip, mode, 0)
      ensures r.Ok? ==> Delivers(old(W()), W(), ip, mode, old(env.now), old(issuer.calls)[ip], issuer.calls[ip])
      ensures issuer.calls[ip] != old(issuer.calls)[ip] ==>
                InTurnFor(repaired.rows, repaired.managed, ip, mode, at, r)
      ensures r.Ok? && (|| RenewalIsDue(repaired.rows, repaired.managed, ip, at)
                        || (ip !in repaired.managed && FirstIssueAllowed(mode, repaired.rows, ip))) ==>
                issuer.calls[ip] == old(issuer.calls)[ip] + 1 && Healthy(ip)
      ensures RunOf(old(W()), repaired, ip, mode, 0) && at >= old(env.now)
      ensures old(Settled(W())) ==>
                repaired.rows == old(state.operations) && repaired.managed == old(state.managed)
      ensures accountReference == "" ==> && r == Err(Rejected) && issuer.calls[ip] == old(issuer.calls)[ip]
                                         && state.operations == old(state.operations)
                                         && state.managed == old(state.managed)
      ensures r.Err? ==> Plain(r.error)
      ensures env.calm && old(rollbacks.Clean()) && accountReference != "" ==>
                Settled(W()) && forall id <- old(state.operations) :: id in state.operations
      ensures env.calm && old(rollbacks.Clean()) && accountReference != "" ==> forall id <- old(rollbacks.snapshots) ::
                CalmSide(state.operations, id, HoldsNew(old(edge.certs), old(rollbacks.snapshots)[id]), Active)
      ensures ChallengesOk() && Foreign(table, journal) == old(Foreign(table, journal)) && Valid()
    {
      hide Valid, Ordered, Later, RunOf, NoOperation, Settled, Paid, CalmSide, HoldsNew, ChallengesOk, Foreign,
        SnapshotStore.Clean, Delivers, InTurnFor, RenewalIsDue, FirstIssueAllowed, NeedsPerson;
      ghost var before := W();
      CountedNow(ip);
      r := Restart(ip, mode);
      repaired, at := W(), env.now;
      CountedNow(ip);
      RunCounts(before, repaired, ip, mode, 0);
      RunWidens(before, W(), ip, mode);
      if r.Err? {
        return;
      }
      r := Proceed(ip, mode);
      CountedNow(ip);
      ghost var n := if mode.Timer? && ip !in state.managed then 0 else 1;
      RunThenOrders(before, repaired, W(), ip, mode, n);
      RunWidens(before, W(), ip, mode);
      RunIsOver(before, repaired, W(), ip, mode);
      if r.Ok? {
        ManagedNow();
        RunCounts(before, W(), ip, mode, 1);
        RunDelivers(before, repaired, W(), ip, mode, old(env.now), at, old(issuer.calls)[ip], issuer.calls[ip]);
      }
      if env.calm && old(rollbacks.Clean()) && accountReference != "" {
        AllCalmSidesStay(repaired, W(), ip, n, before.snapshots, before.certs);
      }
    }
  }
}
