/** The stage transitions of the runner, as steps on the world, and the proof that each keeps the invariant. */
module LifecycleSteps {
  import opened Operations
  import opened GoEdge
  import opened Scheduler
  import opened Lifecycle
  import opened LifecycleRows

  /** The world after one row moved; the history follows. */
  function Moved(w: World, id: string, next: Stage, patch: Patch, failedAt: int, now: int): World
    requires id in w.rows
  {
    w.(rows := w.rows[id := Patched(w.rows[id], next, patch, now)], now := now,
    h := w.h.(
    trail := if id in w.h.trail && next != w.rows[id].stage then w.h.trail[id := w.h.trail[id] + [next]] else w.h.trail,
    failedAt := if patch.SetFailureWithRetry? then w.h.failedAt[id := failedAt] else w.h.failedAt,
    owner := if patch.SetIssued? then w.h.owner[patch.fingerprint := id] else w.h.owner))
  }

  /** A leaf the authority has just issued: no operation and no record knows it. */
  ghost predicate IsNew(w: World, fingerprint: string)
  {
    && fingerprint != "" && fingerprint in w.issued && fingerprint !in w.h.owner
    && (forall c <- w.certs :: Fingerprint(w.certs[c].certData) != fingerprint)
  }

  /** The record of a renewal still carries the certificate that was active before it. */
  predicate CarriesActive(w: World, o: Operation)
  {
    o.ipv4 in w.h.active && o.certID in w.h.carrier && w.h.carrier[o.certID] == w.h.active[o.ipv4]
  }

  /** Which transition the runner may make from a stage, and the evidence it needs for it. */
  ghost predicate MayMove(w: World, s: Policy, id: string, next: Stage, patch: Patch, failedAt: int)
  {
    && id in w.rows
    && var o := w.rows[id];
    && (patch.SetFailureWithRetry? ==>
          && next == Stage.Error && o.stage != next && patch.retryCount > 0 && failedAt == w.now
          && patch.nextRetryAt == StoredRetry(s, patch.retryCount - 1, failedAt))
    && (patch.SetFailure? ==> patch.message != ORDER_FAILED)
    && (next != o.stage ==> Inflight(o.stage))
    && id == w.h.last
    && match (o.stage, next) {
         case (New, ChallengePresent) => patch.SetMarker?
         case (Renewing, ChallengePresent) => patch.SetMarker?
         case (New, Error) => patch.SetFailure?
         case (Renewing, Error) => patch.SetFailure?
         case (ChallengePresent, Error) =>
           || patch.SetFailure?
           || (patch.SetFailureWithRetry? && patch.message == ORDER_FAILED && id in w.h.deniedAt
               && id in w.h.attempt && patch.retryCount == w.h.attempt[id] + 1)
         case (ChallengePresent, CertIssued) =>
           && patch.SetIssued? && patch.expiresAt > 0 && IsNew(w, patch.fingerprint)
           && id in w.h.orderedAt && id !in w.h.deniedAt
         case (CertIssued, Error) =>
           && patch.SetFailureWithRetry? && patch.retryCount == 1 && patch.message != ORDER_FAILED && id !in w.h.made
           && (o.kind == Renew ==> CarriesActive(w, o))
         case (CertIssued, CertCreated) =>
           && patch.SetCert? && patch.certID > 0 && AtHome(w.h.made, id, o, patch.certID)
           && patch.certID in w.h.carrier && w.h.carrier[patch.certID] == id
           && (o.kind == Renew ==> ShownDuring(w.h.log, o.ipv4, o.certFingerprint, o.createdAt, w.now))
         case (CertCreated, Error) =>
           && o.kind == Renew && patch.SetFailureWithRetry? && patch.retryCount == 1 && patch.message != ORDER_FAILED
           && id in w.snapshots && CarriesActive(w, o)
         case (CertCreated, PolicyBound) =>
           && patch.ClearMarker? && id !in w.snapshots
           && BoundDuring(w.h.log, o.policyID, o.certID, o.createdAt, w.now)
           && ShownDuring(w.h.log, o.ipv4, o.certFingerprint, o.createdAt, w.now)
         case (a, b) => a == b && patch.SetFailure? && patch.message == STEP_FAILED && o.certFingerprint != ""
       }
  }

  lemma RowTimes(rows: Rows, now: int, id: string)
    requires RowsOk(rows, now) && id in rows
    ensures rows[id].createdAt <= rows[id].updatedAt <= now
  {
    hide Marker, IsOperationID;
    assert RowOk(id, rows[id], now);
  }

  /** What the invariant says of one row. */
  lemma RowFacts(w: World, s: Policy, id: string)
    requires Inv(w, s) && id in w.rows
    ensures RowOk(id, w.rows[id], w.now) && StageOk(w.managed, w.rows[id]) && EvidenceOk(w.h.log, w.rows[id])
    ensures w.rows[id].kind == Issue ==> MadeOk(w.h.made, w.h.carrier, id, w.rows[id])
    ensures id in w.h.trail && TrailOk(w.h.trail[id], w.rows[id])
    ensures w.h.last in w.rows && (id == w.h.last || Before(w.rows[id], w.rows[w.h.last]))
    ensures Inflight(w.rows[id].stage) ==> id == w.h.last
    ensures id in w.h.attempt && w.h.attempt[id] >= 0
    ensures w.rows[id].kind == Renew && w.rows[id].stage in {CertCreated, PolicyBound} && id !in w.snapshots ==>
              w.rows[id].certID in w.h.carrier && w.h.carrier[w.rows[id].certID] == id
    ensures id in w.h.saved && id !in w.snapshots ==>
            w.rows[id].stage == Stage.Error || HasCertificate(w.rows[id].stage)
    ensures id in w.h.saved ==> w.rows[id].certFingerprint == w.h.saved[id].newFingerprint && w.rows[id].kind == Renew
    ensures id in w.snapshots ==> w.rows[id].kind == Renew && w.rows[id].stage in {CertIssued, CertCreated, Stage.Error}
    ensures id in w.snapshots && w.rows[id].stage == Stage.Error ==> CarriesActive(w, w.rows[id])
    ensures w.rows[id].stage == Renewing ==> w.rows[id].kind == Renew
    ensures w.rows[id].createdAt <= w.rows[id].updatedAt <= w.now
    ensures id in w.snapshots ==> id in w.h.saved
  {
    hide Moments, Managements, Records, Carriers, Markers, Owners, Newest, Orders, Creates, Paces, RowOk, SameTarget,
      EvidenceOk, MadeOk, TrailOk, GiveUps, ShownSince, StoredRetry;
    OpenInv(w, s);
    RowTimes(w.rows, w.now, id);
    if id in w.snapshots {
      assert SnapshotOk(w.rows, w.h.active, w.certs, w.h.carrier, w.h.last, id, w.snapshots[id]);
    }
    if id in w.h.saved {
      assert SavedOk(w.h.log, w.snapshots, id, w.h.saved[id], w.h.savedAt[id], w.rows[id]);
    }
    assert RetryOk(w.h.attempt, w.h.failedAt, s, id, w.rows[id]);
  }

  /** The moved row meets every condition a single row is under. */
  lemma MovedStage(w: World, s: Policy, id: string, next: Stage, patch: Patch, failedAt: int, now: int)
    requires MayMove(w, s, id, next, patch, failedAt) && now > w.now
    requires RowOk(id, w.rows[id], w.now) && StageOk(w.managed, w.rows[id])
    ensures var o, v := w.rows[id], Patched(w.rows[id], next, patch, now);
            && Kept(o, v) && v.createdAt == o.createdAt && v.kind == o.kind && v.ipv4 == o.ipv4 && v.updatedAt == now
            && v.stage == next && StageOk(w.managed, v)
            && (v.stage == Active || o.stage == Active ==> v.stage == o.stage && v.certID == o.certID)
            && (o.kind == Renew ==> v.certID == o.certID)
            && (if patch.SetIssued?
                   then o.certFingerprint == "" && o.stage == ChallengePresent && v.certFingerprint == patch.fingerprint
                else v.certFingerprint == o.certFingerprint && v.expiresAt == o.expiresAt)
            && (if patch.SetFailureWithRetry?
                then o.stage != Stage.Error && v.retryCount == patch.retryCount && v.nextRetryAt == patch.nextRetryAt
                else v.retryCount == o.retryCount && v.nextRetryAt == o.nextRetryAt)
            && (patch.SetFailureWithRetry? ==>
                  patch.retryCount == if v.certFingerprint != "" then 1
                                      else if id in w.h.attempt then w.h.attempt[id] + 1 else 0)
            && (v.stage == Stage.Error && o.stage != Stage.Error && !patch.SetFailureWithRetry? ==>
                  v.certFingerprint == "")
            && (patch.SetFailureWithRetry? ==>
                  failedAt == w.now && (v.errorMessage == ORDER_FAILED <==> v.certFingerprint == ""))
            && (!patch.SetFailureWithRetry? && v.stage == Stage.Error ==>
                  v.errorMessage != ORDER_FAILED && (o.stage == Stage.Error ==> v.certFingerprint != ""))
            && (v.stage == Active ==> v.errorMessage == STEP_FAILED)
  {
    hide StoredRetry, CarriesActive, Marker, IsOperationID;
  }

  lemma PlacementFacts(w: World, s: Policy, id: string)
    requires Inv(w, s) && id in w.rows
    ensures PlacementOk(w.h.orderedAt, w.h.deniedAt, w.h.failedAt, w.now, id, w.rows[id])
  {
    hide PlacementOk;
    OpenInv(w, s);
  }

  lemma MovedPlacement(w: World, s: Policy, id: string, next: Stage, patch: Patch, failedAt: int, now: int)
    requires MayMove(w, s, id, next, patch, failedAt) && now > w.now
    requires PlacementOk(w.h.orderedAt, w.h.deniedAt, w.h.failedAt, w.now, id, w.rows[id])
    ensures var v := Moved(w, id, next, patch, failedAt, now);
            PlacementOk(v.h.orderedAt, v.h.deniedAt, v.h.failedAt, now, id, v.rows[id])
  {
    hide StoredRetry, CarriesActive, IsNew, AtHome, BoundDuring, ShownDuring;
  }

  lemma MovedEvidence(w: World, s: Policy, id: string, next: Stage, patch: Patch, failedAt: int, now: int)
    requires MayMove(w, s, id, next, patch, failedAt) && StageOk(w.managed, w.rows[id])
    requires EvidenceOk(w.h.log, w.rows[id]) && now > w.now && w.rows[id].updatedAt <= w.now
    requires w.rows[id].kind == Issue ==> MadeOk(w.h.made, w.h.carrier, id, w.rows[id])
    ensures var v := Patched(w.rows[id], next, patch, now);
            && EvidenceOk(w.h.log, v)
            && (v.kind == Issue ==> MadeOk(w.h.made, w.h.carrier, id, v))
            && (v.kind == Renew && v.stage in {CertCreated, PolicyBound} && w.rows[id].stage == CertIssued ==>
                  v.certID in w.h.carrier && w.h.carrier[v.certID] == id)
  {
    hide IsNew, StoredRetry, CarriesActive, SameTarget;
  }

  lemma MoveKeepsLog(w: World, s: Policy, id: string, next: Stage, patch: Patch, failedAt: int, now: int)
    requires Inv(w, s) && MayMove(w, s, id, next, patch, failedAt) && now > w.now
    ensures var v := Moved(w, id, next, patch, failedAt, now);
            && RowsOk(v.rows, v.now) && OneAtATime(v.rows, v.h.last) && Newest(v.rows, v.h.latest)
            && Moments(v.rows, v.h.moment)
            && Stages(v.rows, v.managed) && Managements(v.rows, v.managed, v.h.active, s) && Evidence(v.rows, v.h.log)
  {
    hide Moments, Patched, RowsOk, OneAtATime, Newest, Stages, Owners, Managements, Evidence, Records, Carriers,
      Markers, Creations, Holders, Snapshots, Saved, Creates, Orders, Retries, Placements, Activations, Paces, Trails,
      GiveUps, StageOk, EvidenceOk, MadeOk, Kept, TrailOk, RowOk, Before;
    OpenInv(w, s);
    assert id == w.h.last && id in w.rows;
    RowFacts(w, s, id);
    MovedStage(w, s, id, next, patch, failedAt, now);
    MovedEvidence(w, s, id, next, patch, failedAt, now);
    LastIsLatest(w.rows, w.h.latest, w.h.last);
    hide MayMove;
    var o := Patched(w.rows[id], next, patch, now);
    RewriteKeepsRowsOk(w.rows, w.now, id, o, now);
    RewriteKeepsOneAtATime(w.rows, w.h.last, id, o);
    RewriteKeepsNewest(w.rows, w.h.latest, id, o);
    RewriteKeepsMoments(w.rows, w.h.moment, id, o);
    RewriteKeepsStages(w.rows, w.managed, id, o);
    RewriteKeepsManagements(w.rows, w.managed, w.h.active, s, id, o);
    RewriteKeepsEvidence(w.rows, w.h.log, id, o);
  }

  lemma MoveKeepsRecords(w: World, s: Policy, id: string, next: Stage, patch: Patch, failedAt: int, now: int)
    requires Inv(w, s) && MayMove(w, s, id, next, patch, failedAt) && now > w.now
    ensures var v := Moved(w, id, next, patch, failedAt, now);
            && Owners(v.rows, v.h.owner, v.issued) && Records(v.certs, v.h.owner, v.h.carrier, v.issued)
            && Carriers(v.certs, v.rows, v.h.made, v.h.carrier) && Markers(v.certs, v.rows, v.h.made, v.h.marks)
            && Creations(v.rows, v.h.made, v.h.carrier)
  {
    hide Moments, Patched, RowsOk, OneAtATime, Newest, Stages, Owners, Managements, Evidence, Records, Carriers,
      Markers, Creations, Holders, Snapshots, Saved, Creates, Orders, Retries, Placements, Activations, Paces, Trails,
      GiveUps, StageOk, EvidenceOk, MadeOk, Kept, TrailOk, RowOk, Before;
    OpenInv(w, s);
    RowFacts(w, s, id);
    MovedStage(w, s, id, next, patch, failedAt, now);
    MovedEvidence(w, s, id, next, patch, failedAt, now);
    var o := Patched(w.rows[id], next, patch, now);
    if patch.SetIssued? {
      assert IsNew(w, patch.fingerprint);
      FirstLeafKeepsOwners(w.rows, w.h.owner, w.issued, id, o);
      FirstLeafKeepsRecords(w.certs, w.h.owner, w.h.carrier, w.issued, patch.fingerprint, id);
    } else {
      RewriteKeepsOwners(w.rows, w.h.owner, w.issued, id, o);
    }
    RewriteKeepsCarriers(w.certs, w.rows, w.h.made, w.h.carrier, id, o);
    RewriteKeepsMarkers(w.certs, w.rows, w.h.made, w.h.marks, id, o);
    RewriteKeepsCreations(w.rows, w.h.made, w.h.carrier, id, o);
  }

  lemma MoveKeepsSnapshots(w: World, s: Policy, id: string, next: Stage, patch: Patch, failedAt: int, now: int)
    requires Inv(w, s) && MayMove(w, s, id, next, patch, failedAt) && now > w.now
    ensures var v := Moved(w, id, next, patch, failedAt, now);
            && Holders(v.rows, v.managed, v.h.active, v.h.carrier, v.snapshots)
            && Snapshots(v.rows, v.h.active, v.certs, v.h.carrier, v.h.last, v.snapshots)
            && Saved(v.rows, v.h.log, v.snapshots, v.h.saved, v.h.savedAt) && SavedInPast(v.h.savedAt, v.now)
  {
    hide Moments, Patched, RowsOk, OneAtATime, Newest, Stages, Owners, Managements, Evidence, Records, Carriers,
      Markers, Creations, Holders, Snapshots, Saved, Creates, Orders, Retries, Placements, Activations, Paces, Trails,
      GiveUps, StageOk, EvidenceOk, MadeOk, TrailOk, RowOk, Before;
    OpenInv(w, s);
    RowFacts(w, s, id);
    MovedStage(w, s, id, next, patch, failedAt, now);
    MovedEvidence(w, s, id, next, patch, failedAt, now);
    var o := Patched(w.rows[id], next, patch, now);
    RewriteKeepsHolders(w.rows, w.managed, w.h.active, w.h.carrier, w.snapshots, id, o);
    RewriteKeepsSnapshots(w.rows, w.h.active, w.certs, w.h.carrier, w.h.last, w.snapshots, id, o);
    RewriteKeepsSaved(w.rows, w.h.log, w.snapshots, w.h.saved, w.h.savedAt, id, o);
  }

  lemma MoveKeepsCounts(w: World, s: Policy, id: string, next: Stage, patch: Patch, failedAt: int, now: int)
    requires Inv(w, s) && MayMove(w, s, id, next, patch, failedAt) && now > w.now
    ensures var v := Moved(w, id, next, patch, failedAt, now);
            && Creates(v.rows, v.h.log)
            && Retries(v.rows, v.h.attempt, v.h.failedAt, s) && Paces(v.rows, v.h.previous, v.h.attempt)
            && Trails(v.rows, v.h.trail) && GiveUps(v.rows, v.h.trail, v.h.saved) && RowsKept(w.rows, v.rows)
            && TrailsKept(w.h.trail, v.h.trail)
  {
    hide Moments, Patched, RowsOk, OneAtATime, Newest, Stages, Owners, Managements, Evidence, Records, Carriers,
      Markers, Creations, Holders, Snapshots, Saved, Creates, Orders, Retries, Placements, Activations, Paces, Trails,
      GiveUps, StageOk, EvidenceOk, MadeOk, TrailOk, Before;
    OpenInv(w, s);
    RowFacts(w, s, id);
    MovedStage(w, s, id, next, patch, failedAt, now);
    NothingFollowsLast(w.rows, w.h.previous, w.h.attempt, w.h.last);
    var o := Patched(w.rows[id], next, patch, now);
    RewriteKeepsCreates(w.rows, w.h.log, id, o);
    if patch.SetFailureWithRetry? {
      BackoffKeepsRetries(w.rows, w.h.attempt, w.h.failedAt, s, id, o, failedAt);
    } else {
      RewriteKeepsRetries(w.rows, w.h.attempt, w.h.failedAt, s, id, o);
    }
    RewriteKeepsPaces(w.rows, w.h.previous, w.h.attempt, id, o);
    if next == w.rows[id].stage {
      RewriteKeepsTrails(w.rows, w.h.trail, id, o);
      RewriteKeepsGiveUps(w.rows, w.h.trail, w.h.saved, id, o);
    } else {
      AdvanceKeepsTrails(w.rows, w.h.trail, id, o);
      AdvanceKeepsGiveUps(w.rows, w.h.trail, w.h.saved, id, o);
    }
  }

  lemma MoveKeepsPlacements(w: World, s: Policy, id: string, next: Stage, patch: Patch, failedAt: int, now: int)
    requires Inv(w, s) && MayMove(w, s, id, next, patch, failedAt) && now > w.now
    ensures var v := Moved(w, id, next, patch, failedAt, now);
            Placements(v.rows, v.h.orderedAt, v.h.deniedAt, v.h.failedAt, v.now)
  {
    hide Moments, Patched, RowsOk, OneAtATime, Newest, Stages, Owners, Managements, Evidence, Records, Carriers,
      Markers, Creations, Holders, Snapshots, Saved, Creates, Orders, Retries, Placements, Activations, Paces, Trails,
      GiveUps, PlacementOk;
    OpenInv(w, s);
    assert id in w.rows;
    PlacementFacts(w, s, id);
    MovedPlacement(w, s, id, next, patch, failedAt, now);
    hide MayMove;
    var v := Moved(w, id, next, patch, failedAt, now);
    RewriteKeepsPlacements(w.rows, w.h.orderedAt, w.h.deniedAt, w.h.failedAt, w.now, id, v.rows[id], v.h.failedAt, now);
  }

  lemma MoveKeepsActivations(w: World, s: Policy, id: string, next: Stage, patch: Patch, failedAt: int, now: int)
    requires Inv(w, s) && MayMove(w, s, id, next, patch, failedAt) && now > w.now
    ensures var v := Moved(w, id, next, patch, failedAt, now);
            Activations(v.rows, v.managed, v.h.active, v.h.activatedAt)
  {
    hide Moments, Patched, RowsOk, OneAtATime, Newest, Stages, Owners, Managements, Evidence, Records, Carriers,
      Markers, Creations, Holders, Snapshots, Saved, Creates, Orders, Retries, Placements, Paces, Trails, GiveUps,
      StageOk, EvidenceOk, MadeOk, TrailOk, RowOk, Before, SuccessOk;
    OpenInv(w, s);
    RowFacts(w, s, id);
    MovedStage(w, s, id, next, patch, failedAt, now);
    hide MayMove;
    RewriteKeepsActivations(w.rows, w.managed, w.h.active, w.h.activatedAt, id, Patched(w.rows[id], next, patch, now));
  }

  lemma TargetsKeptReflexive(managed: map<string, ManagedCert>)
    ensures TargetsKept(managed, managed)
  {
  }

  /** Every transition the runner makes keeps the invariant. */
  lemma MoveKeepsInv(w: World, s: Policy, id: string, next: Stage, patch: Patch, failedAt: int, now: int)
    requires Inv(w, s) && MayMove(w, s, id, next, patch, failedAt) && now > w.now
    ensures Inv(Moved(w, id, next, patch, failedAt, now), s)
    ensures Later(w, Moved(w, id, next, patch, failedAt, now))
  {
    hide Moments, Patched, RowsOk, OneAtATime, Newest, Stages, Owners, Managements, Evidence, Records, Carriers,
      Markers, Creations, Holders, Snapshots, Saved, Creates, Orders, Retries, Placements, Activations, Paces, Trails,
      GiveUps, RowsKept, TrailsKept, TargetsKept;
    OpenInv(w, s);
    TargetsKeptReflexive(w.managed);
    assert id in w.rows;
    hide MayMove;
    MoveKeepsLog(w, s, id, next, patch, failedAt, now);
    MoveKeepsRecords(w, s, id, next, patch, failedAt, now);
    MoveKeepsSnapshots(w, s, id, next, patch, failedAt, now);
    MoveKeepsCounts(w, s, id, next, patch, failedAt, now);
    MoveKeepsPlacements(w, s, id, next, patch, failedAt, now);
    MoveKeepsActivations(w, s, id, next, patch, failedAt, now);
    CloseInv(Moved(w, id, next, patch, failedAt, now), s);
  }
}
