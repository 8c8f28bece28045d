/** New orders, activation and the normalization of a failed first issue, as steps on the world. */
module LifecycleOrders {
  import opened Operations
  import opened Scheduler
  import opened Lifecycle
  import opened LifecycleRows
  import opened LifecycleSteps

  // ---------------------------------------------------------------- a new order

  function Created(w: World, op: Operation, attempt: int, now: int): World
  {
    w.(rows := w.rows[op.id := Inserted(op, now)], now := now,
    h := w.h.(
    trail := w.h.trail[op.id := [op.stage]],
    attempt := w.h.attempt[op.id := attempt],
    previous := if op.ipv4 in w.h.latest then w.h.previous[op.id := w.h.latest[op.ipv4]] else w.h.previous,
    last := op.id, moment := w.h.moment[now := op.id], latest := w.h.latest[op.ipv4 := op.id],
    marks := if op.kind == Issue then w.h.marks[op.marker := op.id] else w.h.marks))
  }

  /** The backoff stored by the newest operation of the address is over. */
  ghost predicate BackoffOver(w: World, ip: string, attempt: int)
  {
    && ip in w.h.latest && w.h.latest[ip] in w.rows
    && var p := w.rows[w.h.latest[ip]];
    && (p.stage == Stage.Error ==> FromUnix(p.nextRetryAt) <= w.now && attempt == p.retryCount)
    && (p.stage == Active ==> attempt == 0)
  }

  /** An order continues the count of the newest operation of its address; the very first one starts at zero. */
  ghost predicate Continues(w: World, ip: string, attempt: int)
  {
    if ip !in w.h.latest then attempt == 0
    else
      && w.h.latest[ip] in w.rows
      && var p := w.rows[w.h.latest[ip]];
      (p.stage == Stage.Error ==> attempt == p.retryCount) && (p.stage == Active ==> attempt == 0)
  }

  /** Nothing is left to recover: no snapshot, and every operation is over. */
  ghost predicate Settled(w: World)
  {
    w.snapshots == map[] && forall id <- w.rows :: !Inflight(w.rows[id].stage)
  }

  ghost predicate MayCreate(w: World, op: Operation, attempt: int)
  {
    && Settled(w) && op.id !in w.rows && IsOperationID(op.id) && op.ipv4 != ""
    && op.marker == Marker(op.kind, op.ipv4, op.id) && attempt >= 0
    && (op.kind == Issue ==>
          && op.stage == New && op.ipv4 !in w.managed && op.certID == 0 && Continues(w, op.ipv4, attempt)
          && forall c <- w.certs :: w.certs[c].name != op.marker)
    && (op.kind == Renew ==>
          && op.stage == Renewing && op.ipv4 in w.managed && SameTarget(w.managed[op.ipv4], op)
          && BackoffOver(w, op.ipv4, attempt))
  }

  /** The new row meets every condition a single row is under. */
  lemma NewRow(w: World, s: Policy, op: Operation, attempt: int, now: int)
    requires Inv(w, s) && MayCreate(w, op, attempt) && now > w.now
    ensures var o := Inserted(op, now);
            && RowOk(op.id, o, now) && StageOk(w.managed, o) && o.certFingerprint == "" && o.createdAt == now
            && o.retryCount == 0 && o.nextRetryAt == 0 && o.stage == op.stage && o.kind == op.kind && o.ipv4 == op.ipv4
            && o.marker == op.marker && o.stage == (if o.kind == Issue then New else Renewing)
            && (o.kind == Renew ==> o.ipv4 in w.h.latest)
  {
    hide Moments, OneAtATime, Stages, Owners, Evidence, Records, Carriers, Markers, Creations, Holders, Snapshots,
      Saved, Creates, Orders, Retries, Placements, Activations, Paces, Trails, GiveUps, StoredRenewal, Marker,
      IsOperationID;
    OpenInv(w, s);
    if op.ipv4 in w.managed {
      assert ManagedOk(w.rows, w.h.active, s, op.ipv4, w.managed[op.ipv4]);
    }
  }

  /** The new row follows the newest operation of its address. */
  lemma NewPace(w: World, s: Policy, op: Operation, attempt: int, now: int)
    requires Inv(w, s) && MayCreate(w, op, attempt) && now > w.now
    ensures op.ipv4 in w.h.latest ==>
            w.h.latest[op.ipv4] in w.rows && PacedAfter(w.rows[w.h.latest[op.ipv4]], Inserted(op, now), attempt)
    ensures op.ipv4 in w.h.latest || (attempt == 0 && op.id !in w.h.previous)
  {
    hide Moments, OneAtATime, Stages, Owners, Managements, Evidence, Records, Carriers, Markers, Creations, Holders,
      Snapshots, Saved, Creates, Orders, Retries, Placements, Activations, Trails, GiveUps, StoredRenewal, Marker,
      IsOperationID, PacedAfter;
    OpenInv(w, s);
    if op.ipv4 in w.h.latest {
      var p := w.h.latest[op.ipv4];
      LatestStage(w, s, op.ipv4);
      assert RowOk(p, w.rows[p], w.now);
      hide Inv, Newest, RowsOk, Paces;
      NextPace(w.rows[p], op, attempt, w.now, now);
    }
  }

  lemma NextPace(p: Operation, op: Operation, attempt: int, before: int, now: int)
    requires p.ipv4 == op.ipv4 && p.createdAt <= p.updatedAt <= before < now && !Inflight(p.stage)
    requires (p.stage == Stage.Error ==> attempt == p.retryCount) && (p.stage == Active ==> attempt == 0)
    requires op.kind == Renew && p.stage == Stage.Error ==> FromUnix(p.nextRetryAt) <= before
    requires op.kind == Issue ==> p.stage == Stage.Error
    ensures PacedAfter(p, Inserted(op, now), attempt)
  {
    hide FromUnix;
  }

  /** Before an address is managed, its newest operation can only have failed. */
  lemma LatestStage(w: World, s: Policy, ip: string)
    requires Inv(w, s) && Settled(w) && ip in w.h.latest
    ensures w.h.latest[ip] in w.rows && w.rows[w.h.latest[ip]].ipv4 == ip
    ensures w.rows[w.h.latest[ip]].stage in {Active, Stage.Error}
    ensures ip !in w.managed ==> w.rows[w.h.latest[ip]].stage == Stage.Error
  {
    hide Moments, OneAtATime, RowsOk, Owners, Managements, Evidence, Records, Carriers, Markers, Creations, Holders,
      Snapshots, Saved, Creates, Orders, Retries, Placements, Activations, Paces, Trails, GiveUps, SameTarget;
    OpenInv(w, s);
    assert StageOk(w.managed, w.rows[w.h.latest[ip]]);
  }

  lemma MarkerIsFresh(w: World, s: Policy, op: Operation, attempt: int)
    requires Inv(w, s) && MayCreate(w, op, attempt)
    ensures op.marker !in w.h.marks
  {
    hide Moments, OneAtATime, Newest, Stages, Owners, Managements, Evidence, Records, Carriers, Creations, Holders,
      Snapshots, Saved, Creates, Orders, Retries, Placements, Activations, Paces, Trails, GiveUps, Marker, BackoffOver;
    OpenInv(w, s);
    if op.marker in w.h.marks {
      var k := w.h.marks[op.marker];
      assert RowOk(k, w.rows[k], w.now);
      MarkerNamesOperation(op.kind, op.ipv4, op.id, w.rows[k].kind, w.rows[k].ipv4, k);
    }
  }

  lemma CreateKeepsLog(w: World, s: Policy, op: Operation, attempt: int, now: int)
    requires Inv(w, s) && MayCreate(w, op, attempt) && now > w.now
    ensures var v := Created(w, op, attempt, now);
            && RowsOk(v.rows, v.now) && OneAtATime(v.rows, v.h.last) && Newest(v.rows, v.h.latest)
            && Moments(v.rows, v.h.moment)
            && Stages(v.rows, v.managed) && Evidence(v.rows, v.h.log)
            && Owners(v.rows, v.h.owner, v.issued) && Managements(v.rows, v.managed, v.h.active, s)
  {
    hide Moments, Inserted, RowsOk, OneAtATime, Newest, Stages, Owners, Managements, Evidence, Records, Carriers,
      Markers, Creations, Holders, Snapshots, Saved, Creates, Orders, Retries, Placements, Activations, Paces, Trails,
      GiveUps, StageOk, RowOk, PacedAfter, BackoffOver;
    OpenInv(w, s);
    NewRow(w, s, op, attempt, now);
    var o := Inserted(op, now);
    InsertKeepsRowsOk(w.rows, w.now, op.id, o, now);
    InsertKeepsOneAtATime(w.rows, w.now, op.id, o);
    InsertKeepsNewest(w.rows, w.h.latest, op.id, o);
    InsertKeepsMoments(w.rows, w.h.moment, w.now, op.id, o);
    InsertKeepsStages(w.rows, w.managed, w.h.log, op.id, o);
    InsertKeepsOwners(w.rows, w.h.owner, w.issued, op.id, o);
    InsertKeepsManagements(w.rows, w.managed, w.h.active, s, op.id, o);
  }

  lemma CreateKeepsRecords(w: World, s: Policy, op: Operation, attempt: int, now: int)
    requires Inv(w, s) && MayCreate(w, op, attempt) && now > w.now
    ensures var v := Created(w, op, attempt, now);
            && Carriers(v.certs, v.rows, v.h.made, v.h.carrier) && Markers(v.certs, v.rows, v.h.made, v.h.marks)
            && Creations(v.rows, v.h.made, v.h.carrier)
            && Holders(v.rows, v.managed, v.h.active, v.h.carrier, v.snapshots)
            && Snapshots(v.rows, v.h.active, v.certs, v.h.carrier, v.h.last, v.snapshots)
            && Saved(v.rows, v.h.log, v.snapshots, v.h.saved, v.h.savedAt) && SavedInPast(v.h.savedAt, v.now)
  {
    OpenInv(w, s);
    MarkerIsFresh(w, s, op, attempt);
    hide Moments, Inserted, RowsOk, OneAtATime, Newest, Stages, Owners, Managements, Evidence, Records, Carriers,
      Markers, Creations, Holders, Saved, Creates, Orders, Retries, Placements, Activations, Paces, Trails, GiveUps,
      StageOk, RowOk, PacedAfter, BackoffOver;
    NewRow(w, s, op, attempt, now);
    var o := Inserted(op, now);
    InsertKeepsCarriers(w.certs, w.rows, w.h.made, w.h.carrier, op.id, o);
    InsertKeepsMarkers(w.certs, w.rows, w.h.made, w.h.marks, op.id, o);
    InsertKeepsCreations(w.rows, w.h.made, w.h.carrier, op.id, o);
    InsertKeepsHolders(w.rows, w.managed, w.h.active, w.h.carrier, op.id, o);
    InsertKeepsSaved(w.rows, w.h.log, w.h.saved, w.h.savedAt, op.id, o);
  }

  lemma CreateKeepsCounts(w: World, s: Policy, op: Operation, attempt: int, now: int)
    requires Inv(w, s) && MayCreate(w, op, attempt) && now > w.now
    ensures var v := Created(w, op, attempt, now);
            && Creates(v.rows, v.h.log) && Orders(v.managed, v.h.latest, v.h.log)
            && Retries(v.rows, v.h.attempt, v.h.failedAt, s)
            && Placements(v.rows, v.h.orderedAt, v.h.deniedAt, v.h.failedAt, v.now)
            && Activations(v.rows, v.managed, v.h.active, v.h.activatedAt)
            && Paces(v.rows, v.h.previous, v.h.attempt) && Trails(v.rows, v.h.trail)
            && GiveUps(v.rows, v.h.trail, v.h.saved)
            && TrailsKept(w.h.trail, v.h.trail)
  {
    hide Moments, Inserted, RowsOk, OneAtATime, Newest, Stages, Owners, Managements, Evidence, Records, Carriers,
      Markers, Creations, Holders, Snapshots, Saved, Creates, Retries, Placements, Activations, Paces, Trails, GiveUps,
      StageOk, RowOk, PacedAfter, BackoffOver;
    OpenInv(w, s);
    NewRow(w, s, op, attempt, now);
    var o := Inserted(op, now);
    InsertKeepsSaved(w.rows, w.h.log, w.h.saved, w.h.savedAt, op.id, o);
    InsertKeepsRetries(w.rows, w.h.attempt, w.h.failedAt, s, op.id, o, attempt);
    InsertKeepsPlacements(w.rows, w.h.orderedAt, w.h.deniedAt, w.h.failedAt, w.now, op.id, o, now);
    InsertKeepsActivations(w.rows, w.managed, w.h.active, w.h.activatedAt, op.id, o);
    NewPace(w, s, op, attempt, now);
    InsertKeepsPaces(w.rows, w.h.previous, w.h.attempt, w.h.latest, op.id, o, attempt);
    InsertKeepsTrails(w.rows, w.h.trail, op.id, o);
    InsertKeepsGiveUps(w.rows, w.h.trail, w.h.saved, op.id, o);
  }

  lemma CreateKeepsRows(w: World, s: Policy, op: Operation, attempt: int, now: int)
    requires MayCreate(w, op, attempt) && now > w.now
    ensures RowsKept(w.rows, Created(w, op, attempt, now).rows)
    ensures OnlyRenewals(w.rows, w.managed, w.now, Created(w, op, attempt, now).rows)
  {
  }

  /** A new order keeps the invariant: it starts only when nothing is left to recover. */
  lemma CreateKeepsInv(w: World, s: Policy, op: Operation, attempt: int, now: int)
    requires Inv(w, s) && MayCreate(w, op, attempt) && now > w.now
    ensures Inv(Created(w, op, attempt, now), s) && Later(w, Created(w, op, attempt, now))
  {
    hide Moments, Inserted, RowsOk, OneAtATime, Newest, Stages, Owners, Managements, Evidence, Records, Carriers,
      Markers, Creations, Holders, Snapshots, Saved, Creates, Orders, Retries, Placements, Activations, Paces, Trails,
      GiveUps, MayCreate, RowsKept, TrailsKept, TargetsKept, OnlyRenewals;
    OpenInv(w, s);
    TargetsKeptReflexive(w.managed);
    CreateKeepsLog(w, s, op, attempt, now);
    CreateKeepsRecords(w, s, op, attempt, now);
    CreateKeepsCounts(w, s, op, attempt, now);
    CreateKeepsRows(w, s, op, attempt, now);
    CloseInv(Created(w, op, attempt, now), s);
  }

  lemma OnlyRowsOrder(w: World, s: Policy, id: string)
    requires Inv(w, s) && id !in w.rows
    ensures id !in w.h.orderedAt && id !in w.h.deniedAt
  {
    hide Moments, RowsOk, OneAtATime, Newest, Stages, Owners, Managements, Evidence, Records, Carriers, Markers,
      Creations, Holders, Snapshots, Saved, Creates, Orders, Retries, Paces, Trails, GiveUps, PlacementOk;
    OpenInv(w, s);
  }

  // ---------------------------------------------------------------- a normalized marker

  function Normalized(w: World, id: string): World
    requires id in w.rows
  {
    w.(rows := w.rows[id := w.rows[id].(recoveryMarker := RECOVERY_NEEDS_ATTENTION)])
  }

  lemma NormalizedRow(w: World, s: Policy, id: string)
    requires Inv(w, s) && id in w.rows && w.rows[id].stage == Stage.Error
    ensures var o := Normalized(w, id).rows[id];
            && Kept(w.rows[id], o) && o.createdAt == w.rows[id].createdAt
            && o.updatedAt == w.rows[id].updatedAt <= w.now
            && StageOk(w.managed, o) && EvidenceOk(w.h.log, o)
            && (o.kind == Issue ==> MadeOk(w.h.made, w.h.carrier, id, o))
            && (id in w.snapshots ==> CarriesActive(w, o))
            && o.errorMessage == w.rows[id].errorMessage
            && PlacementOk(w.h.orderedAt, w.h.deniedAt, w.h.failedAt, w.now, id, o)
  {
    hide Moments, RowsOk, OneAtATime, Newest, Stages, Owners, Managements, Evidence, Records, Carriers, Markers,
      Creations, Holders, Snapshots, Saved, Creates, Orders, Retries, Placements, Activations, Paces, Trails, GiveUps,
      Before, TrailOk, Marker, IsOperationID;
    OpenInv(w, s);
    PlacementFacts(w, s, id);
    RowFacts(w, s, id);
  }

  lemma NormalizeKeepsLog(w: World, s: Policy, id: string)
    requires Inv(w, s) && id in w.rows && w.rows[id].stage == Stage.Error
    ensures var v := Normalized(w, id);
            && RowsOk(v.rows, v.now) && OneAtATime(v.rows, v.h.last) && Newest(v.rows, v.h.latest)
            && Moments(v.rows, v.h.moment)
            && Stages(v.rows, v.managed) && Owners(v.rows, v.h.owner, v.issued)
            && Managements(v.rows, v.managed, v.h.active, s)
            && Evidence(v.rows, v.h.log)
  {
    hide Moments, RowsOk, OneAtATime, Newest, Stages, Owners, Managements, Evidence, Records, Carriers, Markers,
      Creations, Holders, Snapshots, Saved, Creates, Orders, Retries, Placements, Activations, Paces, Trails, GiveUps,
      Kept, StageOk, EvidenceOk, MadeOk, PlacementOk;
    OpenInv(w, s);
    NormalizedRow(w, s, id);
    var o := Normalized(w, id).rows[id];
    RewriteKeepsRowsOk(w.rows, w.now, id, o, w.now);
    RewriteKeepsOneAtATime(w.rows, w.h.last, id, o);
    RewriteKeepsNewest(w.rows, w.h.latest, id, o);
    RewriteKeepsMoments(w.rows, w.h.moment, id, o);
    RewriteKeepsStages(w.rows, w.managed, id, o);
    RewriteKeepsOwners(w.rows, w.h.owner, w.issued, id, o);
    RewriteKeepsManagements(w.rows, w.managed, w.h.active, s, id, o);
    RewriteKeepsEvidence(w.rows, w.h.log, id, o);
  }

  lemma NormalizeKeepsRecords(w: World, s: Policy, id: string)
    requires Inv(w, s) && id in w.rows && w.rows[id].stage == Stage.Error
    ensures var v := Normalized(w, id);
            && Carriers(v.certs, v.rows, v.h.made, v.h.carrier) && Markers(v.certs, v.rows, v.h.made, v.h.marks)
            && Creations(v.rows, v.h.made, v.h.carrier)
            && Holders(v.rows, v.managed, v.h.active, v.h.carrier, v.snapshots)
            && Snapshots(v.rows, v.h.active, v.certs, v.h.carrier, v.h.last, v.snapshots)
            && Saved(v.rows, v.h.log, v.snapshots, v.h.saved, v.h.savedAt) && SavedInPast(v.h.savedAt, v.now)
  {
    hide Moments, RowsOk, OneAtATime, Newest, Stages, Owners, Managements, Evidence, Records, Carriers, Markers,
      Creations, Holders, Snapshots, Saved, Creates, Orders, Retries, Placements, Activations, Paces, Trails, GiveUps,
      Kept, StageOk, EvidenceOk, MadeOk, PlacementOk;
    OpenInv(w, s);
    NormalizedRow(w, s, id);
    var o := Normalized(w, id).rows[id];
    RewriteKeepsCarriers(w.certs, w.rows, w.h.made, w.h.carrier, id, o);
    RewriteKeepsMarkers(w.certs, w.rows, w.h.made, w.h.marks, id, o);
    RewriteKeepsCreations(w.rows, w.h.made, w.h.carrier, id, o);
    RewriteKeepsHolders(w.rows, w.managed, w.h.active, w.h.carrier, w.snapshots, id, o);
    RewriteKeepsSnapshots(w.rows, w.h.active, w.certs, w.h.carrier, w.h.last, w.snapshots, id, o);
    RewriteKeepsSaved(w.rows, w.h.log, w.snapshots, w.h.saved, w.h.savedAt, id, o);
  }

  lemma NormalizeKeepsCounts(w: World, s: Policy, id: string)
    requires Inv(w, s) && id in w.rows && w.rows[id].stage == Stage.Error
    ensures var v := Normalized(w, id);
            && Creates(v.rows, v.h.log) && Retries(v.rows, v.h.attempt, v.h.failedAt, s)
            && Placements(v.rows, v.h.orderedAt, v.h.deniedAt, v.h.failedAt, v.now)
            && Activations(v.rows, v.managed, v.h.active, v.h.activatedAt)
            && Paces(v.rows, v.h.previous, v.h.attempt) && Trails(v.rows, v.h.trail)
            && GiveUps(v.rows, v.h.trail, v.h.saved) && RowsKept(w.rows, v.rows)
  {
    hide Moments, RowsOk, OneAtATime, Newest, Stages, Owners, Managements, Evidence, Records, Carriers, Markers,
      Creations, Holders, Snapshots, Saved, Creates, Orders, Retries, Placements, Activations, Paces, Trails, GiveUps,
      StageOk, EvidenceOk, MadeOk, PlacementOk;
    OpenInv(w, s);
    NormalizedRow(w, s, id);
    var o := Normalized(w, id).rows[id];
    RewriteKeepsCreates(w.rows, w.h.log, id, o);
    RewriteKeepsRetries(w.rows, w.h.attempt, w.h.failedAt, s, id, o);
    RewriteKeepsPlacements(w.rows, w.h.orderedAt, w.h.deniedAt, w.h.failedAt, w.now, id, o, w.h.failedAt, w.now);
    RewriteKeepsActivations(w.rows, w.managed, w.h.active, w.h.activatedAt, id, o);
    RewriteKeepsPaces(w.rows, w.h.previous, w.h.attempt, id, o);
    RewriteKeepsTrails(w.rows, w.h.trail, id, o);
    RewriteKeepsGiveUps(w.rows, w.h.trail, w.h.saved, id, o);
  }

  lemma NormalizeKeepsInv(w: World, s: Policy, id: string)
    requires Inv(w, s) && id in w.rows && w.rows[id].stage == Stage.Error
    ensures Inv(Normalized(w, id), s) && Later(w, Normalized(w, id))
  {
    hide Moments, RowsOk, OneAtATime, Newest, Stages, Owners, Managements, Evidence, Records, Carriers, Markers,
      Creations, Holders, Snapshots, Saved, Creates, Orders, Retries, Placements, Activations, Paces, Trails, GiveUps,
      RowsKept, TargetsKept, TrailsKept;
    OpenInv(w, s);
    LaterIsReflexive(w);
    NormalizeKeepsLog(w, s, id);
    NormalizeKeepsRecords(w, s, id);
    NormalizeKeepsCounts(w, s, id);
    CloseInv(Normalized(w, id), s);
  }

  // ---------------------------------------------------------------- activation

  function Promoted(w: World, id: string, reference: string, nextRenewalAt: int, now: int): World
    requires id in w.rows
  {
    var o := w.rows[id];
    w.(rows := w.rows[id := Activated(o, now)], now := now,
    managed := w.managed[o.ipv4 := ManagedRow(o, reference, nextRenewalAt, now)],
    h := w.h.(
    active := w.h.active[o.ipv4 := id], activatedAt := w.h.activatedAt[id := now],
    trail := if id in w.h.trail then w.h.trail[id := w.h.trail[id] + [Active]] else w.h.trail))
  }

  ghost predicate MayActivate(w: World, s: Policy, id: string, nextRenewalAt: int)
  {
    && id in w.rows && w.rows[id].stage == PolicyBound
    && nextRenewalAt == StoredRenewal(s, w.rows[id].ipv4, w.rows[id].expiresAt)
  }

  lemma SnapshotIsLast(w: World, s: Policy)
    requires Inv(w, s)
    ensures forall k <- w.snapshots :: k == w.h.last
  {
    hide Moments, RowsOk, OneAtATime, Newest, Stages, Owners, Managements, Evidence, Records, Carriers, Markers,
      Creations, Holders, Saved, Creates, Orders, Retries, Placements, Activations, Paces, Trails, GiveUps,
      SnapshotMatches, SnapshotSafe, SnapshotSide;
    OpenInv(w, s);
    forall k | k in w.snapshots
      ensures k == w.h.last
    {
      assert SnapshotOk(w.rows, w.h.active, w.certs, w.h.carrier, w.h.last, k, w.snapshots[k]);
    }
  }

  /** What activation needs of its operation: it is the newest, its record carries its certificate, and no
      snapshot is left. */
  lemma BoundRow(w: World, s: Policy, id: string)
    requires Inv(w, s) && id in w.rows && w.rows[id].stage == PolicyBound
    ensures w.snapshots == map[] && id == w.h.last && w.rows[id].certID > 0
    ensures w.rows[id].certID in w.h.carrier && w.h.carrier[w.rows[id].certID] == id
    ensures w.rows[id].kind == Issue <==> w.rows[id].ipv4 !in w.managed
    ensures w.rows[id].ipv4 in w.managed ==> SameTarget(w.managed[w.rows[id].ipv4], w.rows[id])
  {
    hide Moments, RowsOk, OneAtATime, Newest, Stages, Owners, Evidence, Records, Carriers, Markers, Creations, Holders,
      Snapshots, Saved, Creates, Orders, Retries, Placements, Activations, Paces, Trails, GiveUps, RowOk, EvidenceOk,
      TrailOk, Before, StoredRenewal, CarriesActive;
    OpenInv(w, s);
    RowFacts(w, s, id);
    SnapshotIsLast(w, s);
    assert w.snapshots.Keys == {};
    if w.rows[id].ipv4 in w.managed {
      assert ManagedOk(w.rows, w.h.active, s, w.rows[id].ipv4, w.managed[w.rows[id].ipv4]);
    }
  }

  lemma PromoteKeepsStages(w: World, s: Policy, id: string, o: Operation, m: ManagedCert)
    requires Stages(w.rows, w.managed) && OneAtATime(w.rows, w.h.last) && id in w.rows && id == w.h.last
    requires o.ipv4 == w.rows[id].ipv4 && SameTarget(m, o) && StageOk(w.managed[o.ipv4 := m], o)
    requires o.ipv4 in w.managed ==> SameTarget(w.managed[o.ipv4], o)
    ensures Stages(w.rows[id := o], w.managed[o.ipv4 := m])
  {
    forall k | k in w.rows && k != id
      ensures StageOk(w.managed[o.ipv4 := m], w.rows[k])
    {
      assert StageOk(w.managed, w.rows[k]) && Before(w.rows[k], w.rows[id]);
    }
  }

  lemma PromoteKeepsManagements(w: World, s: Policy, id: string, o: Operation, m: ManagedCert)
    requires Managements(w.rows, w.managed, w.h.active, s) && OneAtATime(w.rows, w.h.last)
    requires id in w.rows && id == w.h.last && w.rows[id].stage == PolicyBound && Kept(w.rows[id], o)
    requires o.stage == Active && SameTarget(m, o) && m.ipv4 == o.ipv4 && m.certID > 0 && m.expiresAt == o.expiresAt
    requires m.nextRenewalAt == StoredRenewal(s, o.ipv4, o.expiresAt)
    ensures Managements(w.rows[id := o], w.managed[o.ipv4 := m], w.h.active[o.ipv4 := id], s)
  {
    hide StoredRenewal;
    var rows, active := w.rows[id := o], w.h.active[o.ipv4 := id];
    forall ip | ip in w.managed && ip != o.ipv4
      ensures ManagedOk(rows, active, s, ip, w.managed[ip])
    {
      assert ManagedOk(w.rows, w.h.active, s, ip, w.managed[ip]);
    }
    forall k | k in rows && rows[k].stage == Active && rows[k].ipv4 in active && active[rows[k].ipv4] in rows
      ensures rows[k].createdAt <= rows[active[rows[k].ipv4]].createdAt
    {
      assert k == id || Before(w.rows[k], w.rows[id]);
    }
  }

  lemma PromoteKeepsHolders(w: World, s: Policy, id: string, o: Operation, m: ManagedCert)
    requires Holders(w.rows, w.managed, w.h.active, w.h.carrier, map[]) && id in w.rows && Kept(w.rows[id], o)
    requires o.stage == Active && m.certID == o.certID == w.rows[id].certID
    requires o.certID in w.h.carrier && w.h.carrier[o.certID] == id
    ensures Holders(w.rows[id := o], w.managed[o.ipv4 := m], w.h.active[o.ipv4 := id], w.h.carrier, map[])
  {
    var rows, managed, active := w.rows[id := o], w.managed[o.ipv4 := m], w.h.active[o.ipv4 := id];
    forall ip | ip in managed
      ensures HolderOk(rows, active, w.h.carrier, map[], ip, managed[ip].certID)
    {
      if ip != o.ipv4 {
        assert HolderOk(w.rows, w.h.active, w.h.carrier, map[], ip, w.managed[ip].certID);
      }
    }
  }

  lemma PromoteKeepsActivations(w: World, id: string, reference: string, nextRenewalAt: int, now: int)
    requires Activations(w.rows, w.managed, w.h.active, w.h.activatedAt) && id in w.rows
    requires w.rows[id].stage == PolicyBound && w.rows[id].createdAt <= now
    requires forall ip <- w.managed :: ip in w.h.active && w.h.active[ip] != id
    ensures var v := Promoted(w, id, reference, nextRenewalAt, now);
            Activations(v.rows, v.managed, v.h.active, v.h.activatedAt)
  {
  }

  lemma ActiveIsOther(w: World, s: Policy, id: string)
    requires Inv(w, s) && id in w.rows && w.rows[id].stage == PolicyBound
    ensures forall ip <- w.managed :: ip in w.h.active && w.h.active[ip] != id
    ensures w.rows[id].createdAt <= w.now
  {
    hide Moments, OneAtATime, Newest, Stages, Owners, Evidence, Records, Carriers, Markers, Creations, Holders,
      Snapshots, Saved, Creates, Orders, Retries, Placements, Activations, Paces, Trails, GiveUps, StoredRenewal;
    OpenInv(w, s);
    RowTimes(w.rows, w.now, id);
    forall ip | ip in w.managed
      ensures ip in w.h.active && w.h.active[ip] != id
    {
      assert ManagedOk(w.rows, w.h.active, s, ip, w.managed[ip]);
    }
  }

  lemma PromotedRow(w: World, s: Policy, id: string, reference: string, nextRenewalAt: int, now: int)
    requires Inv(w, s) && MayActivate(w, s, id, nextRenewalAt) && now > w.now
    ensures var o := Activated(w.rows[id], now);
            var m := ManagedRow(w.rows[id], reference, nextRenewalAt, now);
            && Kept(w.rows[id], o) && o.createdAt == w.rows[id].createdAt && o.updatedAt == now && o.stage == Active
            && o.kind == w.rows[id].kind
            && o.ipv4 == w.rows[id].ipv4 && o.certID == w.rows[id].certID
            && o.certFingerprint == w.rows[id].certFingerprint
            && o.retryCount == w.rows[id].retryCount && o.nextRetryAt == w.rows[id].nextRetryAt
            && o.expiresAt == w.rows[id].expiresAt
            && StageOk(w.managed[o.ipv4 := m], o) && EvidenceOk(w.h.log, o)
            && (o.kind == Issue ==> MadeOk(w.h.made, w.h.carrier, id, o))
            && PlacementOk(w.h.orderedAt, w.h.deniedAt, w.h.failedAt, now, id, o)
            && SameTarget(m, o) && m.ipv4 == o.ipv4 && m.expiresAt == o.expiresAt && m.certID == o.certID
            && m.nextRenewalAt == nextRenewalAt
  {
    hide Moments, RowsOk, OneAtATime, Newest, Stages, Owners, Managements, Evidence, Records, Carriers, Markers,
      Creations, Holders, Snapshots, Saved, Creates, Orders, Retries, Placements, Activations, Paces, Trails, GiveUps,
      TrailOk, Before, StoredRenewal, CarriesActive, Marker, IsOperationID;
    OpenInv(w, s);
    PlacementFacts(w, s, id);
    RowFacts(w, s, id);
  }

  lemma PromoteKeepsLog(w: World, s: Policy, id: string, reference: string, nextRenewalAt: int, now: int)
    requires Inv(w, s) && MayActivate(w, s, id, nextRenewalAt) && now > w.now
    ensures var v := Promoted(w, id, reference, nextRenewalAt, now);
            && RowsOk(v.rows, v.now) && OneAtATime(v.rows, v.h.last) && Newest(v.rows, v.h.latest)
            && Moments(v.rows, v.h.moment)
            && Stages(v.rows, v.managed) && Owners(v.rows, v.h.owner, v.issued)
            && Managements(v.rows, v.managed, v.h.active, s)
            && Evidence(v.rows, v.h.log) && Orders(v.managed, v.h.latest, v.h.log)
            && RowsKept(w.rows, v.rows) && TargetsKept(w.managed, v.managed)
  {
    hide Moments, RowsOk, OneAtATime, Newest, Stages, Owners, Managements, Evidence, Records, Carriers, Markers,
      Creations, Holders, Snapshots, Saved, Creates, Retries, Placements, Activations, Paces, Trails, GiveUps, StageOk,
      EvidenceOk, MadeOk, PlacementOk, StoredRenewal;
    OpenInv(w, s);
    PromotedRow(w, s, id, reference, nextRenewalAt, now);
    BoundRow(w, s, id);
    LastIsLatest(w.rows, w.h.latest, w.h.last);
    var o, m := Activated(w.rows[id], now), ManagedRow(w.rows[id], reference, nextRenewalAt, now);
    RewriteKeepsRowsOk(w.rows, w.now, id, o, now);
    RewriteKeepsOneAtATime(w.rows, w.h.last, id, o);
    RewriteKeepsNewest(w.rows, w.h.latest, id, o);
    RewriteKeepsMoments(w.rows, w.h.moment, id, o);
    RewriteKeepsOwners(w.rows, w.h.owner, w.issued, id, o);
    RewriteKeepsEvidence(w.rows, w.h.log, id, o);
    PromoteKeepsStages(w, s, id, o, m);
    PromoteKeepsManagements(w, s, id, o, m);
  }

  lemma PromoteKeepsRest(w: World, s: Policy, id: string, reference: string, nextRenewalAt: int, now: int)
    requires Inv(w, s) && MayActivate(w, s, id, nextRenewalAt) && now > w.now
    ensures var v := Promoted(w, id, reference, nextRenewalAt, now);
            && Carriers(v.certs, v.rows, v.h.made, v.h.carrier) && Markers(v.certs, v.rows, v.h.made, v.h.marks)
            && Creations(v.rows, v.h.made, v.h.carrier)
            && Holders(v.rows, v.managed, v.h.active, v.h.carrier, v.snapshots)
            && Snapshots(v.rows, v.h.active, v.certs, v.h.carrier, v.h.last, v.snapshots)
            && Saved(v.rows, v.h.log, v.snapshots, v.h.saved, v.h.savedAt) && SavedInPast(v.h.savedAt, v.now)
            && Creates(v.rows, v.h.log) && Retries(v.rows, v.h.attempt, v.h.failedAt, s)
            && Placements(v.rows, v.h.orderedAt, v.h.deniedAt, v.h.failedAt, v.now)
            && Activations(v.rows, v.managed, v.h.active, v.h.activatedAt)
            && Paces(v.rows, v.h.previous, v.h.attempt) && Trails(v.rows, v.h.trail)
            && GiveUps(v.rows, v.h.trail, v.h.saved) && TrailsKept(w.h.trail, v.h.trail)
  {
    hide Moments, RowsOk, OneAtATime, Newest, Stages, Owners, Managements, Evidence, Records, Carriers, Markers,
      Creations, Holders, Saved, Creates, Orders, Retries, Placements, Activations, Paces, GiveUps, StageOk, EvidenceOk,
      MadeOk, PlacementOk, StoredRenewal, TrailOk, TrailsKept;
    OpenInv(w, s);
    PromotedRow(w, s, id, reference, nextRenewalAt, now);
    BoundRow(w, s, id);
    NothingFollowsLast(w.rows, w.h.previous, w.h.attempt, w.h.last);
    var o, m := Activated(w.rows[id], now), ManagedRow(w.rows[id], reference, nextRenewalAt, now);
    hide Kept;
    RewriteKeepsCarriers(w.certs, w.rows, w.h.made, w.h.carrier, id, o);
    RewriteKeepsMarkers(w.certs, w.rows, w.h.made, w.h.marks, id, o);
    RewriteKeepsCreations(w.rows, w.h.made, w.h.carrier, id, o);
    RewriteKeepsSaved(w.rows, w.h.log, w.snapshots, w.h.saved, w.h.savedAt, id, o);
    RewriteKeepsCreates(w.rows, w.h.log, id, o);
    RewriteKeepsRetries(w.rows, w.h.attempt, w.h.failedAt, s, id, o);
    RewriteKeepsPlacements(w.rows, w.h.orderedAt, w.h.deniedAt, w.h.failedAt, w.now, id, o, w.h.failedAt, now);
    ActiveIsOther(w, s, id);
    PromoteKeepsActivations(w, id, reference, nextRenewalAt, now);
    RewriteKeepsPaces(w.rows, w.h.previous, w.h.attempt, id, o);
    AdvanceKeepsTrails(w.rows, w.h.trail, id, o);
    AdvanceKeepsGiveUps(w.rows, w.h.trail, w.h.saved, id, o);
    PromoteKeepsHolders(w, s, id, o, m);
  }

  /** Activation keeps the invariant, and the managed row keeps its target. */
  lemma PromoteKeepsInv(w: World, s: Policy, id: string, reference: string, nextRenewalAt: int, now: int)
    requires Inv(w, s) && MayActivate(w, s, id, nextRenewalAt) && now > w.now
    ensures Inv(Promoted(w, id, reference, nextRenewalAt, now), s)
    ensures Later(w, Promoted(w, id, reference, nextRenewalAt, now))
  {
    hide Moments, RowsOk, OneAtATime, Newest, Stages, Owners, Managements, Evidence, Records, Carriers, Markers,
      Creations, Holders, Snapshots, Saved, Creates, Orders, Retries, Placements, Activations, Paces, Trails, GiveUps,
      RowsKept, TargetsKept, TrailsKept;
    OpenInv(w, s);
    PromoteKeepsLog(w, s, id, reference, nextRenewalAt, now);
    PromoteKeepsRest(w, s, id, reference, nextRenewalAt, now);
    CloseInv(Promoted(w, id, reference, nextRenewalAt, now), s);
  }
}
