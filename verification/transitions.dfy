/** Why each step of the runner is allowed: what a read, a marker hit or a TLS check lets it conclude. */
module Transitions {
  import opened Outcomes
  import opened Operations
  import opened GoEdge
  import opened Rollback
  import opened Scheduler
  import opened Lifecycle
  import opened LifecycleSteps
  import opened LifecycleWorld
  import opened LifecycleOrders
  import opened LifecycleEdge
  import opened LifecycleTheorems
  import opened Issuance
  import opened Scope

  /** The record of an operation that has one: it is the one the operation carries, and TLS can see it. */
  lemma CarrierServes(w: World, s: Policy, c: int, id: string)
    requires Inv(w, s) && c in w.h.carrier && w.h.carrier[c] == id
    ensures c in w.certs && id in w.rows && Carries(w.certs[c], w.rows[id]) && w.certs[c].id == c && c > 0
    ensures Serves(w.certs, w.rows[id].ipv4, w.rows[id].certFingerprint)
  {
    hide Moments, RowsOk, OneAtATime, Newest, Stages, Owners, Managements, Evidence, Markers, Creations, Holders,
      Snapshots, Saved, Creates, Orders, Retries, Placements, Activations, Paces, Trails;
    OpenInv(w, s);
    assert CarrierOk(w.certs, w.rows, w.h.made, c, id);
  }

  /** TLS shows the leaf of an operation: some record carries that operation, and only its own record can. */
  lemma ServedBy(w: World, s: Policy, ip: string, id: string)
    requires Inv(w, s) && id in w.rows && w.rows[id].certFingerprint != ""
    requires w.rows[id].kind == Renew || HasCertificate(w.rows[id].stage)
    requires Serves(w.certs, ip, w.rows[id].certFingerprint)
    ensures w.rows[id].certID in w.h.carrier && w.h.carrier[w.rows[id].certID] == id
  {
    hide Moments, RowsOk, OneAtATime, Newest, Stages, Managements, Evidence, Markers, Holders, Snapshots, Saved,
      Creates, Orders, Retries, Placements, Activations, Paces, Trails, Carries;
    OpenInv(w, s);
    var f := w.rows[id].certFingerprint;
    var c :| c in w.certs && w.certs[c].dnsNames == [ip] && Fingerprint(w.certs[c].certData) == f;
    assert w.h.owner[f] == id;
    assert w.h.carrier[c] == id;
    assert CarrierOk(w.certs, w.rows, w.h.made, c, id);
    assert w.rows[id].kind == Issue ==> MadeOk(w.h.made, w.h.carrier, id, w.rows[id]);
  }

  /** The record that bears an issue operation's marker is the one it created, and carries it while it is in flight. */
  lemma MarkerHit(w: World, s: Policy, id: string, c: int)
    requires Inv(w, s) && id in w.rows && w.rows[id].kind == Issue && Inflight(w.rows[id].stage)
    requires c in w.certs && w.certs[c].name == w.rows[id].marker
    ensures id in w.h.made && w.h.made[id] == c && c in w.h.carrier && w.h.carrier[c] == id && w.certs[c].id == c
  {
    hide Moments, RowsOk, OneAtATime, Newest, Stages, Owners, Managements, Evidence, Carriers, Holders, Snapshots,
      Saved, Creates, Orders, Retries, Placements, Activations, Paces, Trails;
    OpenInv(w, s);
    assert MadeOk(w.h.made, w.h.carrier, id, w.rows[id]);
  }

  lemma MarkerMiss(w: World, s: Policy, id: string)
    requires Inv(w, s) && id in w.rows && w.rows[id].kind == Issue
    requires forall c <- w.certs :: w.certs[c].name != w.rows[id].marker
    ensures id !in w.h.made
  {
    hide Moments, RowsOk, OneAtATime, Newest, Stages, Owners, Managements, Evidence, Carriers, Creations, Holders,
      Snapshots, Saved, Creates, Orders, Retries, Placements, Activations, Paces, Trails;
    OpenInv(w, s);
    var m := w.rows[id].marker;
    var certs := w.certs;
    assert forall c <- certs :: certs[c].name != m;
  }

  lemma MarkerIsSole(w: World, s: Policy, id: string, c: int, d: int)
    requires Inv(w, s) && id in w.rows && w.rows[id].kind == Issue
    requires c in w.certs && d in w.certs && w.certs[c].name == w.certs[d].name == w.rows[id].marker
    ensures c == d
  {
    hide Moments, RowsOk, OneAtATime, Newest, Stages, Owners, Managements, Evidence, Carriers, Creations, Holders,
      Snapshots, Saved, Creates, Orders, Retries, Placements, Activations, Paces, Trails;
    OpenInv(w, s);
  }

  /** An operation whose key is lost can only be ordered again: nothing of it has reached GoEdge. */
  ghost predicate Reissuable(w: World, id: string)
  {
    && id in w.rows && w.rows[id].stage == CertIssued
    && (w.rows[id].kind == Issue ==> id !in w.h.made)
    && (w.rows[id].kind == Renew ==> CarriesActive(w, w.rows[id]))
  }

  /** A renewal whose old certificate is back in its record, under the snapshot that brought it back. */
  ghost predicate RolledBack(w: World, id: string)
  {
    && id in w.rows && id in w.snapshots && w.rows[id].kind == Renew && w.rows[id].stage in {CertIssued, CertCreated}
    && CarriesActive(w, w.rows[id])
  }

  lemma TimeKeepsReason(w: World, id: string, now: int)
    requires Reissuable(w, id) || RolledBack(w, id)
    ensures Reissuable(w.(now := now), id) || RolledBack(w.(now := now), id)
  {
  }

  lemma ReissuableSurvivesLog(w: World, id: string, e: Event)
    requires Reissuable(w, id)
    ensures Reissuable(Logged(w, e), id)
    ensures w.rows[id].kind == Issue ==> w.h.log[CreateCalled(id)] == 0 ==> MayLog(w, CreateCalled(id))
  {
  }

  lemma ReasonRow(w: World, s: Policy, id: string)
    requires Inv(w, s) && (Reissuable(w, id) || RolledBack(w, id))
    ensures id in w.rows && w.rows[id].retryCount == 0 && w.rows[id].id == id
  {
    hide Inv;
    InflightRow(w, s, id);
  }

  lemma MayReschedule(w: World, s: Policy, id: string, patch: Patch)
    requires Inv(w, s) && (Reissuable(w, id) || RolledBack(w, id))
    requires patch.SetFailureWithRetry? && patch.retryCount == 1 && patch.nextRetryAt == StoredRetry(s, 0, w.now)
    requires patch.message != ORDER_FAILED
    ensures MayMove(w, s, id, Stage.Error, patch, w.now)
  {
    hide Inv;
    InflightRow(w, s, id);
    if w.rows[id].kind == Renew {
      RenewalMakesNothing(w, s, id);
    }
  }

  /** In-flight operations are the newest of all, and their backoff counter is zero. */
  lemma InflightRow(w: World, s: Policy, id: string)
    requires Inv(w, s) && id in w.rows && Inflight(w.rows[id].stage)
    ensures id == w.h.last && w.rows[id].retryCount == 0 && w.rows[id].nextRetryAt == 0 && w.rows[id].updatedAt <= w.now
            && w.rows[id].certID >= 0
    ensures w.rows[id].kind == Renew ==>
            w.rows[id].ipv4 in w.managed && w.managed[w.rows[id].ipv4].certID == w.rows[id].certID
    ensures w.rows[id].stage in {New, Renewing, ChallengePresent, CertIssued, CertCreated, PolicyBound}
    ensures w.rows[id].certFingerprint != "" <==> w.rows[id].stage in {CertIssued, CertCreated, PolicyBound}
    ensures w.rows[id].ipv4 in w.h.latest && w.rows[id].id == id
    ensures w.rows[id].kind == Issue && w.rows[id].stage == CertIssued ==> w.rows[id].certID == 0
    ensures w.rows[id].stage in {New, Renewing} ==>
            w.rows[id].stage == (if w.rows[id].kind == Issue then New else Renewing)
  {
    hide Moments, Owners, Managements, Evidence, Records, Carriers, Markers, Creations, Holders, Snapshots, Saved,
      Creates, Orders, Retries, Placements, Activations, Paces, Trails, Marker, IsOperationID;
    OpenInv(w, s);
    assert RowOk(id, w.rows[id], w.now) && StageOk(w.managed, w.rows[id]);
  }

  /** The managed record exists and may be managed; a renewal's record is the managed one. */
  lemma ManagedRecord(w: World, s: Policy, ip: string)
    requires Inv(w, s) && ip in w.managed
    ensures var c := w.managed[ip].certID;
            && c in w.certs && c in w.h.carrier && Manageable(w.certs[c], ip) && c > 0
            && w.managed[ip].ipv4 == ip != ""
  {
    hide Moments, OneAtATime, Newest, Stages, Owners, Evidence, Markers, Creations, Snapshots, Saved, Creates, Orders,
      Retries, Placements, Activations, Paces, Trails, StoredRenewal, Marker, IsOperationID;
    OpenInv(w, s);
    var c := w.managed[ip].certID;
    assert ManagedOk(w.rows, w.h.active, s, ip, w.managed[ip]);
    assert RowOk(w.h.active[ip], w.rows[w.h.active[ip]], w.now);
    assert HolderOk(w.rows, w.h.active, w.h.carrier, w.snapshots, ip, c);
    assert CarrierOk(w.certs, w.rows, w.h.made, c, w.h.carrier[c]);
  }

  /** A bound certificate carries its own operation once no snapshot is left. */
  lemma CreatedRow(w: World, s: Policy, id: string)
    requires Inv(w, s) && w.snapshots == map[] && id in w.rows && w.rows[id].stage == CertCreated
    ensures w.rows[id].certID in w.h.carrier && w.h.carrier[w.rows[id].certID] == id
    ensures w.rows[id].kind == Renew ==>
              ShownDuring(w.h.log, w.rows[id].ipv4, w.rows[id].certFingerprint, w.rows[id].createdAt, w.now)
  {
    hide Inv;
    RowFacts(w, s, id);
  }

  /** The leaf of a renewal that has not reached GoEdge differs from the one in the record. */
  lemma StillActive(w: World, s: Policy, id: string)
    requires Inv(w, s) && w.snapshots == map[] && id in w.rows && w.rows[id].kind == Renew
             && w.rows[id].stage == CertIssued
    ensures Reissuable(w, id) && w.rows[id].certID in w.certs
    ensures Fingerprint(w.certs[w.rows[id].certID].certData) != w.rows[id].certFingerprint
  {
    hide Moments, RowsOk, OneAtATime, Newest, Stages, Managements, Evidence, Records, Carriers, Markers, Creations,
      Holders, Snapshots, Saved, Creates, Orders, Retries, Placements, Activations, Paces, Trails;
    OpenInv(w, s);
    UntouchedRecord(w, s, id);
  }

  /** A renewal operation never creates a record. */
  lemma RenewalMakesNothing(w: World, s: Policy, id: string)
    requires Inv(w, s) && id in w.rows && w.rows[id].kind == Renew
    ensures id !in w.h.made
  {
    hide Moments, RowsOk, OneAtATime, Newest, Stages, Owners, Managements, Evidence, Records, Carriers, Creations,
      Holders, Snapshots, Saved, Creates, Orders, Retries, Placements, Activations, Paces, Trails;
    OpenInv(w, s);
  }

  /** After recovery nothing is in flight once the newest operation is over. */
  lemma LastIsOver(w: World, s: Policy)
    requires Inv(w, s) && w.snapshots == map[] && w.h.last in w.rows && !Inflight(w.rows[w.h.last].stage)
    ensures Settled(w)
  {
    hide Moments, RowsOk, Newest, Stages, Owners, Managements, Evidence, Records, Carriers, Markers, Creations, Holders,
      Snapshots, Saved, Creates, Orders, Retries, Placements, Activations, Paces, Trails;
    OpenInv(w, s);
  }

  /** The input built from verified material carries the operation's certificate. */
  predicate Material(o: Operation, v: Verified)
  {
    && o.certFingerprint != "" && v.certPEM == Leaf(o.certFingerprint) && Unix(v.notAfter) == o.expiresAt
    && v.dnsNames == [o.ipv4] && v.keyPEM != ""
  }

  /** `inputForOperation`. */
  function InputForOperation(o: Operation, previous: CertificateConfig, v: Verified): CertificateInput
  {
    CertificateInput(o.certID, o.userID, previous.isOn, previous.name, previous.description, previous.serverName, false,
                     v.certPEM, v.keyPEM, Unix(v.notBefore), Unix(v.notAfter), v.dnsNames, v.commonNames)
  }

  /** The record holds exactly this certificate, key and names, and its times in whole seconds. */
  predicate HoldsMaterial(cert: CertificateConfig, v: Verified)
  {
    && cert.certData == v.certPEM && cert.keyData == v.keyPEM && cert.dnsNames == v.dnsNames
    && cert.commonNames == v.commonNames
    && cert.timeBeginAt * SECOND <= v.notBefore < (cert.timeBeginAt + 1) * SECOND
    && cert.timeEndAt * SECOND <= v.notAfter < (cert.timeEndAt + 1) * SECOND
  }

  /** The record of a first certificate: switched on, named by its marker, with the material and nothing else. */
  predicate IssuedRecord(cert: CertificateConfig, marker: string, v: Verified)
  {
    && cert.isOn && cert.name == marker && cert.description == "" && cert.serverName == "" && !cert.isCA && !cert.isACME
    && HoldsMaterial(cert, v)
  }

  /** The record of a renewed certificate: the material, and everything the administrator set as it was. */
  predicate RenewedRecord(cert: CertificateConfig, current: CertificateConfig, v: Verified)
  {
    && cert.id == current.id && cert.isOn == current.isOn && cert.name == current.name
    && cert.description == current.description && cert.serverName == current.serverName && !cert.isCA
    && cert.isACME == current.isACME
    && HoldsMaterial(cert, v)
  }

  /** The input of an operation carries its verified material, for the user of its server; what a record that repeats it
      then says is what the renewed or the first certificate has to say. */
  lemma InputIsExact(o: Operation, previous: CertificateConfig, v: Verified, cert: CertificateConfig, id: int,
                     isACME: bool)
    requires Repeats(cert, InputForOperation(o, previous, v), id, isACME)
    ensures HoldsMaterial(cert, v) && InputForOperation(o, previous, v).userID == o.userID
    ensures Material(o, v) && !isACME ==> Carries(cert, o)
    ensures previous.id == id && previous.isACME == isACME ==> RenewedRecord(cert, previous, v)
    ensures previous.isOn && previous.name == o.marker && previous.description == previous.serverName == ""
            && !isACME ==>
              IssuedRecord(cert, o.marker, v)
  {
  }

  /** A renewal changes the certificate of its record and none of the administrator's settings. */
  lemma RenewalKeepsSettings(o: Operation, previous: CertificateConfig, v: Verified)
    requires Material(o, v) && previous.id == o.certID && Manageable(previous, o.ipv4)
    ensures var renewed := Stored(InputForOperation(o, previous, v), previous.isACME);
            && renewed.(certData := previous.certData, keyData := previous.keyData, timeBeginAt := previous.timeBeginAt,
                        timeEndAt := previous.timeEndAt, commonNames := previous.commonNames) == previous
            && renewed.certData == Leaf(o.certFingerprint) && renewed.timeEndAt == o.expiresAt
            && RenewedRecord(renewed, previous, v)
  {
  }

  /** The snapshot of a renewal: its own identifiers, both fingerprints, and the record as it was found. */
  predicate SavesOld(sn: Snapshot, o: Operation, current: CertificateConfig)
  {
    && sn.version == 1 && sn.operationID == o.id && sn.ipv4 == o.ipv4 && sn.certID == current.id
    && sn.newFingerprint == o.certFingerprint
    && (current.certData.Leaf? ==> sn.oldFingerprint == current.certData.fingerprint)
    && Repeats(current, sn.previous, sn.previous.id, current.isACME) && sn.previous.id == current.id
  }

  lemma InputIsForRecord(o: Operation, previous: CertificateConfig, v: Verified)
    ensures InputForOperation(o, previous, v).id == o.certID
  {
  }

  lemma MaterialCarries(o: Operation, previous: CertificateConfig, v: Verified, id: int)
    requires Material(o, v)
    ensures InputCarries(InputForOperation(o, previous, v), o)
    ensures InputCarries(InputForOperation(o, previous, v).(id := id), o)
  {
  }

  /** A leaf shown just now was shown since the operation began, and since its snapshot was published. */
  lemma ShownNow(w: World, s: Policy, id: string, fingerprint: string)
    requires Inv(w, s) && id in w.rows && TlsSeen(w.rows[id].ipv4, fingerprint, w.now) in w.h.log
    ensures ShownDuring(w.h.log, w.rows[id].ipv4, fingerprint, w.rows[id].createdAt, w.now)
    ensures id in w.snapshots ==>
            id in w.h.savedAt && ShownSince(w.h.log, w.rows[id].ipv4, fingerprint, w.h.savedAt[id])
  {
    hide Moments, OneAtATime, Newest, Stages, Owners, Managements, Evidence, Records, Carriers, Markers, Creations,
      Holders, Snapshots, Creates, Orders, Retries, Placements, Activations, Paces, Trails, GiveUps, SavedOk;
    OpenInv(w, s);
    RowTimes(w.rows, w.now, id);
  }

  /** A check made by now, after the operation was last written, lies within the life of the operation. */
  lemma BoundInLife(w: World, s: Policy, id: string, p: int, c: int, from: int)
    requires Inv(w, s) && id in w.rows && BoundDuring(w.h.log, p, c, from, w.now) && w.rows[id].updatedAt <= from
    ensures BoundDuring(w.h.log, p, c, w.rows[id].createdAt, w.now)
  {
    hide Moments, OneAtATime, Newest, Stages, Owners, Managements, Evidence, Records, Carriers, Markers, Creations,
      Holders, Snapshots, Creates, Orders, Retries, Placements, Activations, Paces, Trails, GiveUps, SavedOk;
    OpenInv(w, s);
    RowTimes(w.rows, w.now, id);
  }

  lemma ShownInLife(w: World, s: Policy, id: string, ip: string, fingerprint: string, from: int)
    requires Inv(w, s) && id in w.rows && ShownDuring(w.h.log, ip, fingerprint, from, w.now)
             && w.rows[id].updatedAt <= from
    ensures ShownDuring(w.h.log, ip, fingerprint, w.rows[id].createdAt, w.now)
  {
    hide Moments, OneAtATime, Newest, Stages, Owners, Managements, Evidence, Records, Carriers, Markers, Creations,
      Holders, Snapshots, Creates, Orders, Retries, Placements, Activations, Paces, Trails, GiveUps, SavedOk;
    OpenInv(w, s);
    RowTimes(w.rows, w.now, id);
  }

  // ---------------------------------------------------------------- under a snapshot

  /** What a snapshot says of its operation, its record and the active operation. */
  lemma SnapshotFacts(w: World, s: Policy, id: string)
    requires Inv(w, s) && id in w.snapshots
    ensures var sn := w.snapshots[id];
            && id in w.rows && w.rows[id].kind == Renew && w.rows[id].stage in {CertIssued, CertCreated, Stage.Error}
            && sn.operationID == id && IsOperationID(id) && sn.ipv4 == w.rows[id].ipv4 && sn.certID == w.rows[id].certID
            && sn.newFingerprint == w.rows[id].certFingerprint != "" && sn.oldFingerprint != ""
            && sn.ipv4 in w.managed && w.rows[id].id == id && w.rows[id].certID in w.certs
            && sn.ipv4 in w.h.active && MayPut(w, id, sn.previous, w.h.active[sn.ipv4])
            && w.h.active[sn.ipv4] in w.rows && w.rows[w.h.active[sn.ipv4]].certFingerprint == sn.oldFingerprint
            && w.rows[w.h.active[sn.ipv4]].stage == Active && w.rows[w.h.active[sn.ipv4]].certID == sn.certID
            && sn.previous.certData == Leaf(sn.oldFingerprint) && sn.previous.dnsNames == [sn.ipv4]
            && sn.previous.id == sn.certID
  {
    SnapshotRow(w, s, id);
    RowFacts(w, s, id);
    hide Inv;
  }

  /** Recovery has taken the side that TLS showed: the new certificate, or, after a check that missed it, the
      old one. */
  ghost predicate Sided(w: World, id: string, sn: Snapshot, stage: Stage, from: int)
  {
    && id in w.rows
    && (|| (w.rows[id].stage == stage && ShownDuring(w.h.log, sn.ipv4, sn.newFingerprint, from, w.now))
        || (w.rows[id].stage == Stage.Error && MissedDuring(w.h.log, sn.ipv4, sn.newFingerprint, from, w.now)
            && ShownDuring(w.h.log, sn.ipv4, sn.oldFingerprint, from, w.now)))
  }

  /** The record already holds the new certificate of the snapshot. */
  predicate HoldsNew(certs: map<int, CertificateConfig>, sn: Snapshot)
  {
    sn.certID in certs && Fingerprint(certs[sn.certID].certData) == sn.newFingerprint
  }

  /** Where a recovery without failures ends: on the side the record is on. */
  predicate CalmSide(rows: Rows, id: string, holdsNew: bool, stage: Stage)
  {
    && id in rows
    && if holdsNew then rows[id].stage == stage else rows[id].stage == Stage.Error && rows[id].retryCount == 1
  }

  /** How recovery without a key ends an operation, by its stage: given up without a backoff before a leaf was stored;
      activated, or given up with the first backoff, while the leaf may not have reached GoEdge; activated
      after that. */
  predicate EndsAs(o: Operation, ended: Operation)
  {
    match o.stage
    case New | Renewing | ChallengePresent => ended.stage == Stage.Error && RetryOf(ended) == RetryInfo(0, 0)
    case CertIssued => ended.stage == Active || (ended.stage == Stage.Error && ended.retryCount == 1)
    case CertCreated | PolicyBound => ended.stage == Active
    case _ => true
  }

  ghost predicate Recovered(before: Rows, after: Rows)
  {
    forall id <- before :: id in after && EndsAs(before[id], after[id])
  }

  /** Only the newest operation can be in flight, so its ending is the whole recovery. */
  lemma OneRecovered(w: World, s: Policy, v: World, op: Operation)
    requires Inv(w, s) && Within(w, v, Frozen) && op.id in w.rows && w.rows[op.id] == op && Inflight(op.stage)
    requires op.id in v.rows && EndsAs(op, v.rows[op.id])
    ensures Recovered(w.rows, v.rows)
  {
    hide Inv, Later, SameEdge, SameCounts;
    InflightRow(w, s, op.id);
    forall id | id in w.rows && id != op.id
      ensures !Inflight(w.rows[id].stage)
    {
      if Inflight(w.rows[id].stage) {
        InflightRow(w, s, id);
      }
    }
  }

  /** A snapshot belongs to the newest operation, so without one of its own an operation is over, or recovery began
      with its row as it was. */
  lemma RowsRecovered(before: World, s: Policy, w: World, v: World)
    requires Inv(before, s) && Within(before, v, Restore) && Recovered(w.rows, v.rows)
    requires before.snapshots == map[] ==> w.rows == before.rows
    ensures forall id <- before.rows ::
              id in before.snapshots || (id in v.rows && EndsAs(before.rows[id], v.rows[id]))
  {
    hide Inv, Later, SameEdge, SameCounts;
    if before.snapshots != map[] {
      SnapshotIsLast(before, s);
      forall id | id in before.rows && id !in before.snapshots
        ensures !Inflight(before.rows[id].stage)
      {
        if Inflight(before.rows[id].stage) {
          InflightRow(before, s, id);
        }
      }
    }
  }

  lemma StillSettled(w: World, v: World)
    requires Settled(w) && v.rows == w.rows && v.snapshots in {map[], w.snapshots}
    ensures Settled(v)
  {
  }

  lemma SidedSince(w: World, id: string, sn: Snapshot, stage: Stage, from: int, later: int)
    requires Sided(w, id, sn, stage, later) && from <= later
    ensures Sided(w, id, sn, stage, from)
  {
  }

  lemma AllSidedSince(w: World, snapshots: map<string, Snapshot>, stage: Stage, from: int, later: int)
    requires (forall id <- snapshots :: Sided(w, id, snapshots[id], stage, later)) && from <= later
    ensures forall id <- snapshots :: Sided(w, id, snapshots[id], stage, from)
  {
    hide Sided;
    forall id | id in snapshots
      ensures Sided(w, id, snapshots[id], stage, from)
    {
      SidedSince(w, id, snapshots[id], stage, from, later);
    }
  }

  /** What recovering operations makes of the side that was taken. */
  lemma SidedActive(w: World, v: World, id: string, sn: Snapshot, from: int)
    requires Sided(w, id, sn, CertCreated, from) && Within(w, v, Frozen) && Recovered(w.rows, v.rows)
    ensures Sided(v, id, sn, Active, from)
  {
    assert Kept(w.rows[id], v.rows[id]);
  }

  lemma CalmSideActive(w: World, v: World, id: string, holdsNew: bool)
    requires CalmSide(w.rows, id, holdsNew, CertCreated) && Within(w, v, Frozen) && Recovered(w.rows, v.rows)
    ensures CalmSide(v.rows, id, holdsNew, Active)
  {
    assert Kept(w.rows[id], v.rows[id]);
  }

  lemma CalmSideStays(w: World, v: World, id: string, holdsNew: bool)
    requires CalmSide(w.rows, id, holdsNew, Active) && Later(w, v)
    ensures CalmSide(v.rows, id, holdsNew, Active)
  {
    assert Kept(w.rows[id], v.rows[id]);
  }

  /** The order that follows recovery changes nothing of what recovery ended. */
  lemma AllCalmSidesStay(w: World, v: World, ip: string, n: nat, snapshots: map<string, Snapshot>,
                         certs: map<int, CertificateConfig>)
    requires Ordered(w, v, ip, n)
    requires forall id <- snapshots :: CalmSide(w.rows, id, HoldsNew(certs, snapshots[id]), Active)
    ensures forall id <- snapshots :: CalmSide(v.rows, id, HoldsNew(certs, snapshots[id]), Active)
  {
    hide CalmSide, HoldsNew, Later;
    forall id | id in snapshots
      ensures CalmSide(v.rows, id, HoldsNew(certs, snapshots[id]), Active)
    {
      CalmSideStays(w, v, id, HoldsNew(certs, snapshots[id]));
    }
  }

  /** A record that holds the new certificate is served with it. */
  lemma NewInPlace(w: World, s: Policy, id: string)
    requires Inv(w, s) && id in w.snapshots && HoldsNew(w.certs, w.snapshots[id])
    ensures Serves(w.certs, w.snapshots[id].ipv4, w.snapshots[id].newFingerprint)
  {
    SnapshotFacts(w, s, id);
    HolderOfLeaf(w, s, w.snapshots[id].certID, id);
    hide Inv, MayPut, IsOperationID, Serves;
    CarrierServes(w, s, w.snapshots[id].certID, id);
  }

  lemma HolderOfLeaf(w: World, s: Policy, c: int, id: string)
    requires Inv(w, s) && id in w.rows && w.rows[id].certFingerprint != "" && c in w.certs
    requires Fingerprint(w.certs[c].certData) == w.rows[id].certFingerprint
    ensures c in w.h.carrier && w.h.carrier[c] == id
  {
    hide Moments, RowsOk, OneAtATime, Newest, Stages, Managements, Evidence, Carriers, Markers, Creations, Holders,
      Snapshots, Saved, Creates, Orders, Retries, Placements, Activations, Paces, Trails, GiveUps;
    OpenInv(w, s);
  }

  /** The saved input may be written back at any time. */
  lemma MayWriteBack(w: World, s: Policy, id: string)
    requires Inv(w, s) && id in w.snapshots
    ensures w.snapshots[id].previous.id == w.snapshots[id].certID && w.snapshots[id].certID in w.certs
    ensures w.snapshots[id].oldFingerprint != "" && id in w.rows && w.rows[id].ipv4 == w.snapshots[id].ipv4
    ensures id in w.rows && w.rows[id].ipv4 in w.h.active
            && MayPut(w, id, w.snapshots[id].previous, w.h.active[w.rows[id].ipv4])
  {
    hide Inv, MayPut, IsOperationID;
    SnapshotFacts(w, s, id);
  }

  /** The old leaf is served only by the restored record. */
  lemma OldServed(w: World, s: Policy, id: string)
    requires Inv(w, s) && id in w.snapshots && Serves(w.certs, w.snapshots[id].ipv4, w.snapshots[id].oldFingerprint)
    ensures id in w.rows && CarriesActive(w, w.rows[id])
    ensures w.rows[id].stage != Stage.Error ==> RolledBack(w, id)
  {
    hide Inv, Serves, MayPut, IsOperationID;
    SnapshotFacts(w, s, id);
    ServedBy(w, s, w.snapshots[id].ipv4, w.h.active[w.snapshots[id].ipv4]);
  }

  /** The new leaf is served only by the deployed record, and then the operation has not failed. */
  lemma NewServed(w: World, s: Policy, id: string)
    requires Inv(w, s) && id in w.snapshots && Serves(w.certs, w.snapshots[id].ipv4, w.snapshots[id].newFingerprint)
    ensures id in w.rows && w.rows[id].certID in w.h.carrier && w.h.carrier[w.rows[id].certID] == id
    ensures w.rows[id].stage in {CertIssued, CertCreated}
    ensures w.rows[id].certID in w.certs
            && Fingerprint(w.certs[w.rows[id].certID].certData) == w.snapshots[id].newFingerprint
  {
    hide Inv, Serves, MayPut, IsOperationID;
    SnapshotFacts(w, s, id);
    ServedBy(w, s, w.snapshots[id].ipv4, id);
    SnapshotRow(w, s, id);
    CarrierServes(w, s, w.rows[id].certID, id);
  }

  /** A record written back is served with the old leaf. */
  lemma WrittenBackServes(w: World, s: Policy, id: string, certs: map<int, CertificateConfig>, isACME: bool)
    requires Inv(w, s) && id in w.snapshots
    requires w.snapshots[id].certID in certs
             && certs[w.snapshots[id].certID] == Stored(w.snapshots[id].previous, isACME)
    ensures Serves(certs, w.snapshots[id].ipv4, w.snapshots[id].oldFingerprint)
  {
    hide Inv, MayPut, IsOperationID;
    SnapshotFacts(w, s, id);
    var c := w.snapshots[id].certID;
    assert certs[c].dnsNames == [w.snapshots[id].ipv4]
        && Fingerprint(certs[c].certData) == w.snapshots[id].oldFingerprint;
  }

  /** A failed operation's snapshot may go once TLS confirmed the old certificate, and it is the only snapshot. */
  lemma MayDiscard(w: World, s: Policy, id: string)
    requires Inv(w, s) && id in w.snapshots && id in w.rows && w.rows[id].stage == Stage.Error
    requires id in w.h.savedAt
             && ShownSince(w.h.log, w.snapshots[id].ipv4, w.snapshots[id].oldFingerprint, w.h.savedAt[id])
    ensures MayDrop(w, id) && w.snapshots - {id} == map[]
  {
    hide Inv;
    SnapshotIsLast(w, s);
    assert (w.snapshots - {id}).Keys == {};
  }

  lemma MayDiscardDeployed(w: World, s: Policy, id: string)
    requires Inv(w, s) && id in w.snapshots && Deployed(w, id) && w.rows[id].stage == CertCreated
    requires id in w.h.savedAt
             && ShownSince(w.h.log, w.snapshots[id].ipv4, w.snapshots[id].newFingerprint, w.h.savedAt[id])
    ensures MayDrop(w, id) && w.snapshots - {id} == map[]
  {
    hide Inv;
    SnapshotIsLast(w, s);
    assert (w.snapshots - {id}).Keys == {};
  }

  /** The record of the operation carries its certificate, and TLS has shown it since the operation began. */
  ghost predicate Deployed(w: World, id: string)
  {
    && id in w.rows && w.rows[id].certID in w.h.carrier && w.h.carrier[w.rows[id].certID] == id
    && ShownDuring(w.h.log, w.rows[id].ipv4, w.rows[id].certFingerprint, w.rows[id].createdAt, w.now)
  }

  lemma MayConfirm(w: World, s: Policy, id: string)
    requires Inv(w, s) && Deployed(w, id) && w.rows[id].kind == Renew && w.rows[id].stage == CertIssued
    ensures w.rows[id].certID > 0 && MayMove(w, s, id, CertCreated, SetCert(w.rows[id].certID), 0)
  {
    hide Inv;
    InflightRow(w, s, id);
    CarrierServes(w, s, w.rows[id].certID, id);
  }

  /** A deployed renewal stays so when its certificate ID is recorded. */
  lemma StaysDeployed(w: World, v: World, id: string, now: int)
    requires Deployed(w, id) && w.now <= now
             && (v == w || v == Moved(w, id, CertCreated, SetCert(w.rows[id].certID), 0, now))
    ensures Deployed(v, id) && v.snapshots == w.snapshots && v.h.log == w.h.log && v.h.savedAt == w.h.savedAt
    ensures v == Moved(w, id, CertCreated, SetCert(w.rows[id].certID), 0, now) ==> v.rows[id].stage == CertCreated
  {
  }

  /** A listing holds at most the snapshot of the newest operation. */
  lemma OneSnapshotAtMost(w: World, s: Policy, list: seq<Snapshot>)
    requires Inv(w, s) && Lists(w.snapshots, list)
    ensures |list| <= 1 && (list == [] ==> w.snapshots == map[])
  {
    hide Inv;
    SnapshotIsLast(w, s);
    if |list| > 1 {
      Lexicographic.LessIsTotal(list[0].operationID, list[1].operationID);
    }
    assert list == [] ==> w.snapshots.Keys == {};
  }

  // ---------------------------------------------------------------- creation and deployment

  /** The record that carries the operation may be recorded as its certificate. */
  lemma MayRecord(w: World, s: Policy, id: string, c: int)
    requires Inv(w, s) && id in w.rows && w.rows[id].kind == Issue && w.rows[id].stage == CertIssued
    requires id in w.h.made && w.h.made[id] == c && c in w.h.carrier && w.h.carrier[c] == id
    ensures MayMove(w, s, id, CertCreated, SetCert(c), 0) && c > 0
  {
    hide Inv;
    InflightRow(w, s, id);
    CarrierServes(w, s, c, id);
  }

  /** A hit on the marker is the operation's own record, in the form the checks ask for. */
  lemma HitIsOwn(w: World, s: Policy, id: string, c: int)
    requires Inv(w, s) && id in w.rows && w.rows[id].kind == Issue && w.rows[id].stage == CertIssued
    requires c in w.certs && w.certs[c].name == w.rows[id].marker
    ensures w.certs[c].id == c && Manageable(w.certs[c], w.rows[id].ipv4)
    ensures Fingerprint(w.certs[c].certData) == w.rows[id].certFingerprint
            && w.certs[c].timeEndAt == w.rows[id].expiresAt
    ensures MayMove(w, s, id, CertCreated, SetCert(c), 0)
  {
    hide Inv, MayMove;
    MarkerHit(w, s, id, c);
    CarrierServes(w, s, c, id);
    MayRecord(w, s, id, c);
  }

  lemma MissIsReissuable(w: World, s: Policy, id: string)
    requires Inv(w, s) && id in w.rows && w.rows[id].kind == Issue && w.rows[id].stage == CertIssued
    requires forall c <- w.certs :: w.certs[c].name != w.rows[id].marker
    ensures Reissuable(w, id) && id !in w.h.made
  {
    hide Inv;
    MarkerMiss(w, s, id);
  }

  /** The input built for a new record may create it. */
  lemma MayCreateRecord(w: World, id: string, blank: CertificateConfig, v: Verified, c: int)
    requires Reissuable(w, id) && w.rows[id].kind == Issue && Material(w.rows[id], v) && c > 0 && c !in w.certs
    requires blank.name == w.rows[id].marker
    ensures MayMake(w, id, InputForOperation(w.rows[id], blank, v), c)
  {
    hide Material;
    MaterialCarries(w.rows[id], blank, v, c);
  }

  /** A renewal's record before its update: managed, and complete enough to be saved. */
  lemma RecordToRenew(w: World, s: Policy, id: string)
    requires Inv(w, s) && w.snapshots == map[] && id in w.rows && w.rows[id].kind == Renew
             && w.rows[id].stage == CertIssued
    ensures w.rows[id].certID in w.certs && w.rows[id].ipv4 != "" && w.rows[id].certFingerprint != ""
            && IsOperationID(id)
    ensures var cert := w.certs[w.rows[id].certID];
            && Manageable(cert, w.rows[id].ipv4) && cert.certData.Leaf? && cert.certData.fingerprint != ""
            && cert.keyData != ""
            && cert.id == w.rows[id].certID > 0
  {
    InflightRow(w, s, id);
    ManagedRecord(w, s, w.rows[id].ipv4);
    CarrierServes(w, s, w.rows[id].certID, w.h.carrier[w.rows[id].certID]);
    RowFacts(w, s, id);
    hide Inv, Marker;
  }

  /** The snapshot built from that record may be published. */
  lemma MaySaveRecord(w: World, id: string, cert: CertificateConfig, sn: Snapshot)
    requires w.snapshots == map[] && id in w.rows && w.rows[id].kind == Renew && w.rows[id].stage == CertIssued
    requires w.rows[id].certID in w.certs && cert == w.certs[w.rows[id].certID] && Complete(sn)
    requires sn == NewSnapshot(id, w.rows[id].ipv4, w.rows[id].certFingerprint, Fingerprint(cert.certData),
                               InputFromConfig(cert))
    ensures MaySave(w, id, sn)
  {
  }

  /** Under its snapshot, the record may take the new certificate. */
  lemma MayPutNew(w: World, id: string, v: Verified)
    requires id in w.snapshots && id in w.rows && w.rows[id].certID in w.certs && w.rows[id].stage == CertIssued
    requires Material(w.rows[id], v)
    ensures MayPut(w, id, InputForOperation(w.rows[id], w.certs[w.rows[id].certID], v), id)
  {
    hide Material;
    MaterialCarries(w.rows[id], w.certs[w.rows[id].certID], v, 0);
  }

  /** A renewal whose leaf TLS has just shown is deployed. */
  lemma SeenIsDeployed(w: World, s: Policy, id: string)
    requires Inv(w, s) && id in w.rows && w.rows[id].kind == Renew && w.rows[id].certFingerprint != ""
    requires Serves(w.certs, w.rows[id].ipv4, w.rows[id].certFingerprint)
    requires ShownDuring(w.h.log, w.rows[id].ipv4, w.rows[id].certFingerprint, w.rows[id].createdAt, w.now)
    ensures Deployed(w, id)
  {
    hide Inv, Serves;
    ServedBy(w, s, w.rows[id].ipv4, id);
  }

  // ---------------------------------------------------------------- binding, recovery and failures

  /** Both observations in hand, a created certificate may be bound. */
  lemma MayBind(w: World, s: Policy, id: string)
    requires Inv(w, s) && w.snapshots == map[] && id in w.rows && w.rows[id].stage == CertCreated
    requires BoundDuring(w.h.log, w.rows[id].policyID, w.rows[id].certID, w.rows[id].createdAt, w.now)
    requires w.rows[id].kind == Issue ==>
               ShownDuring(w.h.log, w.rows[id].ipv4, w.rows[id].certFingerprint, w.rows[id].createdAt, w.now)
    ensures MayMove(w, s, id, PolicyBound, ClearMarker, 0)
  {
    hide Inv;
    InflightRow(w, s, id);
    CreatedRow(w, s, id);
  }

  lemma CreatedIsServed(w: World, s: Policy, id: string)
    requires Inv(w, s) && w.snapshots == map[] && id in w.rows && w.rows[id].stage == CertCreated
    ensures w.rows[id].certFingerprint != "" && Serves(w.certs, w.rows[id].ipv4, w.rows[id].certFingerprint)
  {
    hide Inv, Serves;
    InflightRow(w, s, id);
    CreatedRow(w, s, id);
    CarrierServes(w, s, w.rows[id].certID, id);
  }

  /** A failure may always be recorded on the newest operation, without moving it. */
  lemma MayRecordFailure(w: World, s: Policy, id: string, patch: Patch)
    requires id in w.rows && id == w.h.last && patch.SetFailure? && patch.message == STEP_FAILED
    requires w.rows[id].certFingerprint != ""
    ensures MayMove(w, s, id, w.rows[id].stage, patch, 0)
  {
  }

  lemma FailureKeepsReissuable(w: World, v: World, id: string, patch: Patch, now: int)
    requires id in w.rows && patch.SetFailure? && (v == w || v == Moved(w, id, w.rows[id].stage, patch, 0, now))
    ensures Reissuable(w, id) ==>
            Reissuable(v, id) && w.rows[id].stage == CertIssued && v.rows[id].retryCount == w.rows[id].retryCount
  {
  }

  /** An operation that never stored a certificate may be given up. */
  lemma MayInterrupt(w: World, s: Policy, id: string, patch: Patch)
    requires Inv(w, s) && id in w.rows && w.rows[id].stage in {New, Renewing, ChallengePresent}
             && patch.SetFailure? && patch.message != ORDER_FAILED
    ensures MayMove(w, s, id, Stage.Error, patch, 0)
  {
    hide Inv;
    InflightRow(w, s, id);
  }

  /** A listing holds at most the newest operation, and an empty one means that nothing is left. */
  lemma OneOperationAtMost(w: World, s: Policy, list: seq<Operation>)
    requires Inv(w, s) && ListsIncomplete(w.rows, list) && w.snapshots == map[]
    ensures |list| <= 1 && (list == [] ==> Settled(w) && Recovered(w.rows, w.rows))
    ensures forall i :: 0 <= i < |list| ==>
            list[i].id in w.rows && w.rows[list[i].id] == list[i] && Inflight(list[i].stage)
  {
    hide Inv;
    if |list| > 1 {
      InflightRow(w, s, list[0].id);
      InflightRow(w, s, list[1].id);
    }
  }

  lemma RowsAreKeyed(w: World, s: Policy)
    requires Inv(w, s)
    ensures Keyed(w.rows)
  {
    hide Moments, OneAtATime, Newest, Stages, Owners, Managements, Evidence, Records, Carriers, Markers, Creations,
      Holders, Snapshots, Saved, Creates, Orders, Retries, Placements, Activations, Paces, Trails, Marker,
      IsOperationID;
    OpenInv(w, s);
    forall id | id in w.rows
      ensures w.rows[id].id == id
    {
      assert RowOk(id, w.rows[id], w.now);
    }
  }

  // ---------------------------------------------------------------- orders

  /** The database accepts the next order: its identifier and marker are new, and nothing is in flight. */
  lemma NextOrderFits(w: World, s: Policy, op: Operation)
    requires Inv(w, s) && Settled(w) && IsOperationID(op.id) && op.id !in w.rows
             && op.marker == Marker(op.kind, op.ipv4, op.id)
    ensures CanInsert(w.rows, op)
  {
    hide Moments, OneAtATime, Newest, Stages, Owners, Managements, Evidence, Records, Carriers, Markers, Creations,
      Holders, Snapshots, Saved, Creates, Orders, Retries, Placements, Activations, Paces, Trails, Marker,
      IsOperationID;
    OpenInv(w, s);
    forall k | k in w.rows
      ensures w.rows[k].marker != op.marker && !Inflight(w.rows[k].stage)
    {
      assert RowOk(k, w.rows[k], w.now);
      MarkerNamesOperation(w.rows[k].kind, w.rows[k].ipv4, k, op.kind, op.ipv4, op.id);
    }
  }

  /** An operation that has not stored a certificate has never called create. */
  lemma NeverCreated(w: World, s: Policy, id: string)
    requires Inv(w, s) && id in w.rows && w.rows[id].stage in {New, ChallengePresent}
    ensures w.h.log[CreateCalled(id)] == 0
  {
    hide Moments, RowsOk, OneAtATime, Newest, Stages, Owners, Managements, Evidence, Records, Carriers, Markers,
      Creations, Holders, Snapshots, Saved, Orders, Retries, Placements, Activations, Paces, Trails;
    OpenInv(w, s);
  }

  /** The budget of orders before an address is managed. */
  ghost predicate MayOrder(w: World, ip: string)
  {
    ip !in w.managed ==> w.h.log[ObtainCalled(ip)] < Budget(w.h.log, ip)
  }

  /** The first interactive run pays for the first order. */
  lemma FirstOrderIsFree(w: World, s: Policy, ip: string)
    requires Inv(w, s) && (forall k <- w.rows :: w.rows[k].ipv4 != ip) && RunStarted(ip, Interactive) in w.h.log
    ensures MayOrder(w, ip)
  {
    hide Moments, RowsOk, OneAtATime, Stages, Owners, Managements, Evidence, Records, Carriers, Markers, Creations,
      Holders, Snapshots, Saved, Creates, Retries, Placements, Activations, Paces, Trails;
    OpenInv(w, s);
  }

  /** A manual run that has just been counted pays for one order. */
  lemma ManualRunPays(w: World, s: Policy, ip: string)
    requires Inv(w, s)
    ensures MayOrder(Logged(w, RunStarted(ip, ManualFirstIssueRetry)), ip)
  {
    hide Moments, RowsOk, OneAtATime, Newest, Stages, Owners, Managements, Evidence, Records, Carriers, Markers,
      Creations, Holders, Snapshots, Saved, Creates, Retries, Placements, Activations, Paces, Trails;
    OpenInv(w, s);
  }

  lemma CreatedOperation(w: World, op: Operation, attempt: int, now: int)
    ensures var v := Created(w, op, attempt, now);
            && op.id in v.rows && v.rows[op.id].stage == op.stage && SameOrder(op, v.rows[op.id])
            && v.h.log == w.h.log
            && op.id in v.h.attempt && v.h.attempt[op.id] == attempt
            && (MayOrder(w, op.ipv4) ==> MayOrder(v, op.ipv4))
            && v.h.orderedAt == w.h.orderedAt
  {
  }

  lemma MovedOperation(w: World, id: string, next: Stage, patch: Patch, now: int)
    requires id in w.rows
    ensures var v := Moved(w, id, next, patch, 0, now);
            && id in v.rows && v.rows[id].stage == next && (!patch.SetCert? ==> SameOrder(w.rows[id], v.rows[id]))
            && v.h.log == w.h.log
            && v.h.attempt == w.h.attempt && (MayOrder(w, w.rows[id].ipv4) ==> MayOrder(v, w.rows[id].ipv4))
            && v.h.orderedAt == w.h.orderedAt
  {
  }

  lemma PatchedStage(o: Operation, next: Stage, patch: Patch, now: int)
    ensures Patched(o, next, patch, now).stage == next
  {
  }

  lemma MayPresent(w: World, s: Policy, id: string, marker: string)
    requires Inv(w, s) && id in w.rows && w.rows[id].stage in {New, Renewing}
    ensures MayMove(w, s, id, ChallengePresent, SetMarker(marker), 0)
  {
    hide Inv;
    InflightRow(w, s, id);
  }

  lemma MaySendOrder(w: World, s: Policy, id: string)
    requires Inv(w, s) && id in w.rows && w.rows[id].stage == ChallengePresent && id !in w.h.orderedAt
    requires MayOrder(w, w.rows[id].ipv4)
    ensures MaySend(w, id) && id !in w.h.deniedAt
  {
    hide Inv;
    InflightRow(w, s, id);
    PlacementFacts(w, s, id);
  }

  lemma TickKeepsBudget(w: World, now: int, ip: string)
    requires MayOrder(w, ip)
    ensures MayOrder(w.(now := now), ip)
  {
  }

  /** The world after the authority was asked at the present instant: with the leaf it issued, or with its refusal, or
      with neither when the call was cut short. */
  function Answered(w: World, id: string, leaf: Option<string>, refused: bool, now: int): World
    requires id in w.rows
  {
    var v := OrderSent(w, id);
    var x := if leaf.Some? then WithLeaf(v, leaf.value) else v;
    if refused then OrderDenied(x.(now := now), id) else x
  }

  lemma AnsweredFields(w: World, id: string, leaf: Option<string>, refused: bool, now: int)
    requires id in w.rows
    ensures var v := Answered(w, id, leaf, refused, now);
            && v == w.(issued := v.issued, now := v.now,
                       h := w.h.(log := v.h.log, orderedAt := v.h.orderedAt, deniedAt := v.h.deniedAt))
            && v.issued == (if leaf.Some? then w.issued + {leaf.value} else w.issued)
            && v.now == (if refused then now else w.now)
            && v.h.log == w.h.log + multiset{ObtainCalled(w.rows[id].ipv4)}
            && v.h.orderedAt == w.h.orderedAt[id := w.now]
            && v.h.deniedAt == if refused then w.h.deniedAt[id := now] else w.h.deniedAt
  {
  }

  lemma AnswerKeepsInv(start: World, w: World, s: Policy, id: string, leaf: Option<string>, refused: bool, now: int)
    requires Inv(w, s) && MaySend(w, id) && w.now <= now && Ordered(start, w, w.rows[id].ipv4, 0)
    requires leaf.Some? ==> leaf.value != "" && leaf.value !in w.issued
    ensures Inv(Answered(w, id, leaf, refused, now), s)
    ensures Ordered(start, Answered(w, id, leaf, refused, now), w.rows[id].ipv4, 1)
    ensures leaf.Some? && !refused ==> IsNew(Answered(w, id, leaf, refused, now), leaf.value)
  {
    hide Inv, Ordered, Later, IsNew, MayLog;
    var ip, v := w.rows[id].ipv4, OrderSent(w, id);
    SendKeepsInv(w, s, id);
    SendIsOrdered(start, w, id);
    var x := v;
    if leaf.Some? {
      x := WithLeaf(v, leaf.value);
      LeafKeepsInv(v, s, leaf.value);
      LeafIsOrdered(start, v, leaf.value, ip, 1);
    }
    if refused {
      RefusalKeepsInv(start, x, s, id, now);
    }
  }

  lemma RefusalKeepsInv(start: World, w: World, s: Policy, id: string, now: int)
    requires Inv(w, s) && MayDeny(w, id) && w.now <= now && Ordered(start, w, w.rows[id].ipv4, 1)
    ensures Inv(OrderDenied(w.(now := now), id), s)
    ensures Ordered(start, OrderDenied(w.(now := now), id), w.rows[id].ipv4, 1)
  {
    hide Inv, Ordered, Later;
    var v := w.(now := now);
    TickKeepsInv(w, s, now);
    TickIsOrdered(start, w, now, w.rows[id].ipv4, 1);
    DenyKeepsInv(v, s, id);
    DenyIsOrdered(start, v, id, w.rows[id].ipv4, 1);
  }

  lemma MayRefuse(w: World, s: Policy, id: string, attempt: int, patch: Patch)
    requires Inv(w, s) && id in w.rows && w.rows[id].stage == ChallengePresent
    requires id in w.h.attempt && w.h.attempt[id] == attempt >= 0
    requires id in w.h.deniedAt && patch.SetFailureWithRetry? && patch.message == ORDER_FAILED
    requires patch.SetFailureWithRetry? && patch.retryCount == attempt + 1
             && patch.nextRetryAt == StoredRetry(s, attempt, w.now)
    ensures MayMove(w, s, id, Stage.Error, patch, w.now)
  {
    hide Inv;
    InflightRow(w, s, id);
  }

  /** A failure written with a backoff, and what the history keeps of it. */
  lemma FailedRow(w: World, id: string, patch: Patch, failedAt: int, now: int)
    requires id in w.rows && patch.SetFailureWithRetry?
    ensures var v := Moved(w, id, Stage.Error, patch, failedAt, now);
            && id in v.rows && v.rows[id].stage == Stage.Error && v.rows[id].retryCount == patch.retryCount
            && v.rows[id].nextRetryAt == patch.nextRetryAt && id in v.h.failedAt && v.h.failedAt[id] == failedAt
            && v.rows[id].errorCategory == patch.category && v.rows[id].errorMessage == patch.message
            && v.rows[id].recoveryMarker == patch.marker
            && v.h.attempt == w.h.attempt && v.h.log == w.h.log && v.h.savedAt == w.h.savedAt && v.managed == w.managed
            && v.now == now
  {
  }

  lemma MayStore(w: World, s: Policy, id: string, fingerprint: string, expiresAt: int)
    requires Inv(w, s) && id in w.rows && w.rows[id].stage == ChallengePresent && expiresAt > 0 && IsNew(w, fingerprint)
    requires id in w.h.orderedAt && id !in w.h.deniedAt
    ensures MayMove(w, s, id, CertIssued, SetIssued(fingerprint, expiresAt), 0)
  {
    hide Inv, IsNew;
    InflightRow(w, s, id);
  }

  /** A failure written without a backoff. */
  lemma PlainlyFailedRow(o: Operation, patch: Patch, now: int)
    requires patch.SetFailure?
    ensures var v := Patched(o, Stage.Error, patch, now);
            && v.stage == Stage.Error && v.retryCount == o.retryCount && v.nextRetryAt == o.nextRetryAt
            && v.certFingerprint == o.certFingerprint && v.errorCategory == patch.category
            && v.errorMessage == patch.message && v.recoveryMarker == patch.marker
  {
  }

  lemma NotedRow(w: World, id: string, patch: Patch, now: int)
    requires id in w.rows && patch.SetFailure?
    ensures var v := Moved(w, id, w.rows[id].stage, patch, 0, now);
            && id in v.rows && v.rows[id].errorCategory == patch.category && v.rows[id].errorMessage == patch.message
            && v.rows[id].recoveryMarker == patch.marker
  {
  }

  lemma MaterialLeaf(o: Operation, v: Verified)
    requires Material(o, v)
    ensures v.certPEM == Leaf(o.certFingerprint) && o.certFingerprint != ""
  {
  }

  lemma IssuedRow(w: World, id: string, v: Verified, now: int)
    requires id in w.rows && v.fingerprint != "" && v.certPEM == Leaf(v.fingerprint) && v.keyPEM != ""
             && v.dnsNames == [w.rows[id].ipv4]
    ensures var m := Moved(w, id, CertIssued, SetIssued(v.fingerprint, Unix(v.notAfter)), 0, now);
            && id in m.rows && Material(m.rows[id], v) && m.h.log == w.h.log && m.rows[id].kind == w.rows[id].kind
            && m.rows[id].stage == CertIssued
  {
  }

  /** A managed address has a newest operation, and the retry read from the log is the one it stored. */
  lemma RetryIsStored(w: World, s: Policy, ip: string, retry: RetryInfo)
    requires Inv(w, s) && ip in w.managed
    requires (retry == RetryInfo(0, 0) && forall k <- w.rows :: w.rows[k].ipv4 != ip)
             || exists k :: IsLatest(w.rows, ip, k) && retry == RetryOf(w.rows[k])
    ensures exists k :: IsLatest(w.rows, ip, k) && retry == RetryOf(w.rows[k])
  {
    hide Inv, IsLatest;
    ManagedHasRows(w, s, ip);
  }

  /** What a retry read from the log means for the next order. */
  lemma ReadBackoff(w: World, s: Policy, ip: string, retry: RetryInfo)
    requires Inv(w, s) && FromUnix(retry.nextAt) <= w.now
    requires exists k :: IsLatest(w.rows, ip, k) && retry == RetryOf(w.rows[k])
    ensures BackoffOver(w, ip, retry.attempt) && retry.attempt >= 0
  {
    hide Inv, BackoffOver;
    var id :| IsLatest(w.rows, ip, id) && retry == RetryOf(w.rows[id]);
    LatestBackoff(w, s, ip, id, retry);
  }

  lemma LatestBackoff(w: World, s: Policy, ip: string, id: string, retry: RetryInfo)
    requires Inv(w, s) && IsLatest(w.rows, ip, id) && retry == RetryOf(w.rows[id]) && FromUnix(retry.nextAt) <= w.now
    ensures BackoffOver(w, ip, retry.attempt) && retry.attempt >= 0
  {
    hide Inv, StoredRetry;
    LatestIsNewest(w, s, ip, id);
    RetryFacts(w, s, id);
  }

  lemma RetryCountIsNatural(w: World, s: Policy, id: string)
    requires Inv(w, s) && id in w.rows
    ensures w.rows[id].retryCount >= 0 && w.rows[id].id == id
  {
    hide Inv, StoredRetry;
    RowsAreKeyed(w, s);
    RetryFacts(w, s, id);
  }

  lemma ManagedHasRows(w: World, s: Policy, ip: string)
    requires Inv(w, s) && ip in w.managed
    ensures exists k :: k in w.rows && w.rows[k].ipv4 == ip
  {
    hide Moments, RowsOk, OneAtATime, Newest, Stages, Owners, Evidence, Records, Carriers, Markers, Creations, Holders,
      Snapshots, Saved, Creates, Orders, Retries, Placements, Activations, Paces, Trails;
    OpenInv(w, s);
    assert ManagedOk(w.rows, w.h.active, s, ip, w.managed[ip]);
  }

  /** The run has what its own order needs: a manual run the budget it brought, an interactive one its own start. */
  ghost predicate Paid(w: World, ip: string, mode: RunMode)
  {
    && (mode.ManualFirstIssueRetry? ==> MayOrder(w, ip))
    && (mode.Interactive? ==> RunStarted(ip, Interactive) in w.h.log)
  }

  /** Recovery never spends the budget of orders. */
  lemma RecoveryKeepsBudget(start: World, w: World, permit: Permit, ip: string, mode: RunMode)
    requires Within(start, w, permit) && Paid(start, ip, mode)
    ensures Paid(w, ip, mode)
  {
    assert w.h.log[RunStarted(ip, Interactive)] == start.h.log[RunStarted(ip, Interactive)];
  }

  /** An operation of the address that was not there before. */
  predicate NewOperation(before: map<string, Operation>, after: map<string, Operation>, ip: string, id: string)
  {
    id in after && id !in before && after[id].ipv4 == ip
  }

  lemma ActiveIsManaged(w: World, s: Policy, id: string)
    requires Inv(w, s) && id in w.rows && w.rows[id].stage == Active
    ensures w.rows[id].ipv4 in w.managed && SameTarget(w.managed[w.rows[id].ipv4], w.rows[id])
  {
    hide Moments, RowsOk, OneAtATime, Newest, Owners, Managements, Evidence, Records, Carriers, Markers, Creations,
      Holders, Snapshots, Saved, Creates, Orders, Retries, Placements, Activations, Paces, Trails;
    OpenInv(w, s);
    assert StageOk(w.managed, w.rows[id]);
  }

  ghost predicate NoOperation(rows: Rows, ip: string)
  {
    forall k <- rows :: rows[k].ipv4 != ip
  }

  /** A first order is allowed interactively while the address has no operation, and manually after a failure. */
  ghost predicate FirstIssueAllowed(mode: RunMode, rows: Rows, ip: string)
  {
    (mode.Interactive? && NoOperation(rows, ip)) || (mode.ManualFirstIssueRetry? && !NoOperation(rows, ip))
  }

  /** No stored backoff of the address reaches past the instant. */
  ghost predicate NoBackoff(rows: Rows, ip: string, now: int)
  {
    forall k :: IsLatest(rows, ip, k) && rows[k].stage == Stage.Error ==> rows[k].nextRetryAt * SECOND <= now
  }

  /** The renewal of the address has come, and no stored backoff holds it back. */
  ghost predicate RenewalIsDue(rows: Rows, managed: map<string, ManagedCert>, ip: string, now: int)
  {
    ip in managed && managed[ip].nextRenewalAt * SECOND <= now && NoBackoff(rows, ip, now)
  }

  /** The failures in a row that the newest operation of the address counts: none without one, or after a success. */
  ghost predicate CountsSoFar(rows: Rows, ip: string, n: int)
  {
    || (NoOperation(rows, ip) && n == 0)
    || exists k :: IsLatest(rows, ip, k) && n == (if rows[k].stage == Stage.Error then rows[k].retryCount else 0)
  }

  lemma NoBackoffLater(rows: Rows, ip: string, now: int, later: int)
    requires now <= later
    ensures NoBackoff(rows, ip, now) ==> NoBackoff(rows, ip, later)
  {
  }

  /** The newest operation of the address, if there is one, is marked for a person. */
  ghost predicate NeedsPerson(rows: Rows, ip: string)
  {
    forall k :: IsLatest(rows, ip, k) ==> rows[k].recoveryMarker == RECOVERY_NEEDS_ATTENTION
  }

  lemma LatestNeedsPerson(w: World, s: Policy, ip: string, op: Operation)
    requires Inv(w, s) && exists k :: IsLatest(w.rows, ip, k) && w.rows[k] == op
    requires op.recoveryMarker == RECOVERY_NEEDS_ATTENTION
    ensures NeedsPerson(w.rows, ip)
  {
    hide Inv;
    var j :| IsLatest(w.rows, ip, j) && w.rows[j] == op;
    LatestIsNewest(w, s, ip, j);
    forall k | IsLatest(w.rows, ip, k)
      ensures k == j
    {
      LatestIsNewest(w, s, ip, k);
    }
  }

  /** Rewriting the marker makes no other row the newest. */
  lemma NormalizedIsLatest(w: World, id: string, ip: string, op: Operation)
    requires id in w.rows && op.id == id && exists k :: IsLatest(w.rows, ip, k) && w.rows[k] == op
    requires w.rows[id] == op
    ensures var v := Normalized(w, id); exists k :: IsLatest(v.rows, ip, k) && v.rows[k] == v.rows[id]
  {
    var v := Normalized(w, id);
    var j :| IsLatest(w.rows, ip, j) && w.rows[j] == op;
    assert IsLatest(v.rows, ip, id);
  }

  predicate ErrorFree(m: ManagedCert)
  {
    m.state == Active && m.lastErrorCategory == "" && m.lastError == "" && m.recoveryMarker == ""
  }

  /** What a run that returns without an error has done for its address, whose orders are counted before and after. A
      manual or a first interactive run leaves the address managed, and an address that is not managed has its newest
      failure marked for a person; a renewal that is still due has just been placed; and from a settled state a due
      renewal and an allowed first issue are placed at once. */
  ghost predicate Delivers(before: World, after: World, ip: string, mode: RunMode, at: int, orders: nat, more: nat)
  {
    && Settled(after) && orders <= more <= orders + 1
    && (mode.ManualFirstIssueRetry? || (mode.Interactive? && NoOperation(before.rows, ip)) ==> ip in after.managed)
    && (more == orders ==> !RenewalIsDue(after.rows, after.managed, ip, at))
    && (ip !in after.managed ==> NeedsPerson(after.rows, ip))
    && (more == orders + 1 ==> ip in after.managed && ErrorFree(after.managed[ip]))
    && (Settled(before) && RenewalIsDue(before.rows, before.managed, ip, at) ==> more == orders + 1)
    && (Settled(before) && ip !in before.managed && FirstIssueAllowed(mode, before.rows, ip) ==> more == orders + 1)
  }

  /** A run delivers by what it did after recovery had left the state `repaired` behind. */
  lemma RunDelivers(before: World, repaired: World, after: World, ip: string, mode: RunMode, at: int, later: int,
                    orders: nat, more: nat)
    requires Settled(after) && at <= later && orders <= more <= orders + 1
    requires mode.ManualFirstIssueRetry? || ip in repaired.managed ==> ip in after.managed
    requires NoOperation(before.rows, ip) ==> NoOperation(repaired.rows, ip)
    requires Settled(before) ==> repaired.rows == before.rows && repaired.managed == before.managed
    requires ip !in repaired.managed && FirstIssueAllowed(mode, repaired.rows, ip) ==>
               ip in after.managed && more == orders + 1
    requires RenewalIsDue(repaired.rows, repaired.managed, ip, later) ==> more == orders + 1
    requires if more != orders then ip in after.managed && ErrorFree(after.managed[ip])
             else after.managed == repaired.managed && (ip in after.managed ==> after.rows == repaired.rows)
    requires ip !in after.managed ==> NeedsPerson(after.rows, ip)
    ensures Delivers(before, after, ip, mode, at, orders, more)
  {
    hide Settled, NoOperation, NoBackoff, ErrorFree, NeedsPerson;
    if ip in repaired.managed {
      NoBackoffLater(repaired.rows, ip, at, later);
    }
  }

  lemma DeliversSince(before: World, after: World, ip: string, mode: RunMode, at: int, later: int, orders: nat,
                      more: nat)
    requires Delivers(before, after, ip, mode, later, orders, more) && at <= later
    ensures Delivers(before, after, ip, mode, at, orders, more)
  {
    hide Settled, NoOperation, FirstIssueAllowed, NeedsPerson;
  }

  /** The newest row by `updated_at` is unique, so what was read from it holds of every such row. */
  lemma RetryIsSole(w: World, s: Policy, ip: string, retry: RetryInfo, now: int)
    requires Inv(w, s) && retry.nextAt <= Unix(now)
             && exists k :: IsLatest(w.rows, ip, k) && retry == RetryOf(w.rows[k])
    ensures NoBackoff(w.rows, ip, now)
  {
    hide Inv;
    var k :| IsLatest(w.rows, ip, k) && retry == RetryOf(w.rows[k]);
    LatestIsNewest(w, s, ip, k);
    forall j | IsLatest(w.rows, ip, j)
      ensures j == k
    {
      LatestIsNewest(w, s, ip, j);
    }
  }

  /** Recovery starts no operation. */
  lemma StillNoOperation(start: World, w: World, permit: Permit, ip: string)
    requires Within(start, w, permit) && NoOperation(start.rows, ip)
    ensures NoOperation(w.rows, ip)
  {
    forall k | k in w.rows
      ensures w.rows[k].ipv4 != ip
    {
      assert Kept(start.rows[k], w.rows[k]);
    }
  }

  /** The count that the next first issue continues is that of the newest operation, by whichever time it is read. */
  lemma LatestContinues(w: World, s: Policy, ip: string, op: Operation)
    requires Inv(w, s) && (exists k :: IsLatest(w.rows, ip, k) && w.rows[k] == op) && op.stage == Stage.Error
    ensures Continues(w, ip, op.retryCount)
  {
    hide Inv;
    var k :| IsLatest(w.rows, ip, k) && w.rows[k] == op;
    LatestIsNewest(w, s, ip, k);
  }

  /** Rewriting the marker leaves the count to continue, the budget and the recovered state as they are. */
  lemma NormalizedKeeps(w: World, id: string, ip: string)
    requires id in w.rows
    ensures forall n :: Continues(w, ip, n) ==> Continues(Normalized(w, id), ip, n)
    ensures MayOrder(w, ip) ==> MayOrder(Normalized(w, id), ip)
    ensures Settled(w) ==> Settled(Normalized(w, id))
  {
  }

  /** An address without operations starts at zero. */
  lemma NothingToContinue(w: World, s: Policy, ip: string)
    requires Inv(w, s) && NoOperation(w.rows, ip)
    ensures Continues(w, ip, 0)
  {
    hide Moments, RowsOk, OneAtATime, Stages, Owners, Managements, Evidence, Records, Carriers, Markers, Creations,
      Holders, Snapshots, Saved, Creates, Orders, Retries, Placements, Activations, Paces, Trails, GiveUps;
    OpenInv(w, s);
  }
}
