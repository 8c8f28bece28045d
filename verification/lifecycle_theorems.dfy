/** What the invariant means for the people who run the service. */
module LifecycleTheorems {
  import opened Operations
  import opened GoEdge
  import opened Rollback
  import opened Scheduler
  import opened Lifecycle
  import opened LifecycleSteps
  import opened LifecycleOrders
  import opened LifecycleEdge

  // ---------------------------------------------------------------- what GoEdge serves

  /** The newest operation of an address that has its certificate in place. */
  ghost predicate NewestDeployed(rows: Rows, ip: string, id: string)
  {
    && id in rows && rows[id].ipv4 == ip && HasCertificate(rows[id].stage)
    && forall k <- rows :: rows[k].ipv4 == ip && HasCertificate(rows[k].stage) ==>
       rows[k].createdAt <= rows[id].createdAt
  }

  lemma SnapshotOfAddress(w: World, s: Policy, ip: string)
    requires Inv(w, s) && forall k <- w.snapshots :: w.snapshots[k].ipv4 != ip
    ensures forall k <- w.rows :: w.rows[k].ipv4 == ip ==> k !in w.snapshots
  {
    hide Moments, RowsOk, OneAtATime, Newest, Stages, Owners, Managements, Evidence, Records, Carriers, Markers,
      Creations, Holders, Saved, Creates, Orders, Retries, Placements, Activations, Paces, Trails, GiveUps,
      SnapshotSafe, SnapshotSide, Complete;
    OpenInv(w, s);
    forall k | k in w.snapshots
      ensures k in w.rows && w.rows[k].ipv4 == w.snapshots[k].ipv4
    {
      assert SnapshotOk(w.rows, w.h.active, w.certs, w.h.carrier, w.h.last, k, w.snapshots[k]);
    }
  }

  /** Without a snapshot, the record of a managed address carries the newest deployed operation. */
  lemma HolderIsNewest(w: World, s: Policy, ip: string)
    requires Inv(w, s) && ip in w.managed && forall k <- w.snapshots :: w.snapshots[k].ipv4 != ip
    ensures w.managed[ip].certID in w.h.carrier && NewestDeployed(w.rows, ip, w.h.carrier[w.managed[ip].certID])
  {
    hide Inv;
    HolderIsDeployed(w, s, ip);
    var d := w.h.carrier[w.managed[ip].certID];
    forall k | k in w.rows && w.rows[k].ipv4 == ip && HasCertificate(w.rows[k].stage)
      ensures w.rows[k].createdAt <= w.rows[d].createdAt
    {
      HolderIsNotOlder(w, s, ip, k);
    }
  }

  lemma HolderIsDeployed(w: World, s: Policy, ip: string)
    requires Inv(w, s) && ip in w.managed && forall k <- w.snapshots :: w.snapshots[k].ipv4 != ip
    ensures ip in w.h.active && w.h.active[ip] in w.rows
    ensures forall k <- w.rows :: w.rows[k].ipv4 == ip && w.rows[k].stage == Active ==>
                                    w.rows[k].createdAt <= w.rows[w.h.active[ip]].createdAt
    ensures w.managed[ip].certID in w.h.carrier && w.h.carrier[w.managed[ip].certID] in w.rows
    ensures var d := w.h.carrier[w.managed[ip].certID];
            && w.rows[d].ipv4 == ip && HasCertificate(w.rows[d].stage)
            && (d == w.h.active[ip] || w.rows[d].stage in {CertCreated, PolicyBound})
  {
    hide Moments, RowsOk, OneAtATime, Newest, Stages, Owners, Evidence, Records, Carriers, Markers, Creations,
      Snapshots, Saved, Creates, Orders, Retries, Placements, Activations, Paces, Trails, GiveUps, StoredRenewal,
      SameTarget;
    OpenInv(w, s);
    SnapshotOfAddress(w, s, ip);
    assert ManagedOk(w.rows, w.h.active, s, ip, w.managed[ip]);
    assert HolderOk(w.rows, w.h.active, w.h.carrier, w.snapshots, ip, w.managed[ip].certID);
  }

  lemma HolderIsNotOlder(w: World, s: Policy, ip: string, k: string)
    requires Inv(w, s) && ip in w.managed && forall k <- w.snapshots :: w.snapshots[k].ipv4 != ip
    requires k in w.rows && w.rows[k].ipv4 == ip && HasCertificate(w.rows[k].stage)
    ensures w.managed[ip].certID in w.h.carrier && w.h.carrier[w.managed[ip].certID] in w.rows
    ensures w.rows[k].createdAt <= w.rows[w.h.carrier[w.managed[ip].certID]].createdAt
  {
    hide Inv, RowOk, EvidenceOk, MadeOk, TrailOk, SameTarget, CarriesActive;
    HolderIsDeployed(w, s, ip);
    RowFacts(w, s, k);
    RowFacts(w, s, w.h.carrier[w.managed[ip].certID]);
    if w.rows[k].stage != Active && w.rows[k].kind == Renew {
      SnapshotOfAddress(w, s, ip);
      DeployedRenewalHolds(w, s, k);
    }
  }

  lemma DeployedRenewalHolds(w: World, s: Policy, k: string)
    requires Inv(w, s) && k in w.rows && k !in w.snapshots
    requires w.rows[k].kind == Renew && w.rows[k].stage in {CertCreated, PolicyBound}
    ensures w.rows[k].ipv4 in w.managed && w.managed[w.rows[k].ipv4].certID in w.h.carrier
    ensures w.h.carrier[w.managed[w.rows[k].ipv4].certID] == k
  {
    hide Moments, RowsOk, OneAtATime, Newest, Owners, Managements, Evidence, Records, Carriers, Markers, Creations,
      Snapshots, Saved, Creates, Orders, Retries, Placements, Activations, Paces, Trails, GiveUps;
    OpenInv(w, s);
    assert StageOk(w.managed, w.rows[k]);
  }

  /** In every reachable state, crashes included: without a snapshot GoEdge holds, under the managed certificate ID,
      exactly the certificate of the one newest operation that has its certificate in place; with a snapshot it
      holds that snapshot's old certificate, exactly as saved, or the certificate of the snapshot's operation. */
  lemma EdgeHoldsNewest(w: World, s: Policy, ip: string)
    requires Inv(w, s) && ip in w.managed
    ensures w.managed[ip].certID in w.certs
    ensures (forall k <- w.snapshots :: w.snapshots[k].ipv4 != ip) ==>
              && (exists d :: NewestDeployed(w.rows, ip, d))
              && (forall d :: NewestDeployed(w.rows, ip, d) ==> Carries(w.certs[w.managed[ip].certID], w.rows[d]))
    ensures forall k <- w.snapshots :: w.snapshots[k].ipv4 == ip ==>
              && k in w.rows
              && (|| InputFromConfig(w.certs[w.managed[ip].certID]) == w.snapshots[k].previous
                  || Carries(w.certs[w.managed[ip].certID], w.rows[k]))
  {
    hide Moments, RowsOk, OneAtATime, Newest, Stages, Owners, Managements, Evidence, Records, Markers, Creations,
      Snapshots, Saved, Creates, Orders, Retries, Placements, Activations, Paces, Trails, GiveUps, Carries,
      SnapshotSafe, NewestDeployed;
    OpenInv(w, s);
    var c := w.managed[ip].certID;
    assert HolderOk(w.rows, w.h.active, w.h.carrier, w.snapshots, ip, c);
    assert CarrierOk(w.certs, w.rows, w.h.made, c, w.h.carrier[c]);
    if forall k <- w.snapshots :: w.snapshots[k].ipv4 != ip {
      HolderIsNewest(w, s, ip);
      forall d | NewestDeployed(w.rows, ip, d)
        ensures d == w.h.carrier[c]
      {
        NewestIsUnique(w, s, ip, d, w.h.carrier[c]);
      }
    }
    forall k | k in w.snapshots && w.snapshots[k].ipv4 == ip
      ensures k in w.rows && (InputFromConfig(w.certs[c]) == w.snapshots[k].previous || Carries(w.certs[c], w.rows[k]))
    {
      SnapshotRow(w, s, k);
    }
  }

  lemma NewestIsUnique(w: World, s: Policy, ip: string, a: string, b: string)
    requires Inv(w, s) && NewestDeployed(w.rows, ip, a) && NewestDeployed(w.rows, ip, b)
    ensures a == b
  {
    hide RowsOk, OneAtATime, Newest, Stages, Owners, Managements, Evidence, Records, Carriers, Markers, Creations,
      Holders, Snapshots, Saved, Creates, Orders, Retries, Placements, Activations, Paces, Trails, GiveUps;
    OpenInv(w, s);
  }

  /** Across any number of crashes and ambiguous answers: one create call per operation, and at most one record
      under its marker, which only its own operation can have written. */
  lemma CreatedAtMostOnce(w: World, s: Policy, id: string)
    requires Inv(w, s) && id in w.rows && w.rows[id].kind == Issue
    ensures w.h.log[CreateCalled(id)] <= 1
    ensures forall c, d :: c in w.certs && d in w.certs && w.certs[c].name == w.certs[d].name == w.rows[id].marker ==>
            c == d
    ensures forall c <- w.certs :: w.certs[c].name == w.rows[id].marker ==> id in w.h.made && w.h.made[id] == c
  {
    hide Moments, RowsOk, OneAtATime, Newest, Stages, Owners, Managements, Evidence, Records, Carriers, Creations,
      Holders, Snapshots, Saved, Orders, Retries, Placements, Activations, Paces, Trails, GiveUps;
    OpenInv(w, s);
  }

  // ---------------------------------------------------------------- evidence and agreement

  /** No operation is bound or active without a check of its own policy and certificate and a check of its own leaf,
      both made after it began and before it was last written. */
  lemma EvidenceBeforeActive(w: World, s: Policy, id: string)
    requires Inv(w, s) && id in w.rows && w.rows[id].stage in {PolicyBound, Active}
    ensures BoundDuring(w.h.log, w.rows[id].policyID, w.rows[id].certID, w.rows[id].createdAt, w.rows[id].updatedAt)
    ensures ShownDuring(w.h.log, w.rows[id].ipv4, w.rows[id].certFingerprint,
                        w.rows[id].createdAt, w.rows[id].updatedAt)
    ensures w.rows[id].certFingerprint != "" && w.rows[id].certID > 0
  {
    hide Moments, RowsOk, OneAtATime, Newest, Owners, Records, Carriers, Markers, Creations, Holders, Snapshots, Saved,
      Creates, Orders, Retries, Placements, Activations, Paces, Trails, GiveUps, StoredRenewal;
    OpenInv(w, s);
    assert EvidenceOk(w.h.log, w.rows[id]) && StageOk(w.managed, w.rows[id]);
    if w.rows[id].kind == Renew {
      assert ManagedOk(w.rows, w.h.active, s, w.rows[id].ipv4, w.managed[w.rows[id].ipv4]);
    }
  }

  /** `managed_certs` repeats the newest activated operation of its address, and its renewal time is the one
      computed from that operation's expiry. */
  lemma ManagedAgreesWithLog(w: World, s: Policy, ip: string, id: string)
    requires Inv(w, s) && id in w.rows && w.rows[id].ipv4 == ip && w.rows[id].stage == Active
    requires forall k <- w.rows :: w.rows[k].ipv4 == ip && w.rows[k].stage == Active ==>
             w.rows[k].createdAt <= w.rows[id].createdAt
    ensures ip in w.managed && SameTarget(w.managed[ip], w.rows[id])
    ensures w.managed[ip].expiresAt == w.rows[id].expiresAt
    ensures w.managed[ip].nextRenewalAt == StoredRenewal(s, ip, w.rows[id].expiresAt)
    ensures id in w.h.activatedAt
            && w.managed[ip].lastSuccessAt * SECOND <= w.h.activatedAt[id] < (w.managed[ip].lastSuccessAt + 1) * SECOND
  {
    hide RowsOk, OneAtATime, Newest, Owners, Evidence, Records, Carriers, Markers, Creations, Holders, Snapshots, Saved,
      Creates, Orders, Retries, Placements, Paces, Trails, GiveUps, StoredRenewal;
    OpenInv(w, s);
    assert StageOk(w.managed, w.rows[id]);
    assert ManagedOk(w.rows, w.h.active, s, ip, w.managed[ip]);
    assert w.rows[w.h.active[ip]].createdAt == w.rows[id].createdAt;
    assert SuccessOk(w.managed[ip], w.h.activatedAt[w.h.active[ip]]);
  }

  /** Whether an operation in ACTIVE bears an error: exactly when it was written again after its activation, and then it
      is the error of the step that reported the activation as failed. */
  lemma ActiveBearsErrorExactly(w: World, s: Policy, id: string)
    requires Inv(w, s) && id in w.rows && w.rows[id].stage == Active
    ensures id in w.h.activatedAt && w.rows[id].createdAt <= w.h.activatedAt[id] <= w.rows[id].updatedAt
    ensures w.rows[id].errorMessage != "" <==> w.rows[id].updatedAt > w.h.activatedAt[id]
    ensures w.rows[id].errorMessage == "" ==> w.rows[id].errorCategory == "" && w.rows[id].recoveryMarker == ""
    ensures w.rows[id].errorMessage != "" ==> w.rows[id].errorMessage == STEP_FAILED
  {
    hide Moments, RowsOk, OneAtATime, Newest, Stages, Owners, Managements, Evidence, Records, Carriers, Markers,
      Creations, Holders, Snapshots, Saved, Creates, Orders, Retries, Placements, Paces, Trails, GiveUps, SuccessOk;
    OpenInv(w, s);
    assert ActiveOk(w.rows[id], w.h.activatedAt[id]);
  }

  /** A managed certificate is ACTIVE exactly while it bears no error, and always tells the second of the last
      activation of its address. */
  lemma ManagedErrorExactly(w: World, s: Policy, ip: string)
    requires Inv(w, s) && ip in w.managed
    ensures ip in w.h.active && w.h.active[ip] in w.h.activatedAt
    ensures w.managed[ip].state == Active <==> w.managed[ip].lastError == ""
    ensures w.managed[ip].state == Active ==>
            w.managed[ip].lastErrorCategory == "" && w.managed[ip].recoveryMarker == ""
    ensures var at := w.h.activatedAt[w.h.active[ip]];
            w.managed[ip].lastSuccessAt * SECOND <= at < (w.managed[ip].lastSuccessAt + 1) * SECOND
  {
    hide Moments, RowsOk, OneAtATime, Newest, Stages, Owners, Managements, Evidence, Records, Carriers, Markers,
      Creations, Holders, Snapshots, Saved, Creates, Orders, Retries, Placements, Paces, Trails, GiveUps, ActiveOk;
    OpenInv(w, s);
    assert SuccessOk(w.managed[ip], w.h.activatedAt[w.h.active[ip]]);
  }

  /** A snapshot that was ever published and is gone was confirmed, on the side its operation ended on, by a TLS check
      made since it was published. */
  lemma SnapshotGoneIsConfirmed(w: World, s: Policy, id: string)
    requires Inv(w, s) && id in w.h.saved && id !in w.snapshots
    ensures id in w.rows && w.h.saved[id].newFingerprint == w.rows[id].certFingerprint && id in w.h.savedAt
    ensures if w.rows[id].stage == Stage.Error
            then ShownSince(w.h.log, w.rows[id].ipv4, w.h.saved[id].oldFingerprint, w.h.savedAt[id])
            else HasCertificate(w.rows[id].stage)
                 && ShownSince(w.h.log, w.rows[id].ipv4, w.rows[id].certFingerprint, w.h.savedAt[id])
  {
    hide Moments, RowsOk, OneAtATime, Newest, Stages, Owners, Managements, Evidence, Records, Carriers, Markers,
      Creations, Holders, Snapshots, Creates, Orders, Retries, Placements, Activations, Paces, Trails, GiveUps;
    OpenInv(w, s);
    assert SavedOk(w.h.log, w.snapshots, id, w.h.saved[id], w.h.savedAt[id], w.rows[id]);
  }

  // ---------------------------------------------------------------- reachable stages

  /** An issue operation has a certificate exactly in the three stages that follow its creation, and a renewal or
      an active operation belongs to a managed address with the same target. */
  lemma CertificateExactlyWhenCreated(w: World, s: Policy, id: string)
    requires Inv(w, s) && id in w.rows
    ensures w.rows[id].kind == Issue ==> (w.rows[id].certID > 0 <==> HasCertificate(w.rows[id].stage))
    ensures w.rows[id].kind == Renew || w.rows[id].stage == Active ==>
              w.rows[id].ipv4 in w.managed && SameTarget(w.managed[w.rows[id].ipv4], w.rows[id])
  {
    hide Moments, RowsOk, OneAtATime, Newest, Owners, Managements, Evidence, Records, Carriers, Markers, Creations,
      Holders, Snapshots, Saved, Creates, Orders, Retries, Placements, Activations, Paces, Trails, GiveUps;
    OpenInv(w, s);
    assert StageOk(w.managed, w.rows[id]);
  }

  /** After recovery, everything an unmanaged address has are failed first issues: the refusal to order again for
      any other operation is unreachable. */
  lemma OnlyFirstIssueFailures(w: World, s: Policy, ip: string)
    requires Inv(w, s) && Settled(w) && ip !in w.managed
    ensures forall id <- w.rows :: w.rows[id].ipv4 == ip ==> IsFirstIssueFailure(w.rows[id])
  {
    hide Moments, RowsOk, OneAtATime, Newest, Owners, Managements, Evidence, Records, Carriers, Markers, Creations,
      Holders, Snapshots, Saved, Creates, Orders, Retries, Placements, Activations, Paces, Trails, GiveUps;
    OpenInv(w, s);
    forall id | id in w.rows && w.rows[id].ipv4 == ip
      ensures IsFirstIssueFailure(w.rows[id])
    {
      assert StageOk(w.managed, w.rows[id]);
    }
  }

  function Rank(stage: Stage): int
  {
    match stage
    case New => 0
    case Renewing => 0
    case ChallengePresent => 1
    case CertIssued => 2
    case CertCreated => 3
    case PolicyBound => 4
    case Active => 5
    case Error => 5
    case NeedsAttention => 6
  }

  /** The stages an operation went through are a path of the intended graph of its kind: the rank rises at every step,
      it is over in at most six stages, and only the last one can be final. */
  lemma {:induction false} StagesRise(w: World, s: Policy, id: string, i: nat, j: nat)
    requires Inv(w, s) && id in w.rows && id in w.h.trail && i < j < |w.h.trail[id]|
    ensures Rank(w.h.trail[id][i]) + (j - i) <= Rank(w.h.trail[id][j])
    ensures Inflight(w.h.trail[id][i])
    ensures |w.h.trail[id]| <= 6
    ensures IsPath(w.rows[id].kind, w.h.trail[id]) && w.h.trail[id][|w.h.trail[id]| - 1] == w.rows[id].stage
    decreases j - i
  {
    hide Moments, RowsOk, OneAtATime, Newest, Stages, Owners, Managements, Evidence, Records, Carriers, Markers,
      Creations, Holders, Snapshots, Saved, Creates, Orders, Retries, Placements, Activations, Paces, GiveUps;
    OpenInv(w, s);
    var t := w.h.trail[id];
    assert TrailOk(t, w.rows[id]);
    PathRises(w.rows[id].kind, t, i, j);
    PathRises(w.rows[id].kind, t, 0, |t| - 1);
  }

  lemma {:induction false} PathRises(kind: Kind, t: seq<Stage>, i: nat, j: nat)
    requires IsPath(kind, t) && i <= j < |t|
    ensures Rank(t[i]) + (j - i) <= Rank(t[j]) <= 6
    ensures i < j ==> Inflight(t[i]) && Rank(t[j]) <= 5
    decreases j - i
  {
    if i < j {
      assert Edge(kind, t[i], t[i + 1]);
      assert Edge(kind, t[j - 1], t[j]);
      PathRises(kind, t, i + 1, j);
    }
  }

  lemma ErrorIsLast(kind: Kind, t: seq<Stage>, i: nat)
    requires IsPath(kind, t) && i < |t| && t[i] == Stage.Error
    ensures i == |t| - 1
  {
    assert i + 1 < |t| ==> Edge(kind, t[i], t[i + 1]);
  }

  /** A created certificate is given up only by a renewal that published a snapshot, and that snapshot is still there
      or a TLS check made since confirmed its old certificate; a bound one is never given up. */
  lemma GivenUpOnlyUnderSnapshot(w: World, s: Policy, id: string, i: nat)
    requires Inv(w, s) && id in w.rows && id in w.h.trail && i + 1 < |w.h.trail[id]|
    requires w.h.trail[id][i] in {CertCreated, PolicyBound} && w.h.trail[id][i + 1] == Stage.Error
    ensures w.h.trail[id][i] == CertCreated && w.rows[id].kind == Renew && w.rows[id].stage == Stage.Error
    ensures id in w.h.saved && id in w.h.savedAt && w.h.saved[id].newFingerprint == w.rows[id].certFingerprint
    ensures id in w.snapshots || ShownSince(w.h.log, w.rows[id].ipv4, w.h.saved[id].oldFingerprint, w.h.savedAt[id])
  {
    hide Moments, RowsOk, OneAtATime, Newest, Stages, Owners, Managements, Evidence, Records, Carriers, Markers,
      Creations, Holders, Snapshots, Creates, Orders, Retries, Placements, Activations, Paces, ShownSince;
    OpenInv(w, s);
    var t := w.h.trail[id];
    assert TrailOk(t, w.rows[id]) && GivenUpOk(t, w.rows[id], id in w.h.saved);
    assert Edge(w.rows[id].kind, t[i], t[i + 1]);
    ErrorIsLast(w.rows[id].kind, t, i + 1);
    assert SavedOk(w.h.log, w.snapshots, id, w.h.saved[id], w.h.savedAt[id], w.rows[id]);
  }

  // ---------------------------------------------------------------- how fast orders may come

  /** The authority refused the order, and the refusal is recorded. */
  predicate Refused(o: Operation)
  {
    o.stage == Stage.Error && o.errorMessage == ORDER_FAILED
  }

  /** Renewal `b` is the next operation of its address after renewal `a`, whose order was refused. */
  predicate Follows(w: World, a: string, b: string)
  {
    && a in w.rows && b in w.rows && w.rows[a].kind == Renew && w.rows[b].kind == Renew
    && Refused(w.rows[a]) && b in w.h.previous && w.h.previous[b] == a
  }

  ghost predicate RefusedChain(w: World, ids: seq<string>)
  {
    && |ids| > 0 && ids[0] in w.rows
    && forall i, j :: 0 <= i && j == i + 1 && j < |ids| ==> Follows(w, ids[i], ids[j])
  }

  function CreatedAt(w: World, id: string): int { if id in w.rows then w.rows[id].createdAt else 0 }

  /** The instant at which the authority was asked. */
  function OrderedAt(w: World, id: string): int { if id in w.h.orderedAt then w.h.orderedAt[id] else 0 }

  function AttemptOf(w: World, id: string): int { if id in w.h.attempt then w.h.attempt[id] else 0 }

  function CountOf(w: World, id: string): int { if id in w.rows then w.rows[id].retryCount else 0 }

  /** The sum of `n` consecutive delays from attempt number `first`. */
  function DelaySum(s: Policy, first: int, n: nat): int
  {
    if n == 0 then 0 else DelaySum(s, first, n - 1) + s.Delay(first + n - 1)
  }

  lemma RetryFacts(w: World, s: Policy, id: string)
    requires Inv(w, s) && id in w.rows
    ensures RetryOk(w.h.attempt, w.h.failedAt, s, id, w.rows[id])
  {
    hide Moments, RowsOk, OneAtATime, Newest, Stages, Owners, Managements, Evidence, Records, Carriers, Markers,
      Creations, Holders, Snapshots, Saved, Creates, Orders, Placements, Activations, Paces, Trails, GiveUps, RetryOk;
    OpenInv(w, s);
  }

  lemma PaceFacts(w: World, s: Policy, a: string, b: string)
    requires Inv(w, s) && b in w.h.previous && w.h.previous[b] == a
    ensures a in w.rows && b in w.rows && b in w.h.attempt && PacedAfter(w.rows[a], w.rows[b], w.h.attempt[b])
  {
    hide Moments, RowsOk, OneAtATime, Newest, Stages, Owners, Managements, Evidence, Records, Carriers, Markers,
      Creations, Holders, Snapshots, Saved, Creates, Orders, Retries, Placements, Activations, Trails, GiveUps,
      PacedAfter;
    OpenInv(w, s);
  }

  /** Which failures store a backoff: those of an operation that had its leaf, with count 1, and those recorded as a
      refused order, which the authority did answer with a failure. An interrupted order and a chain that fails its
      checks store none. */
  lemma BackoffExactlyByCause(w: World, s: Policy, id: string)
    requires Inv(w, s) && id in w.rows && w.rows[id].stage == Stage.Error
    ensures w.rows[id].retryCount > 0 <==> w.rows[id].certFingerprint != "" || w.rows[id].errorMessage == ORDER_FAILED
    ensures w.rows[id].certFingerprint != "" ==> w.rows[id].retryCount == 1 && id !in w.h.deniedAt
    ensures w.rows[id].certFingerprint == "" && w.rows[id].retryCount > 0 ==>
              w.rows[id].retryCount == AttemptOf(w, id) + 1 && id in w.h.deniedAt
    ensures w.rows[id].retryCount <= 0 ==> w.rows[id].retryCount == 0 && w.rows[id].nextRetryAt == 0
    ensures w.rows[id].retryCount > 0 ==>
              && id in w.h.failedAt && id in w.h.orderedAt && w.h.orderedAt[id] <= w.h.failedAt[id]
              && (id in w.h.deniedAt ==> w.h.orderedAt[id] <= w.h.deniedAt[id] <= w.h.failedAt[id])
              && w.rows[id].nextRetryAt == StoredRetry(s, w.rows[id].retryCount - 1, w.h.failedAt[id])
  {
    hide Inv, StoredRetry;
    PlacementFacts(w, s, id);
    RetryFacts(w, s, id);
  }

  /** The plain failure writes delay nothing, whatever reachable state they are made in: the operation ends without a
      backoff, and its address may be ordered for again at once. */
  lemma PlainFailureDelaysNothing(w: World, s: Policy, id: string, patch: Patch, now: int)
    requires Inv(w, s) && id in w.rows && w.rows[id].stage in {New, Renewing, ChallengePresent} && now > w.now
    requires patch.SetFailure? && patch.message != ORDER_FAILED
    ensures var v := Moved(w, id, Stage.Error, patch, 0, now);
            Inv(v, s) && v.rows[id].stage == Stage.Error && RetryOf(v.rows[id]) == RetryInfo(0, 0)
  {
    RowFacts(w, s, id);
    MoveKeepsInv(w, s, id, Stage.Error, patch, 0, now);
    LeaflessUntilIssued(w, s, id);
    hide Inv;
  }

  lemma LeaflessUntilIssued(w: World, s: Policy, id: string)
    requires Inv(w, s) && id in w.rows && w.rows[id].stage in {New, Renewing, ChallengePresent}
    ensures w.rows[id].certFingerprint == "" && w.rows[id].retryCount == 0 && w.rows[id].nextRetryAt == 0
  {
    hide Inv, StoredRetry, RowOk, EvidenceOk, MadeOk, TrailOk, CarriesActive, SameTarget;
    RowFacts(w, s, id);
    RetryFacts(w, s, id);
  }

  /** Renewal `b` comes right after operation `a` of its address, and `a` failed with a backoff. */
  predicate FollowsFailure(w: World, a: string, b: string)
  {
    && a in w.rows && b in w.rows && w.rows[b].kind == Renew && b in w.h.previous && w.h.previous[b] == a
    && w.rows[a].stage == Stage.Error && w.rows[a].retryCount > 0
  }

  /** After any failure that stored a backoff, refused order, lost key or rollback alike, the next operation begins
      after the failure plus its delay, less the truncation to seconds, and continues its count; so do the orders of
      both. */
  lemma FailureDelaysNext(w: World, s: Policy, a: string, b: string)
    requires Inv(w, s) && FollowsFailure(w, a, b)
    ensures AttemptOf(w, b) == CountOf(w, a)
    ensures a in w.h.orderedAt && a in w.h.failedAt && CreatedAt(w, a) <= OrderedAt(w, a) <= w.h.failedAt[a]
    ensures CreatedAt(w, b) > w.h.failedAt[a] + s.Delay(CountOf(w, a) - 1) - SECOND
    ensures b in w.h.orderedAt ==> OrderedAt(w, b) > OrderedAt(w, a) + s.Delay(CountOf(w, a) - 1) - SECOND
  {
    hide Inv;
    BackoffExactlyByCause(w, s, a);
    PlacementFacts(w, s, a);
    PlacementFacts(w, s, b);
    PaceFacts(w, s, a, b);
    NextSecond(w.rows[b].createdAt, w.rows[a].nextRetryAt, w.h.failedAt[a] + s.Delay(CountOf(w, a) - 1));
  }

  lemma NextSecond(instant: int, seconds: int, due: int)
    requires seconds == Unix(due) && FromUnix(seconds) <= instant
    ensures instant > due - SECOND
  {
  }

  ghost predicate FailureChain(w: World, ids: seq<string>)
  {
    && |ids| > 0 && ids[0] in w.rows
    && forall i, j :: 0 <= i && j == i + 1 && j < |ids| ==> FollowsFailure(w, ids[i], ids[j])
  }

  /** The delays that all operations but the last stored. */
  function BackoffSum(w: World, s: Policy, ids: seq<string>): int
  {
    if |ids| <= 1 then 0 else BackoffSum(w, s, ids[..|ids| - 1]) + s.Delay(CountOf(w, ids[|ids| - 2]) - 1)
  }

  /** Orders of renewals that each follow a failure with a backoff, whatever its cause, span at least the sum of the
      stored delays, less under one second each, across crashes and restarts. */
  lemma {:induction false} FailureRateBound(w: World, s: Policy, ids: seq<string>)
    requires Inv(w, s) && FailureChain(w, ids) && ids[|ids| - 1] in w.h.orderedAt
    ensures OrderedAt(w, ids[|ids| - 1]) - OrderedAt(w, ids[0]) >= BackoffSum(w, s, ids) - (|ids| - 1) * SECOND
    decreases |ids|
  {
    hide Inv, FollowsFailure, CreatedAt, OrderedAt, AttemptOf, CountOf;
    var n := |ids|;
    if n > 1 {
      var shorter := ids[..n - 1];
      assert forall i :: 0 <= i < n - 1 ==> shorter[i] == ids[i];
      assert FollowsFailure(w, ids[n - 2], ids[n - 1]);
      FailureDelaysNext(w, s, ids[n - 2], ids[n - 1]);
      FailureRateBound(w, s, shorter);
    }
  }

  /** The next order comes after the recorded refusal plus its delay, less the truncation to seconds. */
  lemma RefusalDelaysNext(w: World, s: Policy, a: string, b: string)
    requires Inv(w, s) && Follows(w, a, b)
    ensures AttemptOf(w, b) == AttemptOf(w, a) + 1
    ensures a in w.h.orderedAt && a in w.h.failedAt && CreatedAt(w, a) <= OrderedAt(w, a) <= w.h.failedAt[a]
    ensures CreatedAt(w, b) > w.h.failedAt[a] + s.Delay(AttemptOf(w, a)) - SECOND
    ensures b in w.h.orderedAt ==> OrderedAt(w, b) > OrderedAt(w, a) + s.Delay(AttemptOf(w, a)) - SECOND
  {
    RefusedRowFailed(w, s, a);
    hide Inv;
    FailureDelaysNext(w, s, a, b);
  }

  lemma RefusedRowFailed(w: World, s: Policy, id: string)
    requires Inv(w, s) && id in w.rows && Refused(w.rows[id])
    ensures w.rows[id].stage == Stage.Error && w.rows[id].retryCount == AttemptOf(w, id) + 1 > 0
  {
    hide Inv, StoredRetry;
    RetryFacts(w, s, id);
  }

  /** Whatever crashes and restarts lie between them: the orders of `n` consecutive renewals, all but the last refused,
      span at least the sum of the first `n - 1` delays, less under one second each, and the attempt number grows by one
      each time. */
  lemma {:induction false} OrderRateBound(w: World, s: Policy, ids: seq<string>)
    requires Inv(w, s) && RefusedChain(w, ids)
    ensures AttemptOf(w, ids[|ids| - 1]) == AttemptOf(w, ids[0]) + |ids| - 1
    ensures ids[|ids| - 1] in w.h.orderedAt ==>
              OrderedAt(w, ids[|ids| - 1]) - OrderedAt(w, ids[0])
              >= DelaySum(s, AttemptOf(w, ids[0]), |ids| - 1) - (|ids| - 1) * SECOND
    decreases |ids|
  {
    hide Inv, Follows, CreatedAt, OrderedAt, AttemptOf;
    var n := |ids|;
    if n > 1 {
      var shorter := ids[..n - 1];
      assert forall i :: 0 <= i < n - 1 ==> shorter[i] == ids[i];
      assert Follows(w, ids[n - 2], ids[n - 1]);
      RefusalDelaysNext(w, s, ids[n - 2], ids[n - 1]);
      OrderRateBound(w, s, shorter);
    }
  }

  // ---------------------------------------------------------------- how refusals are counted

  /** Operation `b` is the next one of its address after `a`. */
  predicate Succeeds(w: World, a: string, b: string)
  {
    a in w.rows && b in w.rows && b in w.h.previous && w.h.previous[b] == a
  }

  /** A first order starts with attempt number zero, and every order after a failure with the count that it stored, a
      first issue as well as a renewal. */
  lemma NextContinuesCount(w: World, s: Policy, a: string, b: string)
    requires Inv(w, s) && Succeeds(w, a, b)
    ensures w.rows[a].stage == Stage.Error ==> AttemptOf(w, b) == CountOf(w, a)
    ensures w.rows[a].stage == Active ==> AttemptOf(w, b) == 0
    ensures w.rows[b].kind == Issue ==> w.rows[a].stage == Stage.Error
  {
    hide Inv;
    PaceFacts(w, s, a, b);
  }

  lemma FirstStartsAtZero(w: World, s: Policy, a: string)
    requires Inv(w, s) && a in w.rows && a !in w.h.previous
    ensures a in w.h.attempt && w.h.attempt[a] == 0 && w.rows[a].kind == Issue
  {
    hide Moments, RowsOk, OneAtATime, Newest, Stages, Owners, Managements, Evidence, Records, Carriers, Markers,
      Creations, Holders, Snapshots, Saved, Creates, Orders, Retries, Placements, Activations, Trails, GiveUps,
      PacedAfter;
    OpenInv(w, s);
  }

  /** Operations of one address in the order they were begun, each but perhaps the last refused by the authority. */
  ghost predicate RefusedInARow(w: World, ids: seq<string>)
  {
    && |ids| > 0 && ids[0] in w.rows
    && forall i, j :: 0 <= i && j == i + 1 && j < |ids| ==> Succeeds(w, ids[i], ids[j]) && Refused(w.rows[ids[i]])
  }

  /** Refusals of one address are counted one by one, whether first issues or renewals. */
  lemma {:induction false} RefusalsCountUp(w: World, s: Policy, ids: seq<string>)
    requires Inv(w, s) && RefusedInARow(w, ids)
    ensures ids[|ids| - 1] in w.rows && AttemptOf(w, ids[|ids| - 1]) == AttemptOf(w, ids[0]) + |ids| - 1
    ensures Refused(w.rows[ids[|ids| - 1]]) ==> CountOf(w, ids[|ids| - 1]) == AttemptOf(w, ids[0]) + |ids|
    decreases |ids|
  {
    hide Inv, AttemptOf;
    var n := |ids|;
    if n > 1 {
      var shorter := ids[..n - 1];
      assert forall i :: 0 <= i < n - 1 ==> shorter[i] == ids[i];
      assert Succeeds(w, ids[n - 2], ids[n - 1]) && Refused(w.rows[ids[n - 2]]);
      RefusalsCountUp(w, s, shorter);
      NextContinuesCount(w, s, ids[n - 2], ids[n - 1]);
    }
    if Refused(w.rows[ids[n - 1]]) {
      RefusedRowFailed(w, s, ids[n - 1]);
    }
  }

  /** The refused first issues of an address store counts 1, 2, 3 and so on, and the delays that belong to them, which
      never shrink. */
  lemma FirstIssuesBackOff(w: World, s: Policy, ids: seq<string>)
    requires Inv(w, s) && RefusedInARow(w, ids) && ids[0] !in w.h.previous
    requires ids[|ids| - 1] in w.rows && Refused(w.rows[ids[|ids| - 1]])
    ensures var n, id := |ids|, ids[|ids| - 1];
            && id in w.rows && w.rows[id].retryCount == n && id in w.h.failedAt
            && w.rows[id].nextRetryAt == Unix(w.h.failedAt[id] + s.Delay(n - 1))
            && s.retryMin <= s.Delay(0) <= s.Delay(n - 1) <= s.Delay(n)
  {
    hide Inv, Succeeds;
    RefusalsCountUp(w, s, ids);
    FirstStartsAtZero(w, s, ids[0]);
    RetryFacts(w, s, ids[|ids| - 1]);
    PolicyIsValid(w, s);
    DelayIsMonotone(s, 0, |ids| - 1);
    DelayIsMonotone(s, |ids| - 1, |ids|);
  }

  lemma PolicyIsValid(w: World, s: Policy)
    requires Inv(w, s)
    ensures s.Validate()
  {
    hide Moments, RowsOk, OneAtATime, Newest, Stages, Owners, Managements, Evidence, Records, Carriers, Markers,
      Creations, Holders, Snapshots, Saved, Creates, Orders, Retries, Placements, Activations, Paces, Trails, GiveUps;
    OpenInv(w, s);
  }

  // ---------------------------------------------------------------- when a managed address is ordered for again

  /** A renewal of the managed certificate, as the service would begin it. */
  predicate IsNextRenewal(w: World, op: Operation)
  {
    && op.kind == Renew && op.stage == Renewing && op.ipv4 != "" && op.ipv4 in w.managed
    && SameTarget(w.managed[op.ipv4], op)
    && IsOperationID(op.id) && op.id !in w.rows && op.marker == Marker(Renew, op.ipv4, op.id)
  }

  /** Once everything is recovered, only the stored instant decides: a renewal may begin exactly when it has passed,
      with the stored count, whatever category, message and marker the last failure left. */
  lemma OrderedAgainExactly(w: World, s: Policy, k: string, op: Operation, attempt: int, t: int)
    requires Inv(w, s) && Settled(w) && IsNextRenewal(w, op) && IsLatest(w.rows, op.ipv4, k) && 0 <= t && w.now <= t
    ensures MayCreate(w.(now := t), op, attempt)
            <==> FromUnix(RetryOf(w.rows[k]).nextAt) <= t && attempt == RetryOf(w.rows[k]).attempt
  {
    LatestIsNewest(w, s, op.ipv4, k);
    RetryFacts(w, s, k);
    hide Inv, Marker, IsOperationID, StoredRetry;
  }

  /** The newest operation by `updated_at` is the newest operation. */
  lemma LatestIsNewest(w: World, s: Policy, ip: string, k: string)
    requires Inv(w, s) && IsLatest(w.rows, ip, k)
    ensures ip in w.h.latest && w.h.latest[ip] == k
  {
    hide Moments, OneAtATime, Stages, Owners, Managements, Evidence, Records, Carriers, Markers, Creations, Holders,
      Snapshots, Saved, Creates, Orders, Retries, Placements, Activations, Paces, Trails, GiveUps, Marker,
      IsOperationID;
    OpenInv(w, s);
    assert RowOk(w.h.latest[ip], w.rows[w.h.latest[ip]], w.now);
  }

  /** After a plain failure of a renewal, of whatever category, the next renewal may begin at the very next instant. */
  lemma PlainFailureIsOrderedAgain(w: World, s: Policy, id: string, patch: Patch, now: int, op: Operation, later: int)
    requires Inv(w, s) && id in w.rows && w.rows[id].kind == Renew && w.rows[id].stage in {Renewing, ChallengePresent}
    requires patch.SetFailure? && patch.message != ORDER_FAILED && w.now < now < later && 0 <= now
    requires IsNextRenewal(w, op) && op.ipv4 == w.rows[id].ipv4
    ensures var v := Moved(w, id, Stage.Error, patch, 0, now);
            && v.rows[id].errorCategory == patch.category && RetryOf(v.rows[id]) == RetryInfo(0, 0)
            && Inv(v, s) && MayCreate(v, op, 0) && Inv(Created(v, op, 0, later), s)
  {
    PlainFailureDelaysNothing(w, s, id, patch, now);
    var v := Moved(w, id, Stage.Error, patch, 0, now);
    NothingLeft(w, s, id);
    NewestOfAll(w, s, id);
    hide Inv, IsOperationID, Marker;
    assert MayCreate(v, op, 0);
    CreateKeepsInv(v, s, op, 0, later);
  }

  /** While an operation waits for its leaf there is no snapshot, and nothing else is in flight. */
  lemma NothingLeft(w: World, s: Policy, id: string)
    requires Inv(w, s) && id in w.rows && w.rows[id].stage in {Renewing, ChallengePresent}
    ensures w.snapshots == map[] && forall k <- w.rows :: k != id ==> !Inflight(w.rows[k].stage)
  {
    hide Inv, RowOk, EvidenceOk, MadeOk, TrailOk, CarriesActive, SameTarget;
    RowFacts(w, s, id);
    SnapshotIsLast(w, s);
    assert w.snapshots.Keys == {};
    forall k | k in w.rows && k != id
      ensures !Inflight(w.rows[k].stage)
    {
      RowFacts(w, s, k);
    }
  }

  lemma NewestOfAll(w: World, s: Policy, id: string)
    requires Inv(w, s) && id in w.rows && Inflight(w.rows[id].stage)
    ensures w.rows[id].ipv4 in w.h.latest && w.h.latest[w.rows[id].ipv4] == id
  {
    hide Moments, RowsOk, Stages, Owners, Managements, Evidence, Records, Carriers, Markers, Creations, Holders,
      Snapshots, Saved, Creates, Orders, Retries, Placements, Activations, Paces, Trails, GiveUps;
    OpenInv(w, s);
  }

  /** Before an address is managed, its orders are bounded by its manual runs, plus one if it ever had an interactive
      run; timer runs pay for none. */
  lemma FirstIssuePause(w: World, s: Policy, ip: string)
    requires Inv(w, s) && ip !in w.managed
    ensures w.h.log[ObtainCalled(ip)] <= Budget(w.h.log, ip)
    ensures ip !in w.h.latest ==> w.h.log[ObtainCalled(ip)] == 0
  {
    hide Moments, RowsOk, OneAtATime, Newest, Stages, Owners, Managements, Evidence, Records, Carriers, Markers,
      Creations, Holders, Snapshots, Saved, Creates, Retries, Placements, Activations, Paces, Trails, GiveUps;
    OpenInv(w, s);
  }
}
