/** What one rewritten row of the operation log leaves intact, one part of the invariant at a time. */
module LifecycleRows {
  import opened Operations
  import opened GoEdge
  import opened Rollback
  import opened Scheduler
  import opened Lifecycle

  lemma RewriteKeepsRowsOk(rows: Rows, now: int, id: string, o: Operation, later: int)
    requires RowsOk(rows, now) && id in rows && Kept(rows[id], o) && now <= later && o.updatedAt <= later
    ensures RowsOk(rows[id := o], later)
  {
    hide Marker, IsOperationID;
  }

  lemma RewriteKeepsOneAtATime(rows: Rows, last: string, id: string, o: Operation)
    requires OneAtATime(rows, last) && id in rows && Kept(rows[id], o)
    requires id == last || o.updatedAt == rows[id].updatedAt
    ensures OneAtATime(rows[id := o], last)
  {
  }

  /** The newest operation of all is the newest of its address, and no other operation follows it. */
  lemma LastIsLatest(rows: Rows, latest: map<string, string>, last: string)
    requires OneAtATime(rows, last) && Newest(rows, latest) && last in rows
    ensures rows[last].ipv4 in latest && latest[rows[last].ipv4] == last
  {
    var n := latest[rows[last].ipv4];
    assert n in rows && (n == last || Before(rows[n], rows[last]));
  }

  lemma NothingFollowsLast(rows: Rows, previous: map<string, string>, attempt: map<string, int>, last: string)
    requires OneAtATime(rows, last) && Paces(rows, previous, attempt)
    ensures forall k <- previous :: previous[k] != last
  {
    forall k | k in previous
      ensures previous[k] != last
    {
      assert PacedAfter(rows[previous[k]], rows[k], attempt[k]);
      assert k == last || Before(rows[k], rows[last]);
    }
  }

  lemma RewriteKeepsBefore(a: Operation, b: Operation, c: Operation, d: Operation)
    requires Before(a, b) && Kept(a, c) && a.updatedAt == c.updatedAt && d.createdAt == b.createdAt
    ensures Before(c, d)
  {
  }

  lemma RewriteKeepsNewest(rows: Rows, latest: map<string, string>, id: string, o: Operation)
    requires Newest(rows, latest) && id in rows && Kept(rows[id], o)
    requires o.updatedAt == rows[id].updatedAt || latest[rows[id].ipv4] == id
    ensures Newest(rows[id := o], latest)
  {
    var v := rows[id := o];
    assert forall k <- rows :: v[k].ipv4 == rows[k].ipv4 && v[k].createdAt == rows[k].createdAt;
    hide Before, Kept;
    forall k | k in v && k != latest[v[k].ipv4]
      ensures Before(v[k], v[latest[v[k].ipv4]])
    {
      assert Before(rows[k], rows[latest[rows[k].ipv4]]);
      KeptIsReflexive(rows[k]);
      RewriteKeepsBefore(rows[k], rows[latest[rows[k].ipv4]], v[k], v[latest[v[k].ipv4]]);
    }
  }

  lemma KeptIsReflexive(a: Operation)
    ensures Kept(a, a)
  {
  }

  lemma RewriteKeepsMoments(rows: Rows, moment: map<int, string>, id: string, o: Operation)
    requires Moments(rows, moment) && id in rows && o.createdAt == rows[id].createdAt
    ensures Moments(rows[id := o], moment)
  {
  }

  lemma RewriteKeepsStages(rows: Rows, managed: map<string, ManagedCert>, id: string, o: Operation)
    requires Stages(rows, managed) && id in rows && StageOk(managed, o)
    ensures Stages(rows[id := o], managed)
  {
    hide StageOk;
  }

  lemma RewriteKeepsOwners(rows: Rows, owner: map<string, string>, issued: set<string>, id: string, o: Operation)
    requires Owners(rows, owner, issued) && id in rows && Kept(rows[id], o)
    requires o.certFingerprint == rows[id].certFingerprint
    ensures Owners(rows[id := o], owner, issued)
  {
  }

  lemma FirstLeafKeepsOwners(rows: Rows, owner: map<string, string>, issued: set<string>, id: string, o: Operation)
    requires Owners(rows, owner, issued) && id in rows && rows[id].certFingerprint == ""
    requires o.certFingerprint != "" && o.certFingerprint in issued && o.certFingerprint !in owner
    ensures Owners(rows[id := o], owner[o.certFingerprint := id], issued)
  {
  }

  lemma FirstLeafKeepsRecords(certs: map<int, CertificateConfig>, owner: map<string, string>, carrier: map<int, string>,
                              issued: set<string>, fingerprint: string, id: string)
    requires Records(certs, owner, carrier, issued)
    requires forall c <- certs :: Fingerprint(certs[c].certData) != fingerprint
    ensures Records(certs, owner[fingerprint := id], carrier, issued)
  {
  }

  lemma RewriteKeepsManagements(rows: Rows, managed: map<string, ManagedCert>, active: map<string, string>, s: Policy,
                                id: string, o: Operation)
    requires Managements(rows, managed, active, s) && id in rows && Kept(rows[id], o)
    requires rows[id].stage == Active ==> o.expiresAt == rows[id].expiresAt && o.certID == rows[id].certID
    requires o.stage == Active ==> rows[id].stage == Active
    ensures Managements(rows[id := o], managed, active, s)
  {
    hide StoredRenewal;
    var v := rows[id := o];
    forall ip | ip in managed
      ensures ManagedOk(v, active, s, ip, managed[ip])
    {
      assert ManagedOk(rows, active, s, ip, managed[ip]);
    }
  }

  lemma RewriteKeepsEvidence(rows: Rows, log: multiset<Event>, id: string, o: Operation)
    requires Evidence(rows, log) && id in rows && EvidenceOk(log, o)
    ensures Evidence(rows[id := o], log)
  {
    hide EvidenceOk;
  }

  lemma RewriteKeepsCarriers(certs: map<int, CertificateConfig>, rows: Rows, made: map<string, int>,
                             carrier: map<int, string>, id: string, o: Operation)
    requires Carriers(certs, rows, made, carrier) && id in rows && Kept(rows[id], o)
    requires o.kind == Renew ==> o.certID == rows[id].certID
    ensures Carriers(certs, rows[id := o], made, carrier)
  {
    forall c | c in carrier
      ensures CarrierOk(certs, rows[id := o], made, c, carrier[c])
    {
      assert CarrierOk(certs, rows, made, c, carrier[c]);
    }
  }

  lemma RewriteKeepsMarkers(certs: map<int, CertificateConfig>, rows: Rows, made: map<string, int>,
                            marks: map<string, string>, id: string, o: Operation)
    requires Markers(certs, rows, made, marks) && id in rows && Kept(rows[id], o)
    ensures Markers(certs, rows[id := o], made, marks)
  {
  }

  lemma RewriteKeepsCreations(rows: Rows, made: map<string, int>, carrier: map<int, string>, id: string, o: Operation)
    requires Creations(rows, made, carrier) && id in rows && (o.kind == Issue ==> MadeOk(made, carrier, id, o))
    ensures Creations(rows[id := o], made, carrier)
  {
    hide MadeOk;
  }

  lemma RewriteKeepsHolders(rows: Rows, managed: map<string, ManagedCert>, active: map<string, string>,
                            carrier: map<int, string>, snapshots: map<string, Snapshot>, id: string, o: Operation)
    requires Holders(rows, managed, active, carrier, snapshots) && id in rows && Kept(rows[id], o)
    requires o.kind == Renew && rows[id].stage in {CertCreated, PolicyBound} ==>
               o.stage in {CertCreated, PolicyBound} || id in snapshots
               || (o.ipv4 in active && active[o.ipv4] == id)
    requires o.kind == Renew && o.stage in {CertCreated, PolicyBound} && id !in snapshots ==>
               o.certID in carrier && carrier[o.certID] == id
    ensures Holders(rows[id := o], managed, active, carrier, snapshots)
  {
    forall ip | ip in managed
      ensures HolderOk(rows[id := o], active, carrier, snapshots, ip, managed[ip].certID)
    {
      assert HolderOk(rows, active, carrier, snapshots, ip, managed[ip].certID);
    }
  }

  lemma RewriteKeepsSnapshots(rows: Rows, active: map<string, string>, certs: map<int, CertificateConfig>,
                              carrier: map<int, string>, last: string, snapshots: map<string, Snapshot>,
                              id: string, o: Operation)
    requires Snapshots(rows, active, certs, carrier, last, snapshots) && id in rows && Kept(rows[id], o)
    requires id in snapshots ==>
               && o.stage in {CertIssued, CertCreated, Stage.Error}
               && (o.stage == Stage.Error && o.ipv4 in active && o.certID in carrier ==>
                     carrier[o.certID] == active[o.ipv4])
    ensures Snapshots(rows[id := o], active, certs, carrier, last, snapshots)
  {
    hide IsOperationID, InputFromConfig;
    forall k | k in snapshots
      ensures SnapshotOk(rows[id := o], active, certs, carrier, last, k, snapshots[k])
    {
      assert SnapshotOk(rows, active, certs, carrier, last, k, snapshots[k]);
    }
  }

  lemma RewriteKeepsSaved(rows: Rows, log: multiset<Event>, snapshots: map<string, Snapshot>,
                          saved: map<string, Snapshot>, savedAt: map<string, int>, id: string, o: Operation)
    requires Saved(rows, log, snapshots, saved, savedAt) && id in rows && Kept(rows[id], o)
    requires o.certFingerprint == rows[id].certFingerprint || id !in saved
    requires rows[id].stage != o.stage && o.stage == Stage.Error ==> id in snapshots || id !in saved
    requires HasCertificate(rows[id].stage) ==> HasCertificate(o.stage) || o.stage == Stage.Error
    ensures Saved(rows[id := o], log, snapshots, saved, savedAt)
  {
    hide ShownSince;
    forall k | k in saved
      ensures SavedOk(log, snapshots, k, saved[k], savedAt[k], rows[id := o][k])
    {
      assert SavedOk(log, snapshots, k, saved[k], savedAt[k], rows[k]);
    }
  }

  lemma RewriteKeepsCreates(rows: Rows, log: multiset<Event>, id: string, o: Operation)
    requires Creates(rows, log) && id in rows && Kept(rows[id], o)
    requires o.kind == Issue && o.stage in {New, ChallengePresent} ==> rows[id].stage in {New, ChallengePresent}
    ensures Creates(rows[id := o], log)
  {
  }

  lemma RewriteKeepsRetries(rows: Rows, attempt: map<string, int>, failedAt: map<string, int>,
                            s: Policy, id: string, o: Operation)
    requires Retries(rows, attempt, failedAt, s) && id in rows
    requires o.retryCount == rows[id].retryCount && o.nextRetryAt == rows[id].nextRetryAt && Kept(rows[id], o)
    requires rows[id].stage == Stage.Error ==>
               && o.certFingerprint == rows[id].certFingerprint
               && (o.errorMessage == rows[id].errorMessage
                  || (o.certFingerprint != "" && o.errorMessage != ORDER_FAILED))
    requires rows[id].stage != Stage.Error && o.stage == Stage.Error ==>
               o.certFingerprint == "" && o.errorMessage != ORDER_FAILED
    ensures Retries(rows[id := o], attempt, failedAt, s)
  {
    hide StoredRetry;
    forall k | k in rows
      ensures RetryOk(attempt, failedAt, s, k, rows[id := o][k])
    {
      assert RetryOk(attempt, failedAt, s, k, rows[k]);
    }
  }

  lemma BackoffKeepsRetries(rows: Rows, attempt: map<string, int>, failedAt: map<string, int>,
                            s: Policy, id: string, o: Operation, at: int)
    requires Retries(rows, attempt, failedAt, s) && id in rows && Kept(rows[id], o)
    requires rows[id].stage != Stage.Error && o.stage == Stage.Error && o.retryCount > 0
    requires o.retryCount == if o.certFingerprint != "" then 1 else if id in attempt then attempt[id] + 1 else 0
    requires o.errorMessage == ORDER_FAILED <==> o.certFingerprint == ""
    requires o.createdAt <= at <= o.updatedAt && o.nextRetryAt == StoredRetry(s, o.retryCount - 1, at)
    ensures Retries(rows[id := o], attempt, failedAt[id := at], s)
  {
    hide StoredRetry;
    forall k | k in rows
      ensures RetryOk(attempt, failedAt[id := at], s, k, rows[id := o][k])
    {
      assert RetryOk(attempt, failedAt, s, k, rows[k]);
    }
  }

  lemma RewriteKeepsPlacements(rows: Rows, orderedAt: map<string, int>, deniedAt: map<string, int>,
                               failedAt: map<string, int>, now: int, id: string, o: Operation,
                               failed: map<string, int>, later: int)
    requires Placements(rows, orderedAt, deniedAt, failedAt, now) && id in rows && now <= later
    requires failed == failedAt || failed == failedAt[id := if id in failed then failed[id] else 0]
    requires PlacementOk(orderedAt, deniedAt, failed, later, id, o)
    ensures Placements(rows[id := o], orderedAt, deniedAt, failed, later)
  {
    forall k | k in rows
      ensures PlacementOk(orderedAt, deniedAt, failed, later, k, rows[id := o][k])
    {
      assert PlacementOk(orderedAt, deniedAt, failedAt, now, k, rows[k]);
    }
  }

  lemma TickKeepsPlacements(rows: Rows, orderedAt: map<string, int>, deniedAt: map<string, int>,
                            failedAt: map<string, int>, now: int, later: int)
    requires Placements(rows, orderedAt, deniedAt, failedAt, now) && now <= later
    ensures Placements(rows, orderedAt, deniedAt, failedAt, later)
  {
  }

  lemma RewriteKeepsActivations(rows: Rows, managed: map<string, ManagedCert>, active: map<string, string>,
                                activatedAt: map<string, int>, id: string, o: Operation)
    requires Activations(rows, managed, active, activatedAt) && id in rows
    requires o.stage == Active ==>
               rows[id].stage == Active && id in activatedAt
               && (ActiveOk(rows[id], activatedAt[id]) ==> ActiveOk(o, activatedAt[id]))
    ensures Activations(rows[id := o], managed, active, activatedAt)
  {
    hide ActiveOk, SuccessOk;
  }

  lemma RewriteKeepsPaces(rows: Rows, previous: map<string, string>, attempt: map<string, int>, id: string,
                          o: Operation)
    requires Paces(rows, previous, attempt) && id in rows && Kept(rows[id], o)
    requires o.updatedAt == rows[id].updatedAt || forall k <- previous :: previous[k] != id
    ensures Paces(rows[id := o], previous, attempt)
  {
    hide FromUnix;
    var v := rows[id := o];
    forall k | k in previous
      ensures k in v && previous[k] in v && k in attempt && PacedAfter(v[previous[k]], v[k], attempt[k])
    {
      assert PacedAfter(rows[previous[k]], rows[k], attempt[k]);
    }
  }

  lemma RewriteKeepsTrails(rows: Rows, trail: map<string, seq<Stage>>, id: string, o: Operation)
    requires Trails(rows, trail) && id in rows && o.kind == rows[id].kind && o.stage == rows[id].stage
    ensures Trails(rows[id := o], trail)
  {
    hide IsPath;
  }

  lemma AdvanceKeepsTrails(rows: Rows, trail: map<string, seq<Stage>>, id: string, o: Operation)
    requires Trails(rows, trail) && id in rows && o.kind == rows[id].kind && Edge(o.kind, rows[id].stage, o.stage)
    ensures Trails(rows[id := o], trail[id := trail[id] + [o.stage]])
    ensures TrailsKept(trail, trail[id := trail[id] + [o.stage]])
  {
    hide Edge;
    var t := trail[id] + [o.stage];
    assert TrailOk(trail[id], rows[id]);
    assert TrailOk(t, o);
    hide IsPath;
  }

  lemma RewriteKeepsGiveUps(rows: Rows, trail: map<string, seq<Stage>>, saved: map<string, Snapshot>, id: string,
                            o: Operation)
    requires GiveUps(rows, trail, saved) && id in rows && o.kind == rows[id].kind && o.stage == rows[id].stage
    ensures GiveUps(rows[id := o], trail, saved)
  {
  }

  lemma AdvanceKeepsGiveUps(rows: Rows, trail: map<string, seq<Stage>>, saved: map<string, Snapshot>, id: string,
                            o: Operation)
    requires GiveUps(rows, trail, saved) && id in rows && o.kind == rows[id].kind
             && Edge(o.kind, rows[id].stage, o.stage)
    requires rows[id].stage == CertCreated && o.stage == Stage.Error ==> id in saved
    ensures GiveUps(rows[id := o], trail[id := trail[id] + [o.stage]], saved)
  {
  }

  // ---------------------------------------------------------------- a new row

  lemma InsertKeepsRowsOk(rows: Rows, now: int, id: string, o: Operation, later: int)
    requires RowsOk(rows, now) && now <= later && RowOk(id, o, later)
    ensures RowsOk(rows[id := o], later)
  {
    hide Marker, IsOperationID;
  }

  lemma InsertKeepsOneAtATime(rows: Rows, now: int, id: string, o: Operation)
    requires RowsOk(rows, now) && id !in rows && now < o.createdAt
    requires forall k <- rows :: !Inflight(rows[k].stage)
    ensures OneAtATime(rows[id := o], id)
  {
    hide Marker, IsOperationID;
    forall k | k in rows
      ensures Before(rows[k], o)
    {
      assert RowOk(k, rows[k], now);
    }
  }

  lemma InsertKeepsNewest(rows: Rows, latest: map<string, string>, id: string, o: Operation)
    requires Newest(rows, latest) && id !in rows
    requires OneAtATime(rows[id := o], id)
    ensures Newest(rows[id := o], latest[o.ipv4 := id])
  {
    var v, l := rows[id := o], latest[o.ipv4 := id];
    forall k | k in v
      ensures v[k].ipv4 in l && l[v[k].ipv4] in v && (k == l[v[k].ipv4] || Before(v[k], v[l[v[k].ipv4]]))
    {
      assert k == id || Before(v[k], v[id]);
      if k != id {
        assert k == latest[rows[k].ipv4] || Before(rows[k], rows[latest[rows[k].ipv4]]);
      }
    }
  }

  lemma InsertKeepsMoments(rows: Rows, moment: map<int, string>, now: int, id: string, o: Operation)
    requires Moments(rows, moment) && RowsOk(rows, now) && id !in rows && o.createdAt > now
    ensures Moments(rows[id := o], moment[o.createdAt := id])
  {
    hide Marker, IsOperationID;
    forall k | k in rows
      ensures rows[k].createdAt < o.createdAt
    {
      assert RowOk(k, rows[k], now);
    }
  }

  lemma InsertKeepsStages(rows: Rows, managed: map<string, ManagedCert>, log: multiset<Event>, id: string, o: Operation)
    requires Stages(rows, managed) && Evidence(rows, log) && StageOk(managed, o) && o.stage in {New, Renewing}
    ensures Stages(rows[id := o], managed) && Evidence(rows[id := o], log)
  {
    hide StageOk;
  }

  lemma InsertKeepsOwners(rows: Rows, owner: map<string, string>, issued: set<string>, id: string, o: Operation)
    requires Owners(rows, owner, issued) && id !in rows && o.certFingerprint == ""
    ensures Owners(rows[id := o], owner, issued)
  {
  }

  lemma InsertKeepsManagements(rows: Rows, managed: map<string, ManagedCert>, active: map<string, string>, s: Policy,
                               id: string, o: Operation)
    requires Managements(rows, managed, active, s) && id !in rows && o.stage != Active
    ensures Managements(rows[id := o], managed, active, s)
  {
    hide StoredRenewal;
    forall ip | ip in managed
      ensures ManagedOk(rows[id := o], active, s, ip, managed[ip])
    {
      assert ManagedOk(rows, active, s, ip, managed[ip]);
    }
  }

  lemma InsertKeepsCarriers(certs: map<int, CertificateConfig>, rows: Rows, made: map<string, int>,
                            carrier: map<int, string>, id: string, o: Operation)
    requires Carriers(certs, rows, made, carrier) && id !in rows
    ensures Carriers(certs, rows[id := o], made, carrier)
  {
    hide Carries;
    forall c | c in carrier
      ensures CarrierOk(certs, rows[id := o], made, c, carrier[c])
    {
      assert CarrierOk(certs, rows, made, c, carrier[c]);
    }
  }

  lemma InsertKeepsMarkers(certs: map<int, CertificateConfig>, rows: Rows, made: map<string, int>,
                           marks: map<string, string>, id: string, o: Operation)
    requires Markers(certs, rows, made, marks) && id !in rows
    requires o.kind == Issue ==> o.marker !in marks && forall c <- certs :: certs[c].name != o.marker
    ensures Markers(certs, rows[id := o], made, if o.kind == Issue then marks[o.marker := id] else marks)
    ensures id !in made
  {
  }

  lemma InsertKeepsCreations(rows: Rows, made: map<string, int>, carrier: map<int, string>, id: string, o: Operation)
    requires Creations(rows, made, carrier) && id !in made && o.stage in {New, Renewing}
    ensures Creations(rows[id := o], made, carrier)
  {
  }

  lemma InsertKeepsHolders(rows: Rows, managed: map<string, ManagedCert>, active: map<string, string>,
                           carrier: map<int, string>, id: string, o: Operation)
    requires Holders(rows, managed, active, carrier, map[]) && id !in rows && o.stage in {New, Renewing}
    ensures Holders(rows[id := o], managed, active, carrier, map[])
  {
    forall ip | ip in managed
      ensures HolderOk(rows[id := o], active, carrier, map[], ip, managed[ip].certID)
    {
      assert HolderOk(rows, active, carrier, map[], ip, managed[ip].certID);
    }
  }

  lemma InsertKeepsSaved(rows: Rows, log: multiset<Event>, saved: map<string, Snapshot>, savedAt: map<string, int>,
                         id: string, o: Operation)
    requires Saved(rows, log, map[], saved, savedAt) && Creates(rows, log) && id !in rows
    ensures Saved(rows[id := o], log, map[], saved, savedAt) && Creates(rows[id := o], log)
  {
    hide ShownSince;
    forall k | k in saved
      ensures SavedOk(log, map[], k, saved[k], savedAt[k], rows[id := o][k])
    {
      assert SavedOk(log, map[], k, saved[k], savedAt[k], rows[k]);
    }
  }

  lemma InsertKeepsRetries(rows: Rows, attempt: map<string, int>, failedAt: map<string, int>,
                           s: Policy, id: string, o: Operation, n: int)
    requires Retries(rows, attempt, failedAt, s) && id !in rows && n >= 0
    requires o.retryCount == 0 && o.nextRetryAt == 0 && o.stage != Stage.Error
    ensures Retries(rows[id := o], attempt[id := n], failedAt, s)
  {
    hide StoredRetry;
    forall k | k in rows
      ensures RetryOk(attempt[id := n], failedAt, s, k, rows[k])
    {
      assert RetryOk(attempt, failedAt, s, k, rows[k]);
    }
  }

  lemma InsertKeepsPlacements(rows: Rows, orderedAt: map<string, int>, deniedAt: map<string, int>,
                              failedAt: map<string, int>, now: int, id: string, o: Operation, later: int)
    requires Placements(rows, orderedAt, deniedAt, failedAt, now) && id !in rows && now <= later
    requires o.certFingerprint == "" && o.stage != Stage.Error
    ensures Placements(rows[id := o], orderedAt, deniedAt, failedAt, later)
  {
    TickKeepsPlacements(rows, orderedAt, deniedAt, failedAt, now, later);
  }

  lemma InsertKeepsActivations(rows: Rows, managed: map<string, ManagedCert>, active: map<string, string>,
                               activatedAt: map<string, int>, id: string, o: Operation)
    requires Activations(rows, managed, active, activatedAt) && o.stage != Active
    ensures Activations(rows[id := o], managed, active, activatedAt)
  {
    hide ActiveOk, SuccessOk;
  }

  lemma InsertKeepsPaces(rows: Rows, previous: map<string, string>, attempt: map<string, int>, latest: map<string,
                         string>,
                         id: string, o: Operation, n: int)
    requires Paces(rows, previous, attempt) && id !in rows
    requires o.ipv4 in latest ==>
               latest[o.ipv4] in rows && PacedAfter(rows[latest[o.ipv4]], o, n)
    requires o.kind == Renew ==> o.ipv4 in latest
    requires o.ipv4 in latest || (n == 0 && id !in previous)
    ensures Paces(rows[id := o], if o.ipv4 in latest then previous[id := latest[o.ipv4]] else previous,
                  attempt[id := n])
  {
    hide FromUnix, PacedAfter;
    forall k | k in previous
      ensures k in rows && previous[k] in rows && k in attempt && PacedAfter(rows[previous[k]], rows[k], attempt[k])
    {
    }
  }

  lemma InsertKeepsTrails(rows: Rows, trail: map<string, seq<Stage>>, id: string, o: Operation)
    requires Trails(rows, trail) && id !in rows && o.stage == (if o.kind == Issue then New else Renewing)
    ensures Trails(rows[id := o], trail[id := [o.stage]]) && TrailsKept(trail, trail[id := [o.stage]])
  {
    assert TrailOk([o.stage], o);
    hide IsPath;
  }

  lemma InsertKeepsGiveUps(rows: Rows, trail: map<string, seq<Stage>>, saved: map<string, Snapshot>, id: string,
                           o: Operation)
    requires GiveUps(rows, trail, saved) && o.stage in {New, Renewing}
    ensures GiveUps(rows[id := o], trail[id := [o.stage]], saved)
  {
  }
}
