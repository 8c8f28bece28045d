/** The writes to GoEdge records and to the snapshot directory, as steps on the world. */
module LifecycleEdge {
  import opened Operations
  import opened GoEdge
  import opened Rollback
  import opened Scheduler
  import opened Lifecycle
  import opened LifecycleSteps
  import opened LifecycleOrders

  /** The input carries the certificate of the operation. */
  predicate InputCarries(input: CertificateInput, o: Operation)
  {
    && o.certFingerprint != "" && input.certData == Leaf(o.certFingerprint) && input.timeEndAt == o.expiresAt
    && input.dnsNames == [o.ipv4] && !input.isCA && input.keyData != ""
  }

  // ---------------------------------------------------------------- a created record

  function RecordMade(w: World, id: string, input: CertificateInput, c: int): World
  {
    w.(certs := w.certs[c := Stored(input.(id := c), false)],
    h := w.h.(made := w.h.made[id := c], carrier := w.h.carrier[c := id]))
  }

  ghost predicate MayMake(w: World, id: string, input: CertificateInput, c: int)
  {
    && id in w.rows && w.rows[id].kind == Issue && w.rows[id].stage == CertIssued && id !in w.h.made
    && c > 0 && c !in w.certs && input.name == w.rows[id].marker && InputCarries(input, w.rows[id])
  }

  lemma MakeKeepsRecords(w: World, id: string, input: CertificateInput, c: int)
    requires Records(w.certs, w.h.owner, w.h.carrier, w.issued) && Owners(w.rows, w.h.owner, w.issued)
    requires MayMake(w, id, input, c)
    ensures var v := RecordMade(w, id, input, c); Records(v.certs, v.h.owner, v.h.carrier, v.issued)
  {
  }

  lemma MakeKeepsCarriers(w: World, id: string, input: CertificateInput, c: int)
    requires Carriers(w.certs, w.rows, w.h.made, w.h.carrier) && MayMake(w, id, input, c)
    ensures var v := RecordMade(w, id, input, c); Carriers(v.certs, v.rows, v.h.made, v.h.carrier)
    ensures c !in w.h.carrier
  {
    var v := RecordMade(w, id, input, c);
    forall k | k in w.h.carrier
      ensures k in w.certs && CarrierOk(v.certs, v.rows, v.h.made, k, v.h.carrier[k])
    {
      assert CarrierOk(w.certs, w.rows, w.h.made, k, w.h.carrier[k]);
    }
  }

  lemma MakeKeepsMarkers(w: World, id: string, input: CertificateInput, c: int)
    requires Markers(w.certs, w.rows, w.h.made, w.h.marks) && MayMake(w, id, input, c)
    ensures var v := RecordMade(w, id, input, c); Markers(v.certs, v.rows, v.h.made, v.h.marks)
  {
  }

  lemma MakeKeepsHolders(w: World, id: string, input: CertificateInput, c: int)
    requires Holders(w.rows, w.managed, w.h.active, w.h.carrier, w.snapshots)
    requires MayMake(w, id, input, c) && c !in w.h.carrier
    ensures var v := RecordMade(w, id, input, c); Holders(v.rows, v.managed, v.h.active, v.h.carrier, v.snapshots)
  {
    var v := RecordMade(w, id, input, c);
    forall ip | ip in w.managed
      ensures HolderOk(v.rows, v.h.active, v.h.carrier, v.snapshots, ip, v.managed[ip].certID)
    {
      assert HolderOk(w.rows, w.h.active, w.h.carrier, w.snapshots, ip, w.managed[ip].certID);
    }
  }

  lemma MakeKeepsSnapshots(w: World, id: string, input: CertificateInput, c: int)
    requires Snapshots(w.rows, w.h.active, w.certs, w.h.carrier, w.h.last, w.snapshots)
    requires MayMake(w, id, input, c) && c !in w.h.carrier
    ensures var v := RecordMade(w, id, input, c);
            Snapshots(v.rows, v.h.active, v.certs, v.h.carrier, v.h.last, v.snapshots)
  {
    var v := RecordMade(w, id, input, c);
    hide SnapshotMatches, SnapshotSafe, SnapshotSide;
    forall k | k in w.snapshots
      ensures SnapshotOk(v.rows, v.h.active, v.certs, v.h.carrier, v.h.last, k, v.snapshots[k])
    {
      assert SnapshotOk(w.rows, w.h.active, w.certs, w.h.carrier, w.h.last, k, w.snapshots[k]);
    }
  }

  lemma MakeKeepsCreations(w: World, id: string, input: CertificateInput, c: int)
    requires Creations(w.rows, w.h.made, w.h.carrier) && MayMake(w, id, input, c) && c !in w.h.carrier
    ensures var v := RecordMade(w, id, input, c); Creations(v.rows, v.h.made, v.h.carrier)
  {
    var v := RecordMade(w, id, input, c);
    forall k | k in w.rows && w.rows[k].kind == Issue
      ensures MadeOk(v.h.made, v.h.carrier, k, v.rows[k])
    {
      assert MadeOk(w.h.made, w.h.carrier, k, w.rows[k]);
    }
  }

  /** The record created for an issue operation keeps the invariant. */
  lemma MakeKeepsInv(w: World, s: Policy, id: string, input: CertificateInput, c: int)
    requires Inv(w, s) && MayMake(w, id, input, c)
    ensures Inv(RecordMade(w, id, input, c), s) && Later(w, RecordMade(w, id, input, c))
  {
    hide Moments, RowsOk, OneAtATime, Newest, Stages, Owners, Managements, Evidence, Records, Carriers, Markers,
      Creations, Holders, Snapshots, Saved, Creates, Orders, Retries, Placements, Activations, Paces, Trails, GiveUps,
      RowsKept, TargetsKept, TrailsKept, MayMake;
    OpenInv(w, s);
    LaterIsReflexive(w);
    MakeKeepsRecords(w, id, input, c);
    MakeKeepsCarriers(w, id, input, c);
    MakeKeepsMarkers(w, id, input, c);
    MakeKeepsHolders(w, id, input, c);
    MakeKeepsSnapshots(w, id, input, c);
    MakeKeepsCreations(w, id, input, c);
    CloseInv(RecordMade(w, id, input, c), s);
  }

  // ---------------------------------------------------------------- a rewritten record

  function RecordPut(w: World, id: string, input: CertificateInput, holder: string): World
    requires id in w.rows && w.rows[id].certID in w.certs
  {
    var c := w.rows[id].certID;
    w.(certs := w.certs[c := Stored(input, w.certs[c].isACME)], h := w.h.(carrier := w.h.carrier[c := holder]))
  }

  /** A record is only rewritten under a snapshot: with the new certificate of its renewal, or with exactly the
      input that was saved. */
  ghost predicate MayPut(w: World, id: string, input: CertificateInput, holder: string)
  {
    && id in w.snapshots && id in w.rows && w.rows[id].certID in w.certs && input.id == w.rows[id].certID
    && (|| (holder == id && w.rows[id].stage == CertIssued && InputCarries(input, w.rows[id])
            && input.name == w.certs[input.id].name)
        || (w.rows[id].ipv4 in w.h.active && holder == w.h.active[w.rows[id].ipv4]
            && input == w.snapshots[id].previous))
  }

  /** The row, record and holder behind a snapshot. */
  lemma SnapshotRow(w: World, s: Policy, id: string)
    requires Inv(w, s) && id in w.snapshots
    ensures id in w.rows && SnapshotOk(w.rows, w.h.active, w.certs, w.h.carrier, w.h.last, id, w.snapshots[id])
    ensures var o := w.rows[id];
            && o.kind == Renew && id == w.h.last && o.certID in w.certs && o.certID in w.h.carrier && o.certID > 0
            && !w.certs[o.certID].isACME && w.certs[o.certID].id == o.certID
            && o.ipv4 in w.managed && w.managed[o.ipv4].certID == o.certID
            && o.ipv4 in w.h.active && w.h.active[o.ipv4] in w.rows
            && w.rows[w.h.active[o.ipv4]].ipv4 == o.ipv4 && w.rows[w.h.active[o.ipv4]].stage == Active
            && w.rows[w.h.active[o.ipv4]].certID == o.certID
            && AtHome(w.h.made, w.h.active[o.ipv4], w.rows[w.h.active[o.ipv4]], o.certID)
  {
    hide Moments, RowsOk, OneAtATime, Newest, Owners, Evidence, Markers, Holders, Saved, Creates, Orders, Retries,
      Placements, Activations, Paces, Trails, GiveUps, SnapshotSafe, SnapshotSide, StoredRenewal, IsOperationID;
    OpenInv(w, s);
    assert SnapshotOk(w.rows, w.h.active, w.certs, w.h.carrier, w.h.last, id, w.snapshots[id]);
    var o := w.rows[id];
    assert CarrierOk(w.certs, w.rows, w.h.made, o.certID, w.h.carrier[o.certID]);
    assert StageOk(w.managed, o);
    assert ManagedOk(w.rows, w.h.active, s, o.ipv4, w.managed[o.ipv4]);
    var a := w.h.active[o.ipv4];
    assert w.rows[a].kind == Issue ==> MadeOk(w.h.made, w.h.carrier, a, w.rows[a]);
  }

  /** What the rewritten record holds. */
  lemma PutRow(w: World, s: Policy, id: string, input: CertificateInput, holder: string)
    requires Inv(w, s) && MayPut(w, id, input, holder)
    ensures var c := w.rows[id].certID; var cert := Stored(input, w.certs[c].isACME);
            && holder in w.rows && cert.id == c && cert.name == w.certs[c].name
            && Carries(cert, w.rows[holder]) && AtHome(w.h.made, holder, w.rows[holder], c)
            && w.rows[holder].ipv4 == w.rows[id].ipv4
            && SnapshotOk(w.rows, w.h.active, w.certs[c := cert], w.h.carrier[c := holder],
                          w.h.last, id, w.snapshots[id])
            && (holder == w.h.active[w.rows[id].ipv4] || holder == id)
  {
    hide Inv, StoredRenewal, IsOperationID;
    SnapshotRow(w, s, id);
  }

  lemma PutKeepsRecords(w: World, c: int, cert: CertificateConfig, holder: string)
    requires Records(w.certs, w.h.owner, w.h.carrier, w.issued) && Owners(w.rows, w.h.owner, w.issued)
    requires Carriers(w.certs, w.rows, w.h.made, w.h.carrier) && c in w.certs
    requires holder in w.rows && cert.id == c && Carries(cert, w.rows[holder])
             && AtHome(w.h.made, holder, w.rows[holder], c)
    ensures Records(w.certs[c := cert], w.h.owner, w.h.carrier[c := holder], w.issued)
    ensures Carriers(w.certs[c := cert], w.rows, w.h.made, w.h.carrier[c := holder])
  {
    var carrier := w.h.carrier[c := holder];
    forall k | k in carrier
      ensures CarrierOk(w.certs[c := cert], w.rows, w.h.made, k, carrier[k])
    {
      if k != c {
        assert CarrierOk(w.certs, w.rows, w.h.made, k, w.h.carrier[k]);
      }
    }
  }

  lemma PutKeepsMarkers(w: World, c: int, cert: CertificateConfig)
    requires Markers(w.certs, w.rows, w.h.made, w.h.marks) && c in w.certs && cert.name == w.certs[c].name
    ensures Markers(w.certs[c := cert], w.rows, w.h.made, w.h.marks)
  {
  }

  lemma PutKeepsCreations(w: World, id: string, c: int, holder: string)
    requires Creations(w.rows, w.h.made, w.h.carrier) && OneAtATime(w.rows, w.h.last)
    requires id in w.rows && id == w.h.last && w.rows[id].kind == Renew
    ensures Creations(w.rows, w.h.made, w.h.carrier[c := holder])
  {
    forall k | k in w.rows && w.rows[k].kind == Issue
      ensures MadeOk(w.h.made, w.h.carrier[c := holder], k, w.rows[k])
    {
      assert MadeOk(w.h.made, w.h.carrier, k, w.rows[k]) && Before(w.rows[k], w.rows[id]);
    }
  }

  lemma PutKeepsHolders(w: World, id: string, c: int, holder: string)
    requires Holders(w.rows, w.managed, w.h.active, w.h.carrier, w.snapshots) && OneAtATime(w.rows, w.h.last)
    requires id in w.rows && id == w.h.last && w.rows[id].kind == Renew && id in w.snapshots
    requires holder in w.rows && w.rows[holder].ipv4 == w.rows[id].ipv4
    requires w.rows[id].ipv4 in w.managed && w.managed[w.rows[id].ipv4].certID == c
    requires w.rows[id].ipv4 in w.h.active && (holder == w.h.active[w.rows[id].ipv4] || holder == id)
    ensures Holders(w.rows, w.managed, w.h.active, w.h.carrier[c := holder], w.snapshots)
  {
    var carrier := w.h.carrier[c := holder];
    forall ip | ip in w.managed
      ensures HolderOk(w.rows, w.h.active, carrier, w.snapshots, ip, w.managed[ip].certID)
    {
      assert HolderOk(w.rows, w.h.active, w.h.carrier, w.snapshots, ip, w.managed[ip].certID);
      assert HolderOk(w.rows, w.h.active, w.h.carrier, w.snapshots, w.rows[id].ipv4, c);
    }
    forall k | k in w.rows && k !in w.snapshots
      ensures w.rows[k].stage !in {CertCreated, PolicyBound}
    {
      assert Before(w.rows[k], w.rows[id]);
    }
  }

  lemma PutKeepsSnapshots(w: World, s: Policy, id: string, c: int, cert: CertificateConfig, holder: string)
    requires Inv(w, s) && id in w.snapshots
    requires SnapshotOk(w.rows, w.h.active, w.certs[c := cert], w.h.carrier[c := holder], w.h.last, id, w.snapshots[id])
    ensures Snapshots(w.rows, w.h.active, w.certs[c := cert], w.h.carrier[c := holder], w.h.last, w.snapshots)
  {
    hide Inv, SnapshotOk;
    SnapshotIsLast(w, s);
  }

  /** A rewrite under a snapshot keeps the invariant. */
  lemma PutKeepsInv(w: World, s: Policy, id: string, input: CertificateInput, holder: string)
    requires Inv(w, s) && MayPut(w, id, input, holder)
    ensures Inv(RecordPut(w, id, input, holder), s) && Later(w, RecordPut(w, id, input, holder))
  {
    hide Moments, RowsOk, OneAtATime, Newest, Stages, Owners, Managements, Evidence, Records, Carriers, Markers,
      Creations, Holders, Snapshots, Saved, Creates, Orders, Retries, Placements, Activations, Paces, Trails, GiveUps,
      RowsKept, TargetsKept, TrailsKept, SnapshotOk, Carries, Stored, AtHome;
    OpenInv(w, s);
    LaterIsReflexive(w);
    SnapshotRow(w, s, id);
    PutRow(w, s, id, input, holder);
    var c := w.rows[id].certID;
    var cert := Stored(input, w.certs[c].isACME);
    PutKeepsRecords(w, c, cert, holder);
    PutKeepsMarkers(w, c, cert);
    PutKeepsCreations(w, id, c, holder);
    PutKeepsHolders(w, id, c, holder);
    PutKeepsSnapshots(w, s, id, c, cert, holder);
    CloseInv(RecordPut(w, id, input, holder), s);
  }

  // ---------------------------------------------------------------- snapshots

  function SnapshotSaved(w: World, id: string, sn: Snapshot): World
  {
    w.(snapshots := w.snapshots[id := sn], h := w.h.(saved := w.h.saved[id := sn], savedAt := w.h.savedAt[id := w.now]))
  }

  ghost predicate MaySave(w: World, id: string, sn: Snapshot)
  {
    && w.snapshots == map[] && id in w.rows && w.rows[id].kind == Renew && w.rows[id].stage == CertIssued
    && w.rows[id].certID in w.certs
    && var cert := w.certs[w.rows[id].certID];
    && sn == NewSnapshot(id, w.rows[id].ipv4, w.rows[id].certFingerprint, Fingerprint(cert.certData),
                         InputFromConfig(cert))
    && Complete(sn)
  }

  /** Before its own snapshot, a renewal's record carries the active certificate. */
  lemma UntouchedRecord(w: World, s: Policy, id: string)
    requires Inv(w, s) && w.snapshots == map[] && id in w.rows && w.rows[id].kind == Renew
             && w.rows[id].stage == CertIssued
    ensures CarriesActive(w, w.rows[id]) && w.rows[id].certID in w.certs && id == w.h.last
    ensures w.h.active[w.rows[id].ipv4] in w.rows && w.h.active[w.rows[id].ipv4] != id
    ensures Carries(w.certs[w.rows[id].certID], w.rows[w.h.active[w.rows[id].ipv4]])
    ensures w.certs[w.rows[id].certID].id == w.rows[id].certID > 0 && id !in w.h.saved
  {
    hide Moments, RowsOk, Newest, Owners, Evidence, Markers, Creations, Snapshots, Saved, Creates, Orders, Retries,
      Placements, Activations, Paces, Trails, GiveUps, StoredRenewal, IsOperationID, Carries;
    OpenInv(w, s);
    RowFacts(w, s, id);
    var o := w.rows[id];
    assert ManagedOk(w.rows, w.h.active, s, o.ipv4, w.managed[o.ipv4]);
    assert HolderOk(w.rows, w.h.active, w.h.carrier, w.snapshots, o.ipv4, o.certID);
    assert CarrierOk(w.certs, w.rows, w.h.made, o.certID, w.h.carrier[o.certID]);
    assert w.h.carrier[o.certID] == id || Before(w.rows[w.h.carrier[o.certID]], w.rows[id]);
  }

  lemma SaveKeepsSnapshots(w: World, s: Policy, id: string, sn: Snapshot)
    requires Inv(w, s) && MaySave(w, id, sn)
    ensures var v := SnapshotSaved(w, id, sn);
            && Snapshots(v.rows, v.h.active, v.certs, v.h.carrier, v.h.last, v.snapshots)
    ensures id !in w.h.saved
  {
    hide Inv, IsOperationID;
    UntouchedRecord(w, s, id);
  }

  lemma SaveKeepsHolders(w: World, id: string, sn: Snapshot)
    requires Holders(w.rows, w.managed, w.h.active, w.h.carrier, w.snapshots) && MaySave(w, id, sn)
    ensures var v := SnapshotSaved(w, id, sn); Holders(v.rows, v.managed, v.h.active, v.h.carrier, v.snapshots)
  {
    assert id in w.rows && w.rows[id].stage == CertIssued;
    hide MaySave;
    var v := SnapshotSaved(w, id, sn);
    forall ip | ip in w.managed
      ensures HolderOk(v.rows, v.h.active, v.h.carrier, v.snapshots, ip, v.managed[ip].certID)
    {
      assert HolderOk(w.rows, w.h.active, w.h.carrier, w.snapshots, ip, w.managed[ip].certID);
    }
  }

  lemma SaveKeepsSaved(w: World, id: string, sn: Snapshot)
    requires Saved(w.rows, w.h.log, w.snapshots, w.h.saved, w.h.savedAt) && MaySave(w, id, sn)
    ensures var v := SnapshotSaved(w, id, sn); Saved(v.rows, v.h.log, v.snapshots, v.h.saved, v.h.savedAt)
  {
    hide IsOperationID, InputFromConfig, ShownSince;
    var v := SnapshotSaved(w, id, sn);
    forall k | k in w.h.saved
      ensures SavedOk(v.h.log, v.snapshots, k, v.h.saved[k], v.h.savedAt[k], v.rows[k])
    {
      assert SavedOk(w.h.log, w.snapshots, k, w.h.saved[k], w.h.savedAt[k], w.rows[k]);
    }
  }

  lemma SaveKeepsGiveUps(w: World, id: string, sn: Snapshot)
    requires GiveUps(w.rows, w.h.trail, w.h.saved) && id !in w.h.saved
    ensures var v := SnapshotSaved(w, id, sn); GiveUps(v.rows, v.h.trail, v.h.saved) && SavedKept(w.h.saved, v.h.saved)
  {
  }

  /** Publishing the snapshot of a renewal keeps the invariant, and a snapshot is published only once. */
  lemma SaveKeepsInv(w: World, s: Policy, id: string, sn: Snapshot)
    requires Inv(w, s) && MaySave(w, id, sn)
    ensures Inv(SnapshotSaved(w, id, sn), s) && Later(w, SnapshotSaved(w, id, sn))
  {
    hide Moments, RowsOk, OneAtATime, Newest, Stages, Owners, Managements, Evidence, Records, Carriers, Markers,
      Creations, Holders, Snapshots, Saved, Creates, Orders, Retries, Placements, Activations, Paces, Trails, GiveUps,
      RowsKept, TargetsKept, TrailsKept, MaySave;
    OpenInv(w, s);
    LaterIsReflexive(w);
    SaveKeepsSnapshots(w, s, id, sn);
    SaveKeepsHolders(w, id, sn);
    SaveKeepsSaved(w, id, sn);
    SaveKeepsGiveUps(w, id, sn);
    CloseInv(SnapshotSaved(w, id, sn), s);
  }

  function SnapshotDropped(w: World, id: string): World
  {
    w.(snapshots := w.snapshots - {id})
  }

  /** A snapshot may go once a TLS check, made since it was published, confirmed the side that its operation
      ended on. */
  ghost predicate MayDrop(w: World, id: string)
  {
    && id in w.snapshots && id in w.rows && id in w.h.savedAt
    && var sn := w.snapshots[id];
    && (|| (w.rows[id].stage == Stage.Error && ShownSince(w.h.log, sn.ipv4, sn.oldFingerprint, w.h.savedAt[id]))
        || (w.rows[id].stage == CertCreated && w.rows[id].certID in w.h.carrier && w.h.carrier[w.rows[id].certID] == id
            && ShownSince(w.h.log, sn.ipv4, sn.newFingerprint, w.h.savedAt[id])))
  }

  lemma DropKeepsHolders(w: World, id: string)
    requires Holders(w.rows, w.managed, w.h.active, w.h.carrier, w.snapshots)
    requires MayDrop(w, id) && SnapshotOk(w.rows, w.h.active, w.certs, w.h.carrier, w.h.last, id, w.snapshots[id])
    requires w.rows[id].ipv4 in w.managed && w.managed[w.rows[id].ipv4].certID == w.rows[id].certID
    ensures var v := SnapshotDropped(w, id); Holders(v.rows, v.managed, v.h.active, v.h.carrier, v.snapshots)
  {
    hide SnapshotMatches, SnapshotSafe, InputFromConfig;
    var v := SnapshotDropped(w, id);
    forall ip | ip in w.managed
      ensures HolderOk(v.rows, v.h.active, v.h.carrier, v.snapshots, ip, v.managed[ip].certID)
    {
      assert HolderOk(w.rows, w.h.active, w.h.carrier, w.snapshots, ip, w.managed[ip].certID);
    }
  }

  lemma DropKeepsSaved(w: World, id: string)
    requires Snapshots(w.rows, w.h.active, w.certs, w.h.carrier, w.h.last, w.snapshots)
    requires Saved(w.rows, w.h.log, w.snapshots, w.h.saved, w.h.savedAt) && MayDrop(w, id)
    ensures var v := SnapshotDropped(w, id);
            && Snapshots(v.rows, v.h.active, v.certs, v.h.carrier, v.h.last, v.snapshots)
            && Saved(v.rows, v.h.log, v.snapshots, v.h.saved, v.h.savedAt)
  {
    hide SnapshotOk;
    var v := SnapshotDropped(w, id);
    forall k | k in w.h.saved
      ensures SavedOk(v.h.log, v.snapshots, k, v.h.saved[k], v.h.savedAt[k], v.rows[k])
    {
      assert SavedOk(w.h.log, w.snapshots, k, w.h.saved[k], w.h.savedAt[k], w.rows[k]);
    }
  }

  /** Dropping a confirmed snapshot keeps the invariant. */
  lemma DropKeepsInv(w: World, s: Policy, id: string)
    requires Inv(w, s) && MayDrop(w, id)
    ensures Inv(SnapshotDropped(w, id), s) && Later(w, SnapshotDropped(w, id))
  {
    hide Moments, RowsOk, OneAtATime, Newest, Stages, Owners, Managements, Evidence, Records, Carriers, Markers,
      Creations, Holders, Snapshots, Saved, Creates, Orders, Retries, Placements, Activations, Paces, Trails, GiveUps,
      RowsKept, TargetsKept, TrailsKept, SnapshotOk;
    OpenInv(w, s);
    LaterIsReflexive(w);
    SnapshotRow(w, s, id);
    DropKeepsHolders(w, id);
    DropKeepsSaved(w, id);
    CloseInv(SnapshotDropped(w, id), s);
  }
}
