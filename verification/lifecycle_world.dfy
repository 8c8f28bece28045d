/** The remaining durable steps: new orders, activation, the records of GoEdge, snapshots, and logged calls. */
module LifecycleWorld {
  import opened Operations
  import opened Scheduler
  import opened Lifecycle
  import opened LifecycleRows
  import opened LifecycleSteps

  // ---------------------------------------------------------------- time and logged calls

  lemma TickKeepsRows(rows: Rows, now: int, later: int)
    requires RowsOk(rows, now) && now <= later
    ensures RowsOk(rows, later)
  {
    hide Marker, IsOperationID;
  }

  lemma TickKeepsInv(w: World, s: Policy, now: int)
    requires Inv(w, s) && now >= w.now
    ensures Inv(w.(now := now), s) && Later(w, w.(now := now))
  {
    hide Moments, RowsOk, OneAtATime, Newest, Stages, Owners, Managements, Evidence, Records, Carriers, Markers,
      Creations, Holders, Snapshots, Saved, Creates, Orders, Retries, Placements, Activations, Paces, Trails, GiveUps;
    OpenInv(w, s);
    TickKeepsRows(w.rows, w.now, now);
    TickKeepsPlacements(w.rows, w.h.orderedAt, w.h.deniedAt, w.h.failedAt, w.now, now);
    CloseInv(w.(now := now), s);
  }

  function Logged(w: World, e: Event): World
  {
    w.(h := w.h.(log := w.h.log + multiset{e}))
  }

  /** An order needs a known address and, before the address is managed, a run that pays for it; a create needs an
      operation that never called it. */
  ghost predicate MayLog(w: World, e: Event)
  {
    match e
    case ObtainCalled(ip) => ip in w.h.latest && (ip !in w.managed ==> w.h.log[e] < Budget(w.h.log, ip))
    case CreateCalled(id) =>
      id in w.rows && w.rows[id].kind == Issue && w.rows[id].stage !in {New, ChallengePresent} && w.h.log[e] == 0
    case _ => true
  }

  lemma LogKeepsEvidence(w: World, e: Event)
    requires Evidence(w.rows, w.h.log) && Saved(w.rows, w.h.log, w.snapshots, w.h.saved, w.h.savedAt)
    ensures Evidence(w.rows, w.h.log + multiset{e})
    ensures Saved(w.rows, w.h.log + multiset{e}, w.snapshots, w.h.saved, w.h.savedAt)
  {
    var log := w.h.log + multiset{e};
    forall id | id in w.rows
      ensures EvidenceOk(log, w.rows[id])
    {
      assert EvidenceOk(w.h.log, w.rows[id]);
      EvidenceStays(w.h.log, log, w.rows[id], w.rows[id]);
    }
    forall id | id in w.h.saved
      ensures SavedOk(log, w.snapshots, id, w.h.saved[id], w.h.savedAt[id], w.rows[id])
    {
      assert SavedOk(w.h.log, w.snapshots, id, w.h.saved[id], w.h.savedAt[id], w.rows[id]);
    }
  }

  lemma LogKeepsCounts(w: World, e: Event)
    requires Creates(w.rows, w.h.log) && Orders(w.managed, w.h.latest, w.h.log) && MayLog(w, e)
    ensures Creates(w.rows, w.h.log + multiset{e}) && Orders(w.managed, w.h.latest, w.h.log + multiset{e})
  {
    var log := w.h.log + multiset{e};
    forall id
      ensures log[CreateCalled(id)] <= 1
      ensures CreateCalled(id) in log ==>
              id in w.rows && w.rows[id].kind == Issue && w.rows[id].stage !in {New, ChallengePresent}
    {
      assert w.h.log[CreateCalled(id)] <= 1;
    }
    forall ip
      ensures ObtainCalled(ip) in log ==> ip in w.h.latest
      ensures ip !in w.managed ==> log[ObtainCalled(ip)] <= Budget(log, ip)
    {
      assert ip !in w.managed ==> w.h.log[ObtainCalled(ip)] <= Budget(w.h.log, ip);
    }
  }

  lemma LogKeepsInv(w: World, s: Policy, e: Event)
    requires Inv(w, s) && MayLog(w, e)
    ensures Inv(Logged(w, e), s) && Later(w, Logged(w, e))
  {
    hide Moments, RowsOk, OneAtATime, Newest, Stages, Owners, Managements, Evidence, Records, Carriers, Markers,
      Creations, Holders, Snapshots, Saved, Creates, Orders, Retries, Placements, Activations, Paces, Trails, GiveUps,
      MayLog;
    OpenInv(w, s);
    LogKeepsEvidence(w, e);
    LogKeepsCounts(w, e);
    CloseInv(Logged(w, e), s);
  }

  // ---------------------------------------------------------------- orders at the authority

  /** The authority is asked now, for an operation that never asked it before. */
  function OrderSent(w: World, id: string): World
    requires id in w.rows
  {
    var v := Logged(w, ObtainCalled(w.rows[id].ipv4));
    v.(h := v.h.(orderedAt := v.h.orderedAt[id := w.now]))
  }

  ghost predicate MaySend(w: World, id: string)
  {
    && id in w.rows && w.rows[id].stage == ChallengePresent && id !in w.h.orderedAt
    && MayLog(w, ObtainCalled(w.rows[id].ipv4))
  }

  /** New instants for one row, whose conditions they meet. */
  lemma StampKeepsPlacements(rows: Rows, orderedAt: map<string, int>, deniedAt: map<string, int>,
                             failedAt: map<string, int>, now: int, id: string, at: int, ordered: map<string, int>,
                             denied: map<string, int>)
    requires Placements(rows, orderedAt, deniedAt, failedAt, now) && id in rows
    requires ordered == orderedAt || ordered == orderedAt[id := at]
    requires denied == deniedAt || denied == deniedAt[id := at]
    requires PlacementOk(ordered, denied, failedAt, now, id, rows[id])
    ensures Placements(rows, ordered, denied, failedAt, now)
  {
    forall k | k in rows
      ensures PlacementOk(ordered, denied, failedAt, now, k, rows[k])
    {
      assert PlacementOk(orderedAt, deniedAt, failedAt, now, k, rows[k]);
    }
  }

  lemma UnorderedRow(w: World, s: Policy, id: string)
    requires Inv(w, s) && id in w.rows && w.rows[id].stage == ChallengePresent
    ensures w.rows[id].certFingerprint == "" && w.rows[id].retryCount == 0 && w.rows[id].createdAt <= w.now
    ensures PlacementOk(w.h.orderedAt, w.h.deniedAt, w.h.failedAt, w.now, id, w.rows[id])
  {
    hide Inv, RowOk, EvidenceOk, MadeOk, TrailOk, CarriesActive, PlacementOk, SameTarget;
    RowFacts(w, s, id);
    PlacementFacts(w, s, id);
  }

  lemma SendKeepsInv(w: World, s: Policy, id: string)
    requires Inv(w, s) && MaySend(w, id)
    ensures Inv(OrderSent(w, id), s) && Later(w, OrderSent(w, id))
  {
    LogKeepsInv(w, s, ObtainCalled(w.rows[id].ipv4));
    UnorderedRow(w, s, id);
    hide Moments, RowsOk, OneAtATime, Newest, Stages, Owners, Managements, Evidence, Records, Carriers, Markers,
      Creations, Holders, Snapshots, Saved, Creates, Orders, Retries, Placements, Activations, Paces, Trails, GiveUps,
      MayLog;
    OpenInv(w, s);
    OpenInv(Logged(w, ObtainCalled(w.rows[id].ipv4)), s);
    StampKeepsPlacements(w.rows, w.h.orderedAt, w.h.deniedAt, w.h.failedAt, w.now, id, w.now,
                         w.h.orderedAt[id := w.now], w.h.deniedAt);
    CloseInv(OrderSent(w, id), s);
  }

  /** The authority has answered the order with a failure. */
  function OrderDenied(w: World, id: string): World
  {
    w.(h := w.h.(deniedAt := w.h.deniedAt[id := w.now]))
  }

  predicate MayDeny(w: World, id: string)
  {
    id in w.rows && w.rows[id].stage == ChallengePresent && id in w.h.orderedAt
  }

  lemma DenyKeepsInv(w: World, s: Policy, id: string)
    requires Inv(w, s) && MayDeny(w, id)
    ensures Inv(OrderDenied(w, id), s) && Later(w, OrderDenied(w, id))
  {
    UnorderedRow(w, s, id);
    hide Moments, RowsOk, OneAtATime, Newest, Stages, Owners, Managements, Evidence, Records, Carriers, Markers,
      Creations, Holders, Snapshots, Saved, Creates, Orders, Retries, Placements, Activations, Paces, Trails, GiveUps;
    OpenInv(w, s);
    LaterIsReflexive(w);
    StampKeepsPlacements(w.rows, w.h.orderedAt, w.h.deniedAt, w.h.failedAt, w.now, id, w.now, w.h.orderedAt,
                         w.h.deniedAt[id := w.now]);
    CloseInv(OrderDenied(w, id), s);
  }

  function WithLeaf(w: World, fingerprint: string): World
  {
    w.(issued := w.issued + {fingerprint})
  }

  lemma LeafKeepsOwners(w: World, fingerprint: string)
    requires Owners(w.rows, w.h.owner, w.issued) && Records(w.certs, w.h.owner, w.h.carrier, w.issued)
    requires fingerprint != "" && fingerprint !in w.issued
    ensures Owners(w.rows, w.h.owner, w.issued + {fingerprint})
    ensures Records(w.certs, w.h.owner, w.h.carrier, w.issued + {fingerprint})
    ensures IsNew(WithLeaf(w, fingerprint), fingerprint)
  {
  }

  lemma LeafKeepsInv(w: World, s: Policy, fingerprint: string)
    requires Inv(w, s) && fingerprint != "" && fingerprint !in w.issued
    ensures Inv(WithLeaf(w, fingerprint), s) && Later(w, WithLeaf(w, fingerprint))
    ensures IsNew(WithLeaf(w, fingerprint), fingerprint)
  {
    hide Moments, RowsOk, OneAtATime, Newest, Stages, Owners, Managements, Evidence, Records, Carriers, Markers,
      Creations, Holders, Snapshots, Saved, Creates, Orders, Retries, Placements, Activations, Paces, Trails, GiveUps,
      IsNew;
    OpenInv(w, s);
    LeafKeepsOwners(w, fingerprint);
    CloseInv(WithLeaf(w, fingerprint), s);
  }

  // ---------------------------------------------------------------- managed rows

  function WithManagedError(w: World, ip: string, category: string, message: string, marker: string): World
    requires ip in w.managed
  {
    w.(managed := w.managed[ip := WithError(w.managed[ip], category, message, marker)])
  }

  /** `after` rewrites the row of one managed address without touching its target. */
  predicate SameButErrors(before: map<string, ManagedCert>, after: map<string, ManagedCert>, ip: string)
  {
    && ip in before && ip in after && after == before[ip := after[ip]]
    && after[ip].(state := before[ip].state, lastErrorCategory := before[ip].lastErrorCategory,
                  lastError := before[ip].lastError, recoveryMarker := before[ip].recoveryMarker) == before[ip]
  }

  lemma ErrorKeepsStages(rows: Rows, before: map<string, ManagedCert>, after: map<string, ManagedCert>, ip: string)
    requires Stages(rows, before) && SameButErrors(before, after, ip)
    ensures Stages(rows, after) && TargetsKept(before, after)
  {
    forall id | id in rows
      ensures StageOk(after, rows[id])
    {
      assert StageOk(before, rows[id]);
    }
  }

  lemma ErrorKeepsManagements(w: World, s: Policy, after: map<string, ManagedCert>, ip: string)
    requires Managements(w.rows, w.managed, w.h.active, s) && SameButErrors(w.managed, after, ip)
    ensures Managements(w.rows, after, w.h.active, s)
  {
    hide StoredRenewal;
    forall a | a in after
      ensures ManagedOk(w.rows, w.h.active, s, a, after[a])
    {
      assert ManagedOk(w.rows, w.h.active, s, a, w.managed[a]);
    }
  }

  lemma ErrorKeepsHolders(w: World, after: map<string, ManagedCert>, ip: string)
    requires Holders(w.rows, w.managed, w.h.active, w.h.carrier, w.snapshots) && SameButErrors(w.managed, after, ip)
    requires Orders(w.managed, w.h.latest, w.h.log)
    ensures Holders(w.rows, after, w.h.active, w.h.carrier, w.snapshots)
    ensures Orders(after, w.h.latest, w.h.log)
  {
    forall a | a in after
      ensures HolderOk(w.rows, w.h.active, w.h.carrier, w.snapshots, a, after[a].certID)
    {
      assert HolderOk(w.rows, w.h.active, w.h.carrier, w.snapshots, a, w.managed[a].certID);
    }
  }

  lemma ErrorKeepsActivations(rows: Rows, before: map<string, ManagedCert>, active: map<string, string>,
                              activatedAt: map<string, int>, ip: string, category: string, message: string,
                              marker: string)
    requires Activations(rows, before, active, activatedAt) && ip in before && message != ""
    ensures Activations(rows, before[ip := WithError(before[ip], category, message, marker)], active, activatedAt)
  {
    hide ActiveOk;
  }

  lemma ManagedErrorKeepsInv(w: World, s: Policy, ip: string, category: string, message: string, marker: string)
    requires Inv(w, s) && ip in w.managed && message != ""
    ensures Inv(WithManagedError(w, ip, category, message, marker), s)
    ensures Later(w, WithManagedError(w, ip, category, message, marker))
  {
    hide Moments, RowsOk, OneAtATime, Newest, Stages, Owners, Managements, Evidence, Records, Carriers, Markers,
      Creations, Holders, Snapshots, Saved, Creates, Orders, Retries, Placements, Activations, Paces, Trails, GiveUps,
      TargetsKept;
    OpenInv(w, s);
    var m := w.managed[ip := WithError(w.managed[ip], category, message, marker)];
    assert SameButErrors(w.managed, m, ip);
    ErrorKeepsStages(w.rows, w.managed, m, ip);
    ErrorKeepsManagements(w, s, m, ip);
    ErrorKeepsHolders(w, m, ip);
    ErrorKeepsActivations(w.rows, w.managed, w.h.active, w.h.activatedAt, ip, category, message, marker);
    CloseInv(WithManagedError(w, ip, category, message, marker), s);
  }
}
