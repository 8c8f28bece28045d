/** What one phase of a run may change, and that it is kept by each kind of step. */
module Scope {
  import opened Operations
  import opened GoEdge
  import opened Rollback
  import opened Scheduler
  import opened Lifecycle
  import opened LifecycleWorld
  import opened LifecycleOrders
  import opened LifecycleEdge

  /** Recovering operations freezes the records of GoEdge and the snapshots, recovering snapshots restores records,
      and only a run that holds a fresh key deploys. */
  datatype Permit = Frozen | Restore | Deploy

  /** `now` is `before` with some records written back exactly as a snapshot saved them. */
  ghost predicate Restored(before: map<int, CertificateConfig>, now: map<int, CertificateConfig>, snapshots: map<string,
                           Snapshot>)
  {
    && now.Keys == before.Keys
    && forall c <- now :: now[c] == before[c]
                          || exists id <- snapshots :: snapshots[id].certID == c
                                                      && InputFromConfig(now[c]) == snapshots[id].previous
  }

  ghost predicate SameCounts(a: multiset<Event>, b: multiset<Event>, permit: Permit)
  {
    && (forall ip :: b[ObtainCalled(ip)] == a[ObtainCalled(ip)])
    && (forall ip, mode :: b[RunStarted(ip, mode)] == a[RunStarted(ip, mode)])
    && (!permit.Deploy? ==> forall id :: b[CreateCalled(id)] == a[CreateCalled(id)])
  }

  ghost predicate SameEdge(start: World, w: World, permit: Permit)
  {
    match permit
    case Frozen => w.certs == start.certs && w.snapshots == start.snapshots
    case Restore => Restored(start.certs, w.certs, start.snapshots)
        && w.snapshots == start.snapshots - (start.snapshots.Keys - w.snapshots.Keys)
    case Deploy => true
  }

  /** Everything that happened since `start` lies within the permit; no order was placed. */
  ghost predicate Within(start: World, w: World, permit: Permit)
  {
    && Later(start, w) && w.rows.Keys == start.rows.Keys && w.issued == start.issued && w.h.last == start.h.last
    && SameCounts(start.h.log, w.h.log, permit)
    && SameEdge(start, w, permit)
  }

  lemma WithinIsReflexive(w: World, permit: Permit)
    ensures Within(w, w, permit)
  {
    LaterIsReflexive(w);
  }

  lemma RestoredIsTransitive(a: World, b: World, c: World)
    requires SameEdge(a, b, Restore) && SameEdge(b, c, Restore)
    ensures SameEdge(a, c, Restore)
  {
    forall k | k in c.certs && c.certs[k] != a.certs[k]
      ensures exists id <- a.snapshots :: a.snapshots[id].certID == k
                                         && InputFromConfig(c.certs[k]) == a.snapshots[id].previous
    {
      if c.certs[k] != b.certs[k] {
        var id :| id in b.snapshots && b.snapshots[id].certID == k
            && InputFromConfig(c.certs[k]) == b.snapshots[id].previous;
        assert id in a.snapshots && a.snapshots[id] == b.snapshots[id];
      }
    }
  }

  lemma WithinIsTransitive(a: World, b: World, c: World, permit: Permit)
    requires Within(a, b, permit) && Within(b, c, permit)
    ensures Within(a, c, permit)
  {
    hide Later, Restored, SameEdge;
    LaterIsTransitive(a, b, c);
    if permit.Restore? {
      RestoredIsTransitive(a, b, c);
    } else {
      assert SameEdge(a, c, permit) by { EdgeIsTransitive(a, b, c, permit); }
    }
  }

  lemma EdgeIsTransitive(a: World, b: World, c: World, permit: Permit)
    requires !permit.Restore? && SameEdge(a, b, permit) && SameEdge(b, c, permit)
    ensures SameEdge(a, c, permit)
  {
  }

  lemma WithinKeepsLast(start: World, w: World, permit: Permit)
    requires Within(start, w, permit)
    ensures w.h.last == start.h.last && w.rows.Keys == start.rows.Keys
  {
  }

  lemma WithinKeepsLeaf(start: World, w: World, permit: Permit, id: string)
    requires Within(start, w, permit) && id in start.rows && start.rows[id].certFingerprint != ""
    ensures id in w.rows && w.rows[id].certFingerprint == start.rows[id].certFingerprint
  {
    assert Kept(start.rows[id], w.rows[id]);
  }

  /** A narrower permit is within a wider one. */
  lemma FrozenIsWithin(a: World, b: World, permit: Permit)
    requires Within(a, b, Frozen)
    ensures Within(a, b, permit)
  {
    hide Later;
  }

  lemma RowStepWithin(w: World, v: World, permit: Permit)
    requires Later(w, v) && v.rows.Keys == w.rows.Keys && v.issued == w.issued && v.h.last == w.h.last
             && v.h.log == w.h.log
    requires v.certs == w.certs && v.snapshots == w.snapshots
    ensures Within(w, v, permit)
  {
    hide Later;
  }

  lemma LogWithin(w: World, e: Event, permit: Permit)
    requires Later(w, Logged(w, e)) && !e.ObtainCalled? && !e.RunStarted? && (e.CreateCalled? ==> permit.Deploy?)
    ensures Within(w, Logged(w, e), permit)
  {
    hide Later;
  }

  lemma DropWithin(w: World, id: string, permit: Permit)
    requires Later(w, SnapshotDropped(w, id)) && !permit.Frozen?
    ensures Within(w, SnapshotDropped(w, id), permit)
  {
    hide Later;
  }

  lemma RestoreWithin(w: World, s: Policy, id: string, permit: Permit)
    requires Inv(w, s) && !permit.Frozen?
    requires id in w.snapshots && id in w.rows && w.rows[id].certID in w.certs && w.rows[id].ipv4 in w.h.active
    requires var v := RecordPut(w, id, w.snapshots[id].previous, w.h.active[w.rows[id].ipv4]); Later(w, v)
    ensures Within(w, RecordPut(w, id, w.snapshots[id].previous, w.h.active[w.rows[id].ipv4]), permit)
  {
    hide Later, Inv;
    SnapshotRow(w, s, id);
  }

  // ---------------------------------------------------------------- orders

  /** Since `start` at most `n` orders were placed, all of them and every new operation for `ip`. */
  ghost predicate Ordered(start: World, w: World, ip: string, n: nat)
  {
    && Later(start, w)
    && (forall a, mode :: w.h.log[RunStarted(a, mode)] == start.h.log[RunStarted(a, mode)])
    && (forall a :: a != ip ==> w.h.log[ObtainCalled(a)] == start.h.log[ObtainCalled(a)])
    && w.h.log[ObtainCalled(ip)] <= start.h.log[ObtainCalled(ip)] + n
    && (forall id <- w.rows :: id in start.rows || w.rows[id].ipv4 == ip)
  }

  lemma WithinIsOrdered(a: World, b: World, c: World, permit: Permit, ip: string, n: nat)
    requires Ordered(a, b, ip, n) && Within(b, c, permit)
    ensures Ordered(a, c, ip, n)
  {
    hide Later;
    LaterIsTransitive(a, b, c);
    forall id | id in c.rows && id !in a.rows
      ensures c.rows[id].ipv4 == ip
    {
      LaterKeepsAddress(b, c, id);
    }
  }

  lemma LaterKeepsAddress(b: World, c: World, id: string)
    requires Later(b, c) && id in b.rows
    ensures id in c.rows && c.rows[id].ipv4 == b.rows[id].ipv4
    ensures !Inflight(b.rows[id].stage) ==> !Inflight(c.rows[id].stage)
  {
    assert Kept(b.rows[id], c.rows[id]);
  }

  lemma OrderedIsReflexive(w: World, ip: string, n: nat)
    ensures Ordered(w, w, ip, n)
  {
    LaterIsReflexive(w);
  }

  lemma CreateIsOrdered(start: World, w: World, op: Operation, attempt: int, now: int, n: nat)
    requires Ordered(start, w, op.ipv4, n) && Later(w, Created(w, op, attempt, now))
    ensures Ordered(start, Created(w, op, attempt, now), op.ipv4, n)
  {
    hide Later;
    LaterIsTransitive(start, w, Created(w, op, attempt, now));
  }

  /** Placing an order is the one step that raises the count. */
  lemma SendIsOrdered(start: World, w: World, id: string)
    requires id in w.rows && Ordered(start, w, w.rows[id].ipv4, 0) && Later(w, OrderSent(w, id))
    ensures Ordered(start, OrderSent(w, id), w.rows[id].ipv4, 1)
  {
    hide Later;
    LaterIsTransitive(start, w, OrderSent(w, id));
  }

  lemma DenyIsOrdered(start: World, w: World, id: string, ip: string, n: nat)
    requires Ordered(start, w, ip, n) && Later(w, OrderDenied(w, id))
    ensures Ordered(start, OrderDenied(w, id), ip, n)
  {
    hide Later;
    LaterIsTransitive(start, w, OrderDenied(w, id));
  }

  lemma TickIsOrdered(start: World, w: World, now: int, ip: string, n: nat)
    requires Ordered(start, w, ip, n) && Later(w, w.(now := now))
    ensures Ordered(start, w.(now := now), ip, n)
  {
    hide Later;
    LaterIsTransitive(start, w, w.(now := now));
  }

  lemma LeafIsOrdered(start: World, w: World, fingerprint: string, ip: string, n: nat)
    requires Ordered(start, w, ip, n) && Later(w, WithLeaf(w, fingerprint))
    ensures Ordered(start, WithLeaf(w, fingerprint), ip, n)
  {
    hide Later;
    LaterIsTransitive(start, w, WithLeaf(w, fingerprint));
  }

  lemma OrderedWidens(start: World, w: World, ip: string)
    requires Ordered(start, w, ip, 0)
    ensures Ordered(start, w, ip, 1)
  {
  }

  lemma WithinKeepsCounts(start: World, w: World, permit: Permit, ip: string)
    requires Within(start, w, permit)
    ensures w.h.log[ObtainCalled(ip)] == start.h.log[ObtainCalled(ip)]
  {
  }

  /** Both rows are of one order: of one kind, under one marker, for one target, and for the certificate that is
      renewed, if there is one. */
  predicate SameOrder(a: Operation, b: Operation)
  {
    && b.kind == a.kind && b.ipv4 == a.ipv4 && b.marker == a.marker && b.serverID == a.serverID
    && b.policyID == a.policyID && b.userID == a.userID && (a.certID > 0 ==> b.certID == a.certID)
  }

  lemma OrderedKeepsOrder(a: World, b: World, ip: string, n: nat, id: string)
    requires Ordered(a, b, ip, n) && id in a.rows
    ensures id in b.rows && SameOrder(a.rows[id], b.rows[id])
  {
    assert Kept(a.rows[id], b.rows[id]);
  }

  lemma OrderedKeepsLog(a: World, b: World, ip: string, n: nat)
    requires Ordered(a, b, ip, n)
    ensures a.h.log <= b.h.log && a.now <= b.now
  {
  }

  /** Every new operation began later. */
  lemma OrderedIsNewer(a: World, b: World, ip: string, n: nat)
    requires Ordered(a, b, ip, n)
    ensures forall id <- b.rows :: id in a.rows || a.now < b.rows[id].createdAt
  {
  }

  lemma OrderedIsTransitive(a: World, b: World, c: World, ip: string, n: nat)
    requires Ordered(a, b, ip, 0) && Ordered(b, c, ip, n)
    ensures Ordered(a, c, ip, n)
  {
    hide Later;
    LaterIsTransitive(a, b, c);
    forall id | id in c.rows && id !in a.rows
      ensures c.rows[id].ipv4 == ip
    {
      if id in b.rows {
        LaterKeepsAddress(b, c, id);
      }
    }
  }

  lemma OrderedKeepsManaged(a: World, b: World, ip: string, n: nat, managed: string)
    requires Ordered(a, b, ip, n) && managed in a.managed
    ensures managed in b.managed
  {
  }

  /** What one whole run adds to the counts: itself, and at most one order, for its own address. */
  ghost predicate RunOf(before: World, after: World, ip: string, mode: RunMode, n: nat)
  {
    && Later(before, after)
    && (forall a, m :: after.h.log[RunStarted(a, m)]
                        == before.h.log[RunStarted(a, m)] + (if a == ip && m == mode then 1 else 0))
    && (forall a :: a != ip ==> after.h.log[ObtainCalled(a)] == before.h.log[ObtainCalled(a)])
    && after.h.log[ObtainCalled(ip)] <= before.h.log[ObtainCalled(ip)] + n
    && (forall id <- after.rows :: id in before.rows || after.rows[id].ipv4 == ip)
  }

  lemma OrderedIsRun(before: World, start: World, after: World, ip: string, mode: RunMode, n: nat)
    requires Later(before, start) && start == Logged(before, RunStarted(ip, mode))
    requires Ordered(start, after, ip, n)
    ensures RunOf(before, after, ip, mode, n)
  {
    hide Later;
    LaterIsTransitive(before, start, after);
  }

  lemma RunThenOrders(before: World, mid: World, after: World, ip: string, mode: RunMode, n: nat)
    requires RunOf(before, mid, ip, mode, 0) && Ordered(mid, after, ip, n)
    ensures RunOf(before, after, ip, mode, n)
  {
    hide Later;
    LaterIsTransitive(before, mid, after);
    forall id | id in after.rows && id !in before.rows
      ensures after.rows[id].ipv4 == ip
    {
      if id in mid.rows {
        LaterKeepsAddress(mid, after, id);
      }
    }
  }

  /** Operations that were over stay over. */
  lemma OverStaysOver(before: World, mid: World, after: World)
    requires Later(before, mid) && Settled(mid) && Later(mid, after)
    ensures forall id <- before.rows :: id in after.rows && !Inflight(after.rows[id].stage)
  {
    forall id | id in before.rows
      ensures id in after.rows && !Inflight(after.rows[id].stage)
    {
      assert Kept(before.rows[id], mid.rows[id]);
      LaterKeepsAddress(mid, after, id);
    }
  }

  lemma RunCounts(before: World, after: World, ip: string, mode: RunMode, n: nat)
    requires RunOf(before, after, ip, mode, n)
    ensures var e := ObtainCalled(ip); before.h.log[e] <= after.h.log[e] <= before.h.log[e] + n
  {
  }

  lemma RunWidens(before: World, after: World, ip: string, mode: RunMode)
    ensures RunOf(before, after, ip, mode, 0) ==> RunOf(before, after, ip, mode, 1)
  {
  }

  /** Whatever was in flight before a run that recovered everything is over after it. */
  lemma RunIsOver(before: World, mid: World, after: World, ip: string, mode: RunMode)
    requires RunOf(before, mid, ip, mode, 1) && Settled(mid) && Ordered(mid, after, ip, 1)
    ensures forall id <- before.rows :: id in after.rows && !Inflight(after.rows[id].stage)
  {
    hide Later, Settled;
    OverStaysOver(before, mid, after);
  }

  // ---------------------------------------------------------------- the log tells of real calls

  /** Every observation in the log was made by a check that was answered so, at the instant the log names. */
  ghost predicate Seen(log: multiset<Event>, shown: set<(string, string, int)>, missed: set<(string, string, int)>,
                       bound: set<(int, int, int)>)
  {
    && (forall ip, f, at :: TlsSeen(ip, f, at) in log ==> (ip, f, at) in shown)
    && (forall ip, f, at :: TlsMissed(ip, f, at) in log ==> (ip, f, at) in missed)
    && (forall p, c, at :: BoundSeen(p, c, at) in log ==> (p, c, at) in bound)
  }

  /** The instants of the orders and of their refusals are those at which the authority was asked and answered. */
  predicate Timed(h: History, placed: map<string, int>, denied: map<string, int>)
  {
    h.orderedAt == placed && h.deniedAt == denied
  }

  /** Every order and every create call is in the log, once for each call. */
  ghost predicate Counted(log: multiset<Event>, marks: map<string, string>, calls: multiset<string>,
                          creations: multiset<string>)
  {
    && (forall ip :: log[ObtainCalled(ip)] == calls[ip])
    && (forall name :: creations[name] == if name in marks then log[CreateCalled(marks[name])] else 0)
  }

  lemma SeenGrows(log: multiset<Event>, shown: set<(string, string, int)>, missed: set<(string, string, int)>,
                  bound: set<(int, int, int)>, moreShown: set<(string, string, int)>,
                  moreMissed: set<(string, string, int)>, moreBound: set<(int, int, int)>)
    requires Seen(log, shown, missed, bound) && shown <= moreShown && missed <= moreMissed && bound <= moreBound
    ensures Seen(log, moreShown, moreMissed, moreBound)
  {
  }

  predicate Observation(e: Event) { e.TlsSeen? || e.TlsMissed? || e.BoundSeen? }

  ghost predicate Witnesses(e: Event, shown: set<(string, string, int)>, missed: set<(string, string, int)>,
                            bound: set<(int, int, int)>)
  {
    match e
    case TlsSeen(ip, f, at) => (ip, f, at) in shown
    case TlsMissed(ip, f, at) => (ip, f, at) in missed
    case BoundSeen(p, c, at) => (p, c, at) in bound
    case _ => true
  }

  lemma LogKeepsSeen(log: multiset<Event>, shown: set<(string, string, int)>, missed: set<(string, string, int)>,
                     bound: set<(int, int, int)>, e: Event)
    requires Seen(log, shown, missed, bound) && Witnesses(e, shown, missed, bound)
    ensures Seen(log + multiset{e}, shown, missed, bound)
  {
    var more := log + multiset{e};
    forall ip, f, at | TlsSeen(ip, f, at) in more
      ensures (ip, f, at) in shown
    {
      assert TlsSeen(ip, f, at) in log || e == TlsSeen(ip, f, at);
    }
    forall ip, f, at | TlsMissed(ip, f, at) in more
      ensures (ip, f, at) in missed
    {
      assert TlsMissed(ip, f, at) in log || e == TlsMissed(ip, f, at);
    }
    forall p, c, at | BoundSeen(p, c, at) in more
      ensures (p, c, at) in bound
    {
      assert BoundSeen(p, c, at) in log || e == BoundSeen(p, c, at);
    }
  }

  lemma ObservationKeepsCounted(log: multiset<Event>, marks: map<string, string>, calls: multiset<string>,
                                creations: multiset<string>, e: Event)
    requires Counted(log, marks, calls, creations) && !e.ObtainCalled? && !e.CreateCalled?
    ensures Counted(log + multiset{e}, marks, calls, creations)
  {
  }

  lemma ObtainKeepsCounted(log: multiset<Event>, marks: map<string, string>, calls: multiset<string>,
                           creations: multiset<string>, ip: string)
    requires Counted(log, marks, calls, creations)
    ensures Counted(log + multiset{ObtainCalled(ip)}, marks, calls + multiset{ip}, creations)
  {
  }

  lemma CreateCallKeepsCounted(w: World, s: Policy, calls: multiset<string>, creations: multiset<string>, id: string)
    requires Inv(w, s) && id in w.rows && w.rows[id].kind == Issue && Counted(w.h.log, w.h.marks, calls, creations)
    ensures Counted(w.h.log + multiset{CreateCalled(id)}, w.h.marks, calls, creations + multiset{w.rows[id].marker})
  {
    hide Moments, RowsOk, OneAtATime, Newest, Stages, Owners, Managements, Evidence, Records, Carriers, Creations,
      Holders, Snapshots, Saved, Creates, Orders, Retries, Placements, Activations, Paces, Trails;
    OpenInv(w, s);
    var log := w.h.log + multiset{CreateCalled(id)};
    var more := creations + multiset{w.rows[id].marker};
    forall name
      ensures more[name] == if name in w.h.marks then log[CreateCalled(w.h.marks[name])] else 0
    {
      assert name in w.h.marks && w.h.marks[name] == id ==> w.rows[id].marker == name;
    }
  }

  lemma NewMarkKeepsCounted(log: multiset<Event>, marks: map<string, string>, calls: multiset<string>,
                            creations: multiset<string>, name: string, id: string)
    requires Counted(log, marks, calls, creations) && name !in marks && log[CreateCalled(id)] == 0
    ensures Counted(log, marks[name := id], calls, creations)
  {
  }

  lemma NewOperationKeepsCounted(w: World, s: Policy, calls: multiset<string>, creations: multiset<string>,
                                 op: Operation,
                                 attempt: int, now: int)
    requires Inv(w, s) && MayCreate(w, op, attempt) && Counted(w.h.log, w.h.marks, calls, creations)
    ensures Counted(w.h.log, Created(w, op, attempt, now).h.marks, calls, creations)
  {
    hide Counted;
    OpenInv(w, s);
    MarkerIsFresh(w, s, op, attempt);
    assert op.id !in w.rows;
    hide MayCreate, Inserted, Moments, RowsOk, OneAtATime, Newest, Stages, Owners, Managements, Evidence, Records,
      Carriers, Markers, Creations, Holders, Snapshots, Saved, Orders, Retries, Placements, Activations, Paces, Trails;
    assert CreateCalled(op.id) !in w.h.log;
    NewMarkKeepsCounted(w.h.log, w.h.marks, calls, creations, op.marker, op.id);
  }
}
