/** The lifecycle as a state machine over its steps, and runs in which the service orders again without a backoff. */
module LifecycleRuns {
  import opened Environments
  import opened Operations
  import opened GoEdge
  import opened Rollback
  import opened Scheduler
  import opened Lifecycle
  import opened LifecycleSteps
  import opened LifecycleWorld
  import opened LifecycleOrders
  import opened LifecycleEdge
  import opened LifecycleTheorems

  /** Every durable step of the service and of the world around it. */
  datatype Step =
    | Wait(now: int)
    | Note(event: Event)
    | Send(id: string)
    | Deny(id: string)
    | Mint(fingerprint: string)
    | Move(id: string, next: Stage, patch: Patch, now: int)
    | Begin(op: Operation, attempt: int, now: int)
    | Make(id: string, input: CertificateInput, certID: int)
    | Put(id: string, input: CertificateInput, holder: string)
    | Publish(id: string, snapshot: Snapshot)
    | Drop(id: string)
    | Complain(ipv4: string, category: string, message: string, marker: string)
    | Mark(id: string)
    | Promote(id: string, reference: string, renewalAt: int, now: int)

  function Apply(w: World, step: Step): World
  {
    match step
    case Wait(now) => w.(now := now)
    case Note(event) => Logged(w, event)
    case Send(id) => if id in w.rows then OrderSent(w, id) else w
    case Deny(id) => OrderDenied(w, id)
    case Mint(f) => WithLeaf(w, f)
    case Move(id, next, patch, now) => if id in w.rows then Moved(w, id, next, patch, w.now, now) else w
    case Begin(op, attempt, now) => Created(w, op, attempt, now)
    case Make(id, input, c) => RecordMade(w, id, input, c)
    case Put(id, input, holder) =>
      if id in w.rows && w.rows[id].certID in w.certs then RecordPut(w, id, input, holder) else w
    case Publish(id, sn) => SnapshotSaved(w, id, sn)
    case Drop(id) => SnapshotDropped(w, id)
    case Complain(ip, category, message, marker) =>
      if ip in w.managed then WithManagedError(w, ip, category, message, marker) else w
    case Mark(id) => if id in w.rows then Normalized(w, id) else w
    case Promote(id, reference, renewalAt, now) =>
      if id in w.rows then Promoted(w, id, reference, renewalAt, now) else w
  }

  /** A check is noted at the instant of its answer. */
  predicate IsTimely(event: Event, now: int)
  {
    match event
    case BoundSeen(_, _, at) => at == now
    case TlsSeen(_, _, at) => at == now
    case TlsMissed(_, _, at) => at == now
    case ObtainCalled(_) => false
    case _ => true
  }

  ghost predicate May(w: World, s: Policy, step: Step)
  {
    match step
    case Wait(now) => now >= w.now
    case Note(event) => IsTimely(event, w.now) && MayLog(w, event)
    case Send(id) => MaySend(w, id)
    case Deny(id) => MayDeny(w, id)
    case Mint(f) => f != "" && f !in w.issued
    case Move(id, next, patch, now) => MayMove(w, s, id, next, patch, w.now) && now > w.now
    case Begin(op, attempt, now) => MayCreate(w, op, attempt) && now > w.now
    case Make(id, input, c) => MayMake(w, id, input, c)
    case Put(id, input, holder) => MayPut(w, id, input, holder)
    case Publish(id, sn) => MaySave(w, id, sn)
    case Drop(id) => MayDrop(w, id)
    case Complain(ip, category, message, marker) => ip in w.managed && message != ""
    case Mark(id) => id in w.rows && IsFirstIssueFailure(w.rows[id])
    case Promote(id, reference, renewalAt, now) => MayActivate(w, s, id, renewalAt) && now > w.now
  }

  function Run(w: World, steps: seq<Step>): World
  {
    if steps == [] then w else Apply(Run(w, steps[..|steps| - 1]), steps[|steps| - 1])
  }

  ghost predicate Allowed(w: World, s: Policy, steps: seq<Step>)
  {
    steps != [] ==>
      var n := |steps| - 1; Allowed(w, s, steps[..n]) && May(Run(w, steps[..n]), s, steps[n])
  }

  lemma StepKeepsInv(w: World, s: Policy, step: Step)
    requires Inv(w, s) && May(w, s, step)
    ensures Inv(Apply(w, step), s) && Later(w, Apply(w, step))
  {
    hide Inv, Later, MayLog, MaySend, MayMove, MayCreate, MayMake, MaySave, MayDrop, Moved, Created, RecordMade,
      RecordPut, SnapshotSaved, SnapshotDropped, OrderSent, Promoted;
    match step {
      case Wait(now) => TickKeepsInv(w, s, now);
      case Note(event) => LogKeepsInv(w, s, event);
      case Send(id) =>
        assert id in w.rows by { MayNames(w, s, step); }
        SendKeepsInv(w, s, id);
      case Deny(id) => DenyKeepsInv(w, s, id);
      case Mint(f) => LeafKeepsInv(w, s, f);
      case Move(id, next, patch, now) =>
        assert id in w.rows by { MayNames(w, s, step); }
        MoveKeepsInv(w, s, id, next, patch, w.now, now);
      case Begin(op, attempt, now) => CreateKeepsInv(w, s, op, attempt, now);
      case Make(id, input, c) => MakeKeepsInv(w, s, id, input, c);
      case Put(id, input, holder) => PutKeepsInv(w, s, id, input, holder);
      case Publish(id, sn) => SaveKeepsInv(w, s, id, sn);
      case Drop(id) => DropKeepsInv(w, s, id);
      case Complain(ip, category, message, marker) => ManagedErrorKeepsInv(w, s, ip, category, message, marker);
      case Mark(id) => NormalizeKeepsInv(w, s, id);
      case Promote(id, reference, renewalAt, now) => PromoteKeepsInv(w, s, id, reference, renewalAt, now);
    }
  }

  lemma MayNames(w: World, s: Policy, step: Step)
    requires May(w, s, step)
    ensures step.Send? || step.Move? ==> step.id in w.rows
  {
  }

  /** Every run, of any length, keeps the invariant and undoes nothing. */
  lemma {:induction false} RunKeepsInv(w: World, s: Policy, steps: seq<Step>)
    requires Inv(w, s) && Allowed(w, s, steps)
    ensures Inv(Run(w, steps), s) && Later(w, Run(w, steps))
    decreases |steps|
  {
    hide Inv, Later, May, Apply;
    if steps == [] {
      LaterIsReflexive(w);
    } else {
      var n := |steps| - 1;
      var v := Run(w, steps[..n]);
      RunKeepsInv(w, s, steps[..n]);
      StepKeepsInv(v, s, steps[n]);
      LaterIsTransitive(w, v, Apply(v, steps[n]));
    }
  }

  // ---------------------------------------------------------------- reachable states

  /** A fresh installation, started at an instant. */
  function Start(t: Instant): World
  {
    World(map[], map[], map[], map[], {}, t, NoHistory)
  }

  ghost predicate Leads(w: World, s: Policy, steps: seq<Step>, v: World)
  {
    Allowed(w, s, steps) && Run(w, steps) == v
  }

  /** Some run of a fresh installation ends in this state. */
  ghost predicate Reachable(s: Policy, t: Instant, v: World)
  {
    exists steps :: Leads(Start(t), s, steps, v)
  }

  lemma StartIsReachable(s: Policy, t: Instant)
    ensures Reachable(s, t, Start(t))
  {
    assert Leads(Start(t), s, [], Start(t));
  }

  lemma StepIsReachable(s: Policy, t: Instant, w: World, step: Step)
    requires Reachable(s, t, w) && May(w, s, step)
    ensures Reachable(s, t, Apply(w, step))
  {
    hide May, Apply;
    var steps :| Leads(Start(t), s, steps, w);
    assert (steps + [step])[..|steps|] == steps;
    assert Leads(Start(t), s, steps + [step], Apply(w, step));
  }

  lemma StartIsValid(s: Policy, t: Instant)
    requires s.Validate()
    ensures Inv(Start(t), s)
  {
    CloseInv(Start(t), s);
  }

  lemma ReachableIsValid(s: Policy, t: Instant, v: World)
    requires s.Validate() && Reachable(s, t, v)
    ensures Inv(v, s)
  {
    hide Inv, Allowed, Run;
    StartIsValid(s, t);
    var steps :| Leads(Start(t), s, steps, v);
    RunKeepsInv(Start(t), s, steps);
  }

  // ---------------------------------------------------------------- a run to the first certificate

  function FirstIssue(id: string, ip: string): Operation
  {
    Operation(id, ip, Issue, New, Marker(Issue, ip, id), 1, 1, 0, 1, "", 0, "", "", "", 0, 0, 0, 0)
  }

  /** The one operation of the installation, at a stage. */
  ghost predicate Alone(w: World, id: string, ip: string, stage: Stage)
  {
    && id in w.rows && w.rows.Keys == {id} && w.managed == map[] && w.snapshots == map[]
    && w.h.last == id && ip in w.h.latest && w.h.latest[ip] == id
    && var o := w.rows[id];
    && o.kind == Issue && o.stage == stage && o.ipv4 == ip && o.marker == Marker(Issue, ip, id) && o.createdAt <= w.now
  }

  /** Nothing has been ordered yet, and GoEdge has no record. */
  ghost predicate Unordered(w: World, id: string)
  {
    && w.certs == map[] && w.issued == {} && w.h.owner == map[] && w.h.made == map[] && id !in w.h.orderedAt
    && id !in w.h.deniedAt && (forall e <- w.h.log :: e.RunStarted?)
  }

  lemma FirstBegins(s: Policy, id: string, ip: string, t: Instant)
    requires IsOperationID(id) && ip != ""
    ensures var w := Apply(Start(t), Note(RunStarted(ip, Interactive)));
            var step := Begin(FirstIssue(id, ip), 0, t + 1);
            && May(Start(t), s, Note(RunStarted(ip, Interactive))) && May(w, s, step)
            && Alone(Apply(w, step), id, ip, New) && Unordered(Apply(w, step), id)
            && Apply(w, step).now == t + 1 && RunStarted(ip, Interactive) in Apply(w, step).h.log
  {
    hide IsOperationID, Marker;
  }

  lemma FirstPresents(s: Policy, w: World, id: string, ip: string)
    requires Alone(w, id, ip, New) && Unordered(w, id)
    ensures var step := Move(id, ChallengePresent, SetMarker("awaiting-acme"), w.now + 1);
            var v := Apply(w, step);
            && May(w, s, step) && Alone(v, id, ip, ChallengePresent) && Unordered(v, id) && v.now == w.now + 1
            && v.h.log == w.h.log
  {
    hide Marker;
  }

  /** The order was answered with this leaf. */
  ghost predicate Answered(w: World, id: string, leaf: string)
  {
    && w.certs == map[] && w.issued == {leaf} && w.h.owner == map[] && w.h.made == map[] && id in w.h.orderedAt
    && id !in w.h.deniedAt && CreateCalled(id) !in w.h.log
  }

  lemma FirstOrders(s: Policy, w: World, id: string, ip: string, leaf: string)
    requires Alone(w, id, ip, ChallengePresent) && Unordered(w, id) && leaf != ""
    requires RunStarted(ip, Interactive) in w.h.log
    ensures var v := Apply(w, Send(id));
            && May(w, s, Send(id)) && May(v, s, Mint(leaf))
            && Alone(Apply(v, Mint(leaf)), id, ip, ChallengePresent) && Answered(Apply(v, Mint(leaf)), id, leaf)
            && Apply(v, Mint(leaf)).now == w.now && Apply(v, Mint(leaf)).issued == {leaf}
  {
    hide Marker;
    assert ObtainCalled(ip) !in w.h.log;
  }

  ghost predicate Stored(w: World, id: string, leaf: string, expiresAt: int)
  {
    && w.certs == map[] && w.h.made == map[] && CreateCalled(id) !in w.h.log
    && id in w.rows && w.rows[id].certFingerprint == leaf != "" && w.rows[id].expiresAt == expiresAt
  }

  lemma FirstStores(s: Policy, w: World, id: string, ip: string, leaf: string, expiresAt: int)
    requires Alone(w, id, ip, ChallengePresent) && Answered(w, id, leaf) && leaf != "" && expiresAt > 0
    ensures var step := Move(id, CertIssued, SetIssued(leaf, expiresAt), w.now + 1);
            var v := Apply(w, step);
            && May(w, s, step) && Alone(v, id, ip, CertIssued) && Stored(v, id, leaf, expiresAt) && v.now == w.now + 1
            && v.issued == w.issued
  {
    hide Marker;
  }

  function FirstInput(id: string, ip: string, leaf: string, expiresAt: int): CertificateInput
  {
    CertificateInput(0, 1, true, Marker(Issue, ip, id), "", "", false, Leaf(leaf), "key", 0, expiresAt, [ip], [])
  }

  /** The record of the operation is created and recorded. */
  ghost predicate Recorded(w: World, id: string, leaf: string, expiresAt: int)
  {
    && id in w.rows && w.rows[id].certFingerprint == leaf && w.rows[id].expiresAt == expiresAt && w.rows[id].certID == 1
  }

  lemma FirstMakes(s: Policy, w: World, id: string, ip: string, leaf: string, expiresAt: int)
    requires Alone(w, id, ip, CertIssued) && Stored(w, id, leaf, expiresAt)
    ensures var u := Apply(w, Note(CreateCalled(id)));
            var v := Apply(u, Make(id, FirstInput(id, ip, leaf, expiresAt), 1));
            && May(w, s, Note(CreateCalled(id))) && May(u, s, Make(id, FirstInput(id, ip, leaf, expiresAt), 1))
            && Alone(v, id, ip, CertIssued) && v.now == w.now && v.rows == w.rows
            && id in v.h.made && v.h.made[id] == 1 && 1 in v.h.carrier && v.h.carrier[1] == id
            && v.rows[id].certFingerprint == leaf && v.rows[id].expiresAt == expiresAt
            && v.issued == w.issued
  {
    hide Marker;
  }

  lemma FirstRecords(s: Policy, w: World, id: string, ip: string, leaf: string, expiresAt: int)
    requires Alone(w, id, ip, CertIssued) && id in w.h.made && w.h.made[id] == 1
             && 1 in w.h.carrier && w.h.carrier[1] == id
    requires w.rows[id].certFingerprint == leaf && w.rows[id].expiresAt == expiresAt
    ensures var step := Move(id, CertCreated, SetCert(1), w.now + 1);
            var v := Apply(w, step);
            && May(w, s, step) && id in v.rows && Alone(v, id, ip, CertCreated)
            && Recorded(v, id, leaf, expiresAt) && v.now == w.now + 1
            && v.issued == w.issued
  {
    hide Marker;
  }

  lemma FirstChecks(s: Policy, w: World, id: string, ip: string, leaf: string, expiresAt: int)
    requires Alone(w, id, ip, CertCreated) && Recorded(w, id, leaf, expiresAt)
    ensures var bound, shown := Note(BoundSeen(w.rows[id].policyID, 1, w.now)), Note(TlsSeen(ip, leaf, w.now));
            var u := Apply(w, bound);
            var v := Apply(u, shown);
            && May(w, s, bound) && May(u, s, shown) && Alone(v, id, ip, CertCreated) && Recorded(v, id, leaf, expiresAt)
            && v.now == w.now && BoundDuring(v.h.log, w.rows[id].policyID, 1, w.rows[id].createdAt, w.now)
            && ShownDuring(v.h.log, ip, leaf, w.rows[id].createdAt, w.now) && v.rows == w.rows
            && v.issued == w.issued
  {
    hide Marker;
    var log := w.h.log + multiset{BoundSeen(w.rows[id].policyID, 1, w.now)};
    assert BoundSeen(w.rows[id].policyID, 1, w.now) in log + multiset{TlsSeen(ip, leaf, w.now)};
    assert TlsSeen(ip, leaf, w.now) in log + multiset{TlsSeen(ip, leaf, w.now)};
  }

  lemma FirstBinds(s: Policy, w: World, id: string, ip: string, leaf: string, expiresAt: int)
    requires Alone(w, id, ip, CertCreated) && Recorded(w, id, leaf, expiresAt)
    requires BoundDuring(w.h.log, w.rows[id].policyID, 1, w.rows[id].createdAt, w.now)
    requires ShownDuring(w.h.log, ip, leaf, w.rows[id].createdAt, w.now)
    ensures var step := Move(id, PolicyBound, ClearMarker, w.now + 1);
            var v := Apply(w, step);
            && May(w, s, step) && Alone(v, id, ip, PolicyBound) && Recorded(v, id, leaf, expiresAt)
            && v.now == w.now + 1
            && v.issued == w.issued
  {
    hide Marker, BoundDuring, ShownDuring;
  }

  /** The address is managed, everything is over, and its newest operation is active. */
  ghost predicate Quiet(w: World, id: string, ip: string)
  {
    && Settled(w) && ip in w.managed && id in w.rows && w.rows.Keys == {id} && w.rows[id].stage == Active
    && ip in w.h.latest && w.h.latest[ip] == id
  }

  lemma FirstActivates(s: Policy, w: World, id: string, ip: string, leaf: string, expiresAt: int)
    requires Alone(w, id, ip, PolicyBound) && Recorded(w, id, leaf, expiresAt)
    ensures var step := Promote(id, "account", StoredRenewal(s, ip, expiresAt), w.now + 1);
            var v := Apply(w, step);
            && May(w, s, step) && Quiet(v, id, ip) && v.now == w.now + 1
            && v.managed[ip].nextRenewalAt == StoredRenewal(s, ip, expiresAt) && v.managed[ip].state == Active
            && v.issued == w.issued
  {
    hide Marker, StoredRenewal;
  }

  /** From a fresh installation to an active certificate, six instants later. */
  lemma FirstCertificate(s: Policy, id: string, ip: string, leaf: string, expiresAt: int, t: Instant) returns (v: World)
    requires IsOperationID(id) && ip != "" && leaf != "" && expiresAt > 0
    ensures Reachable(s, t, v) && Quiet(v, id, ip) && v.now == t + 6 && v.issued == {leaf}
    ensures v.managed[ip].nextRenewalAt == StoredRenewal(s, ip, expiresAt) && v.managed[ip].state == Active
  {
    hide Reachable, May, Apply, Alone, Unordered, Answered, Stored, Recorded, Quiet, IsOperationID, StoredRenewal,
      BoundDuring, ShownDuring, Marker;
    StartIsReachable(s, t);
    v := Start(t);
    FirstBegins(s, id, ip, t);
    v := Take(s, t, v, Note(RunStarted(ip, Interactive)));
    v := Take(s, t, v, Begin(FirstIssue(id, ip), 0, t + 1));
    FirstPresents(s, v, id, ip);
    v := Take(s, t, v, Move(id, ChallengePresent, SetMarker("awaiting-acme"), v.now + 1));
    FirstOrders(s, v, id, ip, leaf);
    v := Take(s, t, v, Send(id));
    v := Take(s, t, v, Mint(leaf));
    FirstStores(s, v, id, ip, leaf, expiresAt);
    v := Take(s, t, v, Move(id, CertIssued, SetIssued(leaf, expiresAt), v.now + 1));
    FirstMakes(s, v, id, ip, leaf, expiresAt);
    v := Take(s, t, v, Note(CreateCalled(id)));
    v := Take(s, t, v, Make(id, FirstInput(id, ip, leaf, expiresAt), 1));
    FirstRecords(s, v, id, ip, leaf, expiresAt);
    v := Take(s, t, v, Move(id, CertCreated, SetCert(1), v.now + 1));
    FirstChecks(s, v, id, ip, leaf, expiresAt);
    var policyID, at := v.rows[id].policyID, v.now;
    v := Take(s, t, v, Note(BoundSeen(policyID, 1, at)));
    v := Take(s, t, v, Note(TlsSeen(ip, leaf, at)));
    FirstBinds(s, v, id, ip, leaf, expiresAt);
    v := Take(s, t, v, Move(id, PolicyBound, ClearMarker, v.now + 1));
    FirstActivates(s, v, id, ip, leaf, expiresAt);
    v := Take(s, t, v, Promote(id, "account", StoredRenewal(s, ip, expiresAt), v.now + 1));
  }

  lemma Take(s: Policy, t: Instant, w: World, step: Step) returns (v: World)
    requires Reachable(s, t, w) && May(w, s, step)
    ensures v == Apply(w, step) && Reachable(s, t, v)
  {
    hide Reachable, May, Apply;
    StepIsReachable(s, t, w, step);
    v := Apply(w, step);
  }

  // ---------------------------------------------------------------- renewals that are ordered again without a backoff

  /** The renewal the service would begin next. */
  function RenewalOf(w: World, id: string, ip: string): Operation
    requires ip in w.managed
  {
    var m := w.managed[ip];
    Operation(id, ip, Renew, Renewing, Marker(Renew, ip, id), m.serverID, m.policyID, m.certID, 0, "", 0, "", "", "",
              0, 0, 0, 0)
  }

  /** A renewal of the managed address waits for its leaf, with nothing stored of it. */
  ghost predicate Waiting(w: World, first: string, id: string, ip: string, stage: Stage)
  {
    && first != id && w.rows.Keys == {first, id} && id in w.rows && w.rows[id].kind == Renew && w.rows[id].ipv4 == ip
    && w.rows[id].stage == stage && ip in w.managed && w.h.last == id && ip in w.h.latest && id !in w.h.orderedAt
    && id in w.h.trail
  }

  lemma BeginsRenewal(s: Policy, w: World, first: string, id: string, ip: string, at: int)
    requires Inv(w, s) && Quiet(w, first, ip) && ip != "" && IsOperationID(id) && id != first && at > w.now
    ensures ip in w.managed
    ensures var step := Begin(RenewalOf(w, id, ip), 0, at);
            var v := Apply(w, step);
            && May(w, s, step) && Waiting(v, first, id, ip, Renewing) && v.managed == w.managed && v.now == at
            && v.issued == w.issued
  {
    assert id !in w.h.orderedAt by { OnlyRowsOrder(w, s, id); }
    hide Inv, Marker, IsOperationID;
  }

  lemma PresentsRenewal(s: Policy, w: World, first: string, id: string, ip: string)
    requires Waiting(w, first, id, ip, Renewing)
    ensures var step := Move(id, ChallengePresent, SetMarker("awaiting-acme"), w.now + 1);
            var v := Apply(w, step);
            && May(w, s, step) && Waiting(v, first, id, ip, ChallengePresent) && v.managed == w.managed
            && v.now == w.now + 1
            && v.issued == w.issued
  {
  }

  /** A renewal that waits at the authority: begun when due, and presented. */
  lemma RenewalWaits(s: Policy, first: string, second: string, ip: string, leaf: string, expiresAt: int, t: Instant,
                     due: int)
    returns (v: World)
    requires s.Validate() && IsOperationID(first) && IsOperationID(second) && first != second && ip != "" && leaf != ""
    requires expiresAt > 0 && due > t + 6
    ensures Reachable(s, t, v) && Waiting(v, first, second, ip, ChallengePresent) && v.now == due + 1
    ensures v.issued == {leaf}
    ensures ip in v.managed && v.managed[ip].nextRenewalAt == StoredRenewal(s, ip, expiresAt)
  {
    hide Reachable, May, Apply, Quiet, Waiting, IsOperationID, StoredRenewal, Inv;
    v := FirstCertificate(s, first, ip, leaf, expiresAt, t);
    ReachableIsValid(s, t, v);
    BeginsRenewal(s, v, first, second, ip, due);
    v := Take(s, t, v, Begin(RenewalOf(v, second, ip), 0, due));
    PresentsRenewal(s, v, first, second, ip);
    v := Take(s, t, v, Move(second, ChallengePresent, SetMarker("awaiting-acme"), v.now + 1));
  }

  /** A failure that leaves nothing to wait for, and the next renewal, which begins at the next instant. */
  ghost predicate OrderedAgain(s: Policy, t: Instant, v: World, second: string, u: World, third: string)
  {
    && Reachable(s, t, v) && Settled(v) && second in v.rows && v.rows[second].kind == Renew
    && v.rows[second].stage == Stage.Error && RetryOf(v.rows[second]) == RetryInfo(0, 0)
    && v.rows[second].ipv4 in v.managed && Due(v.now, FromUnix(v.managed[v.rows[second].ipv4].nextRenewalAt))
    && Reachable(s, t, u) && third in u.rows && u.rows[third].kind == Renew
    && u.rows[third].ipv4 == v.rows[second].ipv4 && u.rows[third].createdAt == v.now + 1
    && third in u.h.previous && u.h.previous[third] == second
  }

  lemma FailsAndRepeats(s: Policy, t: Instant, w: World, first: string, second: string, third: string, ip: string,
                        patch: Patch)
    returns (v: World, u: World)
    requires s.Validate() && Reachable(s, t, w) && w.now >= 0 && IsOperationID(third) && third !in {first, second}
    requires Inv(w, s) && ip != "" && ip in w.managed && w.rows.Keys == {first, second}
    requires second in w.rows && w.rows[second].kind == Renew && w.rows[second].ipv4 == ip
    requires w.rows[second].stage == ChallengePresent && second == w.h.last
    requires patch.SetFailure? && patch.message != ORDER_FAILED
    requires Due(w.now, FromUnix(w.managed[ip].nextRenewalAt))
    ensures OrderedAgain(s, t, v, second, u, third) && v.h.orderedAt == w.h.orderedAt
    ensures v.rows[second].errorCategory == patch.category && v.rows[second].errorMessage == patch.message
    ensures v.rows[second].recoveryMarker == patch.marker && v.now == w.now + 1
  {
    hide Reachable, Inv, IsOperationID, Marker, Apply, May, Moved, Created, MayCreate, Settled;
    var op := RenewalOf(w, third, ip);
    PlainFailureIsOrderedAgain(w, s, second, patch, w.now + 1, op, w.now + 2);
    v := Moved(w, second, Stage.Error, patch, 0, w.now + 1);
    u := Created(v, op, 0, w.now + 2);
    NewestOfAll(w, s, second);
    TakesBoth(s, t, w, second, patch, op);
    PlainMove(w, second, patch);
    SecondFollows(v, second, op, w.now + 2);
    SettledBefore(v, op);
  }

  lemma SettledBefore(w: World, op: Operation)
    requires MayCreate(w, op, 0)
    ensures Settled(w)
  {
    hide Settled, IsOperationID, Marker;
  }

  lemma SecondFollows(w: World, id: string, op: Operation, now: int)
    requires op.ipv4 in w.h.latest && w.h.latest[op.ipv4] == id
    ensures var u := Created(w, op, 0, now);
            && op.id in u.rows && u.rows[op.id].kind == op.kind && u.rows[op.id].ipv4 == op.ipv4
            && u.rows[op.id].createdAt == now && op.id in u.h.previous && u.h.previous[op.id] == id
  {
  }

  lemma TakesBoth(s: Policy, t: Instant, w: World, id: string, patch: Patch, op: Operation)
    requires Reachable(s, t, w) && id in w.rows && w.rows[id].stage == ChallengePresent && id == w.h.last
    requires patch.SetFailure? && patch.message != ORDER_FAILED
    requires MayCreate(Moved(w, id, Stage.Error, patch, 0, w.now + 1), op, 0)
    ensures Reachable(s, t, Moved(w, id, Stage.Error, patch, 0, w.now + 1))
    ensures Reachable(s, t, Created(Moved(w, id, Stage.Error, patch, 0, w.now + 1), op, 0, w.now + 2))
  {
    hide Reachable, MayCreate, Moved, Created;
    StepIsReachable(s, t, w, Move(id, Stage.Error, patch, w.now + 1));
    assert Moved(w, id, Stage.Error, patch, w.now, w.now + 1) == Moved(w, id, Stage.Error, patch, 0, w.now + 1) by {
      PlainMove(w, id, patch);
    }
    var v := Moved(w, id, Stage.Error, patch, 0, w.now + 1);
    assert v.now == w.now + 1 by { PlainMove(w, id, patch); }
    StepIsReachable(s, t, v, Begin(op, 0, w.now + 2));
  }

  lemma PlainMove(w: World, id: string, patch: Patch)
    requires id in w.rows && patch.SetFailure?
    ensures Moved(w, id, Stage.Error, patch, w.now, w.now + 1) == Moved(w, id, Stage.Error, patch, 0, w.now + 1)
    ensures var v := Moved(w, id, Stage.Error, patch, 0, w.now + 1);
            && v.now == w.now + 1 && v.managed == w.managed && v.h.latest == w.h.latest
            && v.h.orderedAt == w.h.orderedAt && id in v.rows && v.rows[id].kind == w.rows[id].kind
            && v.rows[id].ipv4 == w.rows[id].ipv4 && v.rows[id].stage == Stage.Error
            && v.rows[id].errorCategory == patch.category && v.rows[id].errorMessage == patch.message
            && v.rows[id].recoveryMarker == patch.marker
  {
  }

  /** The documented backoff after a temporary error of a renewal is missing when the order was interrupted:
      whatever the policy, the address and the instants, a due renewal of an active certificate fails, and the next
      one is begun one instant later. */
  lemma InterruptedRenewalHasNoBackoff(s: Policy, first: string, second: string, third: string, ip: string,
                                       leaf: string,
                                       expiresAt: int, t: Instant, due: int)
    returns (v: World, u: World)
    requires s.Validate() && IsOperationID(first) && IsOperationID(second) && IsOperationID(third)
    requires first != second && third !in {first, second} && ip != "" && leaf != "" && expiresAt > 0
    requires due > t + 6 && Due(due, FromUnix(StoredRenewal(s, ip, expiresAt)))
    ensures OrderedAgain(s, t, v, second, u, third)
    ensures v.rows[second].errorCategory == "transient" && v.rows[second].errorMessage == INTERRUPTED
    ensures v.rows[second].recoveryMarker == "retry-new-order"
  {
    hide Reachable, Inv, IsOperationID, StoredRenewal, OrderedAgain;
    var w := RenewalWaits(s, first, second, ip, leaf, expiresAt, t, due);
    ReachableIsValid(s, t, w);
    v, u := FailsAndRepeats(s, t, w, first, second, third, ip, SetFailure("transient", INTERRUPTED, "retry-new-order"));
  }

  lemma Answers(s: Policy, w: World, first: string, id: string, ip: string, leaf: string)
    requires Waiting(w, first, id, ip, ChallengePresent) && leaf != "" && leaf !in w.issued
    ensures var v := Apply(w, Send(id));
            var u := Apply(v, Mint(leaf));
            && May(w, s, Send(id)) && May(v, s, Mint(leaf)) && u.rows == w.rows && u.managed == w.managed
            && u.now == w.now && u.h.last == w.h.last && id in u.h.orderedAt && leaf in u.issued
  {
  }

  /** The documented closing after a security error is missing: the authority's answer to a due renewal fails its checks
      and is marked for a person, and the next order is begun one instant later all the same. */
  lemma RejectedRenewalIsOrderedAgain(s: Policy, first: string, second: string, third: string, ip: string, leaf: string,
                                      bad: string, expiresAt: int, t: Instant, due: int)
    returns (v: World, u: World)
    requires s.Validate() && IsOperationID(first) && IsOperationID(second) && IsOperationID(third)
    requires first != second && third !in {first, second} && ip != "" && leaf != "" && expiresAt > 0
    requires bad !in {"", leaf}
    requires due > t + 6 && Due(due, FromUnix(StoredRenewal(s, ip, expiresAt)))
    ensures OrderedAgain(s, t, v, second, u, third)
    ensures v.rows[second].errorCategory == "security" && v.rows[second].errorMessage == REJECTED
    ensures v.rows[second].recoveryMarker == "manual-review" && second in v.h.orderedAt
  {
    hide Reachable, Inv, IsOperationID, StoredRenewal, OrderedAgain, May, Apply;
    var w := RenewalWaits(s, first, second, ip, leaf, expiresAt, t, due);
    Answers(s, w, first, second, ip, bad);
    w := Take(s, t, w, Send(second));
    w := Take(s, t, w, Mint(bad));
    ReachableIsValid(s, t, w);
    v, u := FailsAndRepeats(s, t, w, first, second, third, ip, SetFailure("security", REJECTED, "manual-review"));
  }

  // ---------------------------------------------------------------- an active operation with an error

  /** An operation in ACTIVE can bear an error: its activation was committed and reported as failed, and the failed step
      is then recorded on it. */
  lemma ActiveOperationCanBearError(s: Policy, id: string, ip: string, leaf: string, expiresAt: int, t: Instant)
    returns (v: World)
    requires s.Validate() && IsOperationID(id) && ip != "" && leaf != "" && expiresAt > 0
    ensures Reachable(s, t, v) && id in v.rows && v.rows[id].stage == Active && v.rows[id].errorMessage == STEP_FAILED
    ensures ip in v.managed && v.managed[ip].state == Active
  {
    hide Reachable, Inv, May, Apply, IsOperationID, StoredRenewal, BoundDuring, ShownDuring;
    var w := FirstCertificate(s, id, ip, leaf, expiresAt, t);
    ReachableIsValid(s, t, w);
    EvidenceBeforeActive(w, s, id);
    LastHasRow(w, s, id);
    var patch := SetFailure("transient", STEP_FAILED, "retry-integration-step");
    RecordsFailure(s, w, id, patch);
    v := Take(s, t, w, Move(id, Active, patch, w.now + 1));
  }

  lemma LastHasRow(w: World, s: Policy, id: string)
    requires Inv(w, s) && id in w.rows
    ensures w.h.last in w.rows
  {
    hide Moments, RowsOk, Newest, Stages, Owners, Managements, Evidence, Records, Carriers, Markers, Creations, Holders,
      Snapshots, Saved, Creates, Orders, Retries, Placements, Activations, Paces, Trails, GiveUps;
    OpenInv(w, s);
  }

  lemma RecordsFailure(s: Policy, w: World, id: string, patch: Patch)
    requires id in w.rows && w.rows[id].stage == Active && id == w.h.last && w.rows[id].certFingerprint != ""
    requires patch.SetFailure? && patch.message == STEP_FAILED
    ensures var step := Move(id, Active, patch, w.now + 1);
            var v := Apply(w, step);
            && May(w, s, step) && id in v.rows && v.rows[id].stage == Active && v.rows[id].errorMessage == STEP_FAILED
            && v.managed == w.managed
  {
  }
}
