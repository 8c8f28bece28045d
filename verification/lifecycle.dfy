/** The durable state of the service as one value, and what holds of it at every crash point. */
module Lifecycle {
  import opened Operations
  import opened GoEdge
  import opened Rollback
  import opened Scheduler

  // The messages the service writes with a failure.
  const INTERRUPTED := "operation interrupted before certificate persisted"
  const KEY_LOST := "certificate private key unavailable after restart"
  const RESTORED := "new certificate failed TLS verification and old certificate was restored"
  const STEP_FAILED := "integration step failed"
  const ORDER_FAILED := "ACME issuance failed"
  const REJECTED := "issued certificate validation failed"

  datatype RunMode = Interactive | Timer | ManualFirstIssueRetry

  /** Calls whose occurrence the properties count, and checks that were answered, with the instant of the answer. */
  datatype Event =
    | ObtainCalled(ipv4: string)
    | CreateCalled(operationID: string)
    | BoundSeen(policyID: int, certID: int, at: int)
    | TlsSeen(ipv4: string, fingerprint: string, at: int)
    | TlsMissed(ipv4: string, fingerprint: string, at: int)
    | RunStarted(ipv4: string, mode: RunMode)

  /** History variables: they record, and never steer. `trail` holds the stages of an operation, `previous` the
      operation before it for its address, `attempt` the retry number its order started with, `failedAt` the instant
      its backoff was computed from, `orderedAt` and `deniedAt` the instants at which the authority was asked and
      answered with a failure, `last` the newest operation of all, `moment` the operation created at an instant,
      `latest` and `active` the newest and the last activated operation of an address, `activatedAt` the instant an
      operation was activated at, `owner` the operation a leaf was issued to, `marks` the issue operation a marker
      names, `made` the record created for an issue operation, `carrier` the operation whose certificate a record
      carries, and `saved` every snapshot ever published, `savedAt` by which instant. */
  datatype History = History(
    log: multiset<Event>, trail: map<string, seq<Stage>>, previous: map<string, string>, attempt: map<string, int>,
    failedAt: map<string, int>, orderedAt: map<string, int>, deniedAt: map<string, int>, last: string,
    moment: map<int, string>, latest: map<string, string>,
    active: map<string, string>, activatedAt: map<string, int>, owner: map<string, string>, marks: map<string, string>,
    made: map<string, int>, carrier: map<int, string>, saved: map<string, Snapshot>, savedAt: map<string, int>)

  const NoHistory :=
    History(multiset{}, map[], map[], map[], map[], map[], map[], "",
            map[], map[], map[], map[], map[], map[], map[], map[], map[], map[])

  type Rows = map<string, Operation>

  datatype World = World(
    rows: Rows, managed: map<string, ManagedCert>, snapshots: map<string, Snapshot>,
    certs: map<int, CertificateConfig>, issued: set<string>, now: int, h: History)

  // ---------------------------------------------------------------- the operation log

  /** Operation `a` was over before `b` began. */
  predicate Before(a: Operation, b: Operation)
  {
    a.createdAt <= a.updatedAt < b.createdAt && !Inflight(a.stage)
  }

  predicate RowOk(id: string, o: Operation, now: int)
  {
    && IsOperationID(id) && o.id == id && o.ipv4 != "" && o.marker == Marker(o.kind, o.ipv4, id)
    && o.createdAt <= o.updatedAt <= now
  }

  ghost predicate RowsOk(rows: Rows, now: int)
  {
    forall id <- rows :: RowOk(id, rows[id], now)
  }

  /** Orders never overlap: everything but the newest operation was over before the newest began. */
  ghost predicate OneAtATime(rows: Rows, last: string)
  {
    forall id <- rows :: last in rows && (id == last || Before(rows[id], rows[last]))
  }

  ghost predicate Newest(rows: Rows, latest: map<string, string>)
  {
    && (forall ip <- latest :: latest[ip] in rows && rows[latest[ip]].ipv4 == ip)
    && (forall id <- rows :: rows[id].ipv4 in latest && latest[rows[id].ipv4] in rows
                             && (id == latest[rows[id].ipv4] || Before(rows[id], rows[latest[rows[id].ipv4]])))
  }

  /** No two operations begin at the same instant. */
  ghost predicate Moments(rows: Rows, moment: map<int, string>)
  {
    forall id <- rows :: rows[id].createdAt in moment && moment[rows[id].createdAt] == id
  }

  predicate SameTarget(m: ManagedCert, o: Operation)
  {
    m.serverID == o.serverID && m.policyID == o.policyID && m.certID == o.certID
  }

  predicate HasCertificate(stage: Stage) { stage in {CertCreated, PolicyBound, Active} }

  predicate StageOk(managed: map<string, ManagedCert>, o: Operation)
  {
    && o.stage != NeedsAttention
    && (o.stage == New ==> o.kind == Issue)
    && (o.stage == Renewing ==> o.kind == Renew)
    && o.certID >= 0
    && (o.kind == Issue ==> (o.certID > 0 <==> HasCertificate(o.stage)))
    && (o.kind == Renew || o.stage == Active ==> o.ipv4 in managed && SameTarget(managed[o.ipv4], o))
    && (o.kind == Issue && Inflight(o.stage) ==> o.ipv4 !in managed)
    && (o.stage == CertIssued || HasCertificate(o.stage) ==> o.certFingerprint != "" && o.expiresAt > 0)
    && (o.stage in {New, Renewing, ChallengePresent} ==> o.certFingerprint == "")
    && (o.stage != Stage.Error ==> o.retryCount == 0 && o.nextRetryAt == 0)
  }

  ghost predicate Stages(rows: Rows, managed: map<string, ManagedCert>)
  {
    forall id <- rows :: StageOk(managed, rows[id])
  }

  /** Every leaf was issued to one operation. */
  ghost predicate Owners(rows: Rows, owner: map<string, string>, issued: set<string>)
  {
    && (forall id <- rows :: rows[id].certFingerprint != "" ==>
                               rows[id].certFingerprint in owner && owner[rows[id].certFingerprint] == id)
    && (forall f <- owner :: f in issued && f != "" && owner[f] in rows && rows[owner[f]].certFingerprint == f)
  }

  ghost predicate ManagedOk(rows: Rows, active: map<string, string>, s: Policy, ip: string, m: ManagedCert)
  {
    && m.ipv4 == ip && m.certID > 0
    && ip in active && active[ip] in rows
    && var a := rows[active[ip]];
    && a.ipv4 == ip && a.stage == Active && SameTarget(m, a) && m.expiresAt == a.expiresAt
    && m.nextRenewalAt == StoredRenewal(s, ip, a.expiresAt)
  }

  /** `managed_certs` agrees with the operation activated last. */
  ghost predicate Managements(rows: Rows, managed: map<string, ManagedCert>, active: map<string, string>, s: Policy)
  {
    && active.Keys == managed.Keys
    && (forall ip <- managed :: ManagedOk(rows, active, s, ip, managed[ip]))
    && (forall id <- rows :: rows[id].stage == Active && rows[id].ipv4 in active && active[rows[id].ipv4] in rows ==>
          rows[id].createdAt <= rows[active[rows[id].ipv4]].createdAt)
  }

  /** A check of the binding succeeded in this span of time. */
  ghost predicate BoundDuring(log: multiset<Event>, policyID: int, certID: int, from: int, to: int)
  {
    exists at :: from <= at <= to && BoundSeen(policyID, certID, at) in log
  }

  ghost predicate ShownDuring(log: multiset<Event>, ip: string, fingerprint: string, from: int, to: int)
  {
    exists at :: from <= at <= to && TlsSeen(ip, fingerprint, at) in log
  }

  /** A check of the leaf failed in this span of time. */
  ghost predicate MissedDuring(log: multiset<Event>, ip: string, fingerprint: string, from: int, to: int)
  {
    exists at :: from <= at <= to && TlsMissed(ip, fingerprint, at) in log
  }

  ghost predicate ShownSince(log: multiset<Event>, ip: string, fingerprint: string, from: int)
  {
    exists at :: from <= at && TlsSeen(ip, fingerprint, at) in log
  }

  /** A check once made stays in a longer log and a longer span. */
  lemma BoundStays(log: multiset<Event>, more: multiset<Event>, policyID: int, certID: int, from: int, to: int,
                   earlier: int, later: int)
    requires log <= more && earlier <= from && to <= later && BoundDuring(log, policyID, certID, from, to)
    ensures BoundDuring(more, policyID, certID, earlier, later)
  {
  }

  lemma ShownStays(log: multiset<Event>, more: multiset<Event>, ip: string, fingerprint: string, from: int, to: int,
                   earlier: int, later: int)
    requires log <= more && earlier <= from && to <= later && ShownDuring(log, ip, fingerprint, from, to)
    ensures ShownDuring(more, ip, fingerprint, earlier, later)
  {
  }

  lemma ShownSooner(log: multiset<Event>, ip: string, fingerprint: string, from: int, to: int, earlier: int, later: int)
    requires earlier <= from && to <= later && ShownDuring(log, ip, fingerprint, from, to)
    ensures ShownDuring(log, ip, fingerprint, earlier, later)
  {
  }

  lemma MissedStays(log: multiset<Event>, more: multiset<Event>, ip: string, fingerprint: string, from: int, to: int,
                    earlier: int, later: int)
    requires log <= more && earlier <= from && to <= later && MissedDuring(log, ip, fingerprint, from, to)
    ensures MissedDuring(more, ip, fingerprint, earlier, later)
  {
  }

  /** The evidence of an operation: checks of its own policy, certificate and leaf, made after it began and before it
      was last written. */
  ghost predicate EvidenceOk(log: multiset<Event>, o: Operation)
  {
    && (o.stage in {PolicyBound, Active} ==>
          && BoundDuring(log, o.policyID, o.certID, o.createdAt, o.updatedAt)
          && ShownDuring(log, o.ipv4, o.certFingerprint, o.createdAt, o.updatedAt))
    && (o.stage == CertCreated && o.kind == Renew ==>
          ShownDuring(log, o.ipv4, o.certFingerprint, o.createdAt, o.updatedAt))
  }

  /** Evidence outlives later writes and later events. */
  lemma EvidenceStays(log: multiset<Event>, more: multiset<Event>, a: Operation, b: Operation)
    requires EvidenceOk(log, a) && log <= more
    requires b.policyID == a.policyID && b.certID == a.certID && b.ipv4 == a.ipv4
             && b.certFingerprint == a.certFingerprint
    requires b.createdAt == a.createdAt && a.updatedAt <= b.updatedAt && b.kind == a.kind
    requires b.stage == a.stage || (a.stage == PolicyBound && b.stage == Active)
             || b.stage !in {CertCreated, PolicyBound, Active}
    ensures EvidenceOk(more, b)
  {
  }

  ghost predicate Evidence(rows: Rows, log: multiset<Event>)
  {
    forall id <- rows :: EvidenceOk(log, rows[id])
  }

  // ---------------------------------------------------------------- the records of GoEdge

  /** The record holds exactly the certificate of the operation, in a form the service may manage. */
  predicate Carries(cert: CertificateConfig, o: Operation)
  {
    && o.certFingerprint != "" && cert.certData == Leaf(o.certFingerprint) && cert.timeEndAt == o.expiresAt
    && cert.dnsNames == [o.ipv4] && !cert.isCA && !cert.isACME && cert.keyData != ""
  }

  /** The one record an operation may ever write. */
  predicate AtHome(made: map<string, int>, id: string, o: Operation, c: int)
  {
    if o.kind == Issue then id in made && made[id] == c else o.certID == c
  }

  ghost predicate Records(certs: map<int, CertificateConfig>, owner: map<string, string>, carrier: map<int, string>,
                          issued: set<string>)
  {
    forall c <- certs ::
      && certs[c].id == c && c > 0
      && var f := Fingerprint(certs[c].certData);
      && (f != "" ==> f in issued)
      && (f in owner ==> c in carrier && carrier[c] == owner[f])
  }

  ghost predicate CarrierOk(certs: map<int, CertificateConfig>, rows: Rows, made: map<string, int>, c: int, id: string)
  {
    c in certs && id in rows && AtHome(made, id, rows[id], c) && Carries(certs[c], rows[id])
  }

  ghost predicate Carriers(certs: map<int, CertificateConfig>, rows: Rows, made: map<string, int>, carrier: map<int,
                           string>)
  {
    forall c <- carrier :: CarrierOk(certs, rows, made, c, carrier[c])
  }

  /** One record per marker, and only for its own operation. */
  ghost predicate Markers(certs: map<int, CertificateConfig>, rows: Rows, made: map<string, int>, marks: map<string,
                          string>)
  {
    && (forall id <- rows :: rows[id].kind == Issue ==> rows[id].marker in marks && marks[rows[id].marker] == id)
    && (forall m <- marks :: marks[m] in rows && rows[marks[m]].kind == Issue && rows[marks[m]].marker == m)
    && (forall id <- made :: id in rows && rows[id].kind == Issue && made[id] in certs
                             && certs[made[id]].name == rows[id].marker)
    && (forall c <- certs :: certs[c].name in marks ==>
                               marks[certs[c].name] in made && made[marks[certs[c].name]] == c)
  }

  predicate MadeOk(made: map<string, int>, carrier: map<int, string>, id: string, o: Operation)
  {
    && (o.stage in {New, ChallengePresent, Stage.Error} ==> id !in made)
    && (HasCertificate(o.stage) ==> id in made && made[id] == o.certID)
    && (id in made && Inflight(o.stage) ==> made[id] in carrier && carrier[made[id]] == id)
  }

  ghost predicate Creations(rows: Rows, made: map<string, int>, carrier: map<int, string>)
  {
    forall id <- rows :: rows[id].kind == Issue ==> MadeOk(made, carrier, id, rows[id])
  }

  /** Who the record of a managed address carries: the active operation, a renewal past its TLS check, or a
      renewal whose snapshot still exists. */
  ghost predicate HolderOk(rows: Rows, active: map<string, string>, carrier: map<int, string>,
                           snapshots: map<string, Snapshot>, ip: string, c: int)
  {
    && c in carrier && carrier[c] in rows && ip in active
    && var holder := rows[carrier[c]];
    && holder.ipv4 == ip
    && (carrier[c] == active[ip]
        || (holder.kind == Renew && (holder.stage in {CertCreated, PolicyBound} || carrier[c] in snapshots)))
  }

  ghost predicate Holders(rows: Rows, managed: map<string, ManagedCert>, active: map<string, string>,
                          carrier: map<int, string>, snapshots: map<string, Snapshot>)
  {
    && (forall ip <- managed :: HolderOk(rows, active, carrier, snapshots, ip, managed[ip].certID))
    && (forall id <- rows :: rows[id].kind == Renew && rows[id].stage in {CertCreated, PolicyBound}
                             && id !in snapshots ==>
          rows[id].certID in carrier && carrier[rows[id].certID] == id)
  }

  // ---------------------------------------------------------------- the rollback snapshots

  /** The saved input is the certificate of operation `a`. */
  predicate HoldsOld(input: CertificateInput, a: Operation)
  {
    && a.certFingerprint != "" && input.certData == Leaf(a.certFingerprint) && input.timeEndAt == a.expiresAt
    && input.dnsNames == [a.ipv4] && !input.isCA && input.keyData != "" && input.userID == 0
  }

  predicate SnapshotMatches(id: string, sn: Snapshot, o: Operation)
  {
    && Complete(sn) && sn.operationID == id
    && o.kind == Renew && o.stage in {CertIssued, CertCreated, Stage.Error}
    && sn.ipv4 == o.ipv4 && sn.certID == o.certID && sn.newFingerprint == o.certFingerprint
  }

  predicate SnapshotSafe(sn: Snapshot, a: Operation, cert: CertificateConfig)
  {
    sn.oldFingerprint == a.certFingerprint && HoldsOld(sn.previous, a) && cert.name == sn.previous.name
  }

  /** The record carries either side of the renewal, and the old side exactly as it was saved. */
  predicate SnapshotSide(id: string, activeID: string, holder: string, stage: Stage, cert: CertificateConfig,
                         sn: Snapshot)
  {
    && (holder == id || holder == activeID)
    && (stage == Stage.Error ==> holder == activeID)
    && (holder == activeID ==> InputFromConfig(cert) == sn.previous)
  }

  ghost predicate SnapshotOk(rows: Rows, active: map<string, string>, certs: map<int, CertificateConfig>,
                             carrier: map<int, string>, last: string, id: string, sn: Snapshot)
  {
    && id == last && id in rows
    && var o := rows[id];
    && SnapshotMatches(id, sn, o)
    && o.ipv4 in active && active[o.ipv4] in rows && active[o.ipv4] != id
    && o.certID in certs && o.certID in carrier
    && SnapshotSafe(sn, rows[active[o.ipv4]], certs[o.certID])
    && SnapshotSide(id, active[o.ipv4], carrier[o.certID], o.stage, certs[o.certID], sn)
  }

  ghost predicate Snapshots(rows: Rows, active: map<string, string>, certs: map<int, CertificateConfig>,
                            carrier: map<int, string>, last: string, snapshots: map<string, Snapshot>)
  {
    forall id <- snapshots :: SnapshotOk(rows, active, certs, carrier, last, id, snapshots[id])
  }

  ghost predicate SavedOk(log: multiset<Event>, snapshots: map<string, Snapshot>, id: string, sn: Snapshot, at: int,
                          o: Operation)
  {
    && sn.newFingerprint == o.certFingerprint && sn.newFingerprint != "" && o.kind == Renew && sn.ipv4 == o.ipv4
    && (id in snapshots ==> snapshots[id] == sn)
    && (id !in snapshots ==>
          && (o.stage == Stage.Error || HasCertificate(o.stage))
          && ShownSince(log, sn.ipv4, if o.stage == Stage.Error then sn.oldFingerprint else sn.newFingerprint, at))
  }

  /** A snapshot disappears only after a TLS check, made since it was published, confirmed one of its two
      certificates. */
  ghost predicate Saved(rows: Rows, log: multiset<Event>, snapshots: map<string, Snapshot>, saved: map<string,
                        Snapshot>,
                        savedAt: map<string, int>)
  {
    && snapshots.Keys <= saved.Keys
    && (forall id <- saved :: id in rows && id in savedAt
                              && SavedOk(log, snapshots, id, saved[id], savedAt[id], rows[id]))
  }

  ghost predicate SavedInPast(savedAt: map<string, int>, now: int)
  {
    forall id <- savedAt :: savedAt[id] <= now
  }

  /** A created certificate is given up only by a renewal that published a snapshot. */
  predicate GivenUpOk(trail: seq<Stage>, o: Operation, published: bool)
  {
    CertCreated in trail ==>
      HasCertificate(o.stage) || (o.stage == Stage.Error && o.kind == Renew && published)
  }

  ghost predicate GiveUps(rows: Rows, trail: map<string, seq<Stage>>, saved: map<string, Snapshot>)
  {
    forall id <- rows :: id in trail && GivenUpOk(trail[id], rows[id], id in saved)
  }

  // ---------------------------------------------------------------- counted calls, backoff, stage paths

  ghost predicate Creates(rows: Rows, log: multiset<Event>)
  {
    && (forall id :: log[CreateCalled(id)] <= 1)
    && (forall id :: CreateCalled(id) in log ==>
                       id in rows && rows[id].kind == Issue && rows[id].stage !in {New, ChallengePresent})
  }

  /** What the runs for an address pay for before it is managed: one order for all interactive runs together, and one
      for each manual run. */
  function Budget(log: multiset<Event>, ip: string): nat
  {
    (if RunStarted(ip, Interactive) in log then 1 else 0) + log[RunStarted(ip, ManualFirstIssueRetry)]
  }

  ghost predicate Orders(managed: map<string, ManagedCert>, latest: map<string, string>, log: multiset<Event>)
  {
    && (forall ip :: ObtainCalled(ip) in log ==> ip in latest)
    && (forall ip :: ip !in managed ==> log[ObtainCalled(ip)] <= Budget(log, ip))
  }

  ghost predicate RetryOk(attempt: map<string, int>, failedAt: map<string, int>, s: Policy, id: string, o: Operation)
  {
    && id in attempt && attempt[id] >= 0 && o.retryCount >= 0
    && (o.retryCount == 0 ==> o.nextRetryAt == 0)
    && (o.retryCount > 0 ==>
          && o.stage == Stage.Error && id in failedAt && o.createdAt <= failedAt[id] <= o.updatedAt
          && o.nextRetryAt == StoredRetry(s, o.retryCount - 1, failedAt[id]))
    && (o.stage == Stage.Error ==>
          && (o.retryCount > 0 <==> o.certFingerprint != "" || o.errorMessage == ORDER_FAILED)
          && (o.certFingerprint != "" ==> o.retryCount == 1 && o.errorMessage != ORDER_FAILED)
          && (o.errorMessage == ORDER_FAILED ==> o.retryCount == attempt[id] + 1))
  }

  ghost predicate Retries(rows: Rows, attempt: map<string, int>, failedAt: map<string, int>, s: Policy)
  {
    forall id <- rows :: RetryOk(attempt, failedAt, s, id, rows[id])
  }

  /** The authority is asked after the operation began and before any failure of it is counted. A stored leaf came from
      an order that was not answered with a failure, and a failed order was answered with one. */
  predicate PlacementOk(orderedAt: map<string, int>, deniedAt: map<string, int>, failedAt: map<string, int>, now: int,
                        id: string, o: Operation)
  {
    && (id in orderedAt ==>
          && o.stage !in {New, Renewing} && o.createdAt <= orderedAt[id] <= now
          && (o.retryCount > 0 ==> id in failedAt && orderedAt[id] <= failedAt[id]))
    && (id in deniedAt ==>
          && id in orderedAt && orderedAt[id] <= deniedAt[id] <= now && o.certFingerprint == ""
          && (o.retryCount > 0 ==> id in failedAt && deniedAt[id] <= failedAt[id]))
    && (o.certFingerprint != "" ==> id in orderedAt)
    && (o.stage == Stage.Error && o.errorMessage == ORDER_FAILED ==> id in deniedAt)
  }

  ghost predicate Placements(rows: Rows, orderedAt: map<string, int>, deniedAt: map<string, int>,
                             failedAt: map<string, int>, now: int)
  {
    && orderedAt.Keys <= rows.Keys
    && deniedAt.Keys <= rows.Keys
    && forall id <- rows :: PlacementOk(orderedAt, deniedAt, failedAt, now, id, rows[id])
  }

  /** An operation starts with the attempt number its predecessor stored, and a renewal also after its backoff. A first
      issue follows failures only. */
  predicate PacedAfter(p: Operation, o: Operation, attempt: int)
  {
    && p.ipv4 == o.ipv4 && Before(p, o)
    && (p.stage == Stage.Error ==> attempt == p.retryCount)
    && (p.stage == Active ==> attempt == 0)
    && (o.kind == Renew && p.stage == Stage.Error ==> FromUnix(p.nextRetryAt) <= o.createdAt)
    && (o.kind == Issue ==> p.stage == Stage.Error)
  }

  ghost predicate Paces(rows: Rows, previous: map<string, string>, attempt: map<string, int>)
  {
    && (forall id <- previous :: id in rows && previous[id] in rows && id in attempt
                                 && PacedAfter(rows[previous[id]], rows[id], attempt[id]))
    && (forall id <- rows :: rows[id].kind == Renew ==> id in previous)
    && (forall id <- rows :: id !in previous ==> id in attempt && attempt[id] == 0)
  }

  /** An active operation bears no error, unless a failed step was recorded on it after its activation. */
  predicate ActiveOk(o: Operation, at: int)
  {
    && o.createdAt <= at <= o.updatedAt
    && (o.updatedAt == at ==> o.errorCategory == "" && o.errorMessage == "" && o.recoveryMarker == "")
    && (o.updatedAt > at ==> o.errorMessage == STEP_FAILED)
  }

  /** A managed certificate keeps the second of its activation, and bears an error exactly while it is not ACTIVE. */
  predicate SuccessOk(m: ManagedCert, at: int)
  {
    && m.lastSuccessAt == Unix(at) && m.state in {Active, Stage.Error}
    && (m.state == Active ==> m.lastErrorCategory == "" && m.lastError == "" && m.recoveryMarker == "")
    && (m.state == Stage.Error ==> m.lastError != "")
  }

  ghost predicate Activations(rows: Rows, managed: map<string, ManagedCert>, active: map<string, string>,
                              activatedAt: map<string, int>)
  {
    && (forall id <- rows :: rows[id].stage == Active ==> id in activatedAt && ActiveOk(rows[id], activatedAt[id]))
    && (forall ip <- managed :: ip in active && active[ip] in activatedAt
                                && SuccessOk(managed[ip], activatedAt[active[ip]]))
  }

  /** The intended graph of stages. */
  predicate Edge(kind: Kind, a: Stage, b: Stage)
  {
    match a
    case New => b in {ChallengePresent, Stage.Error}
    case Renewing => b in {ChallengePresent, Stage.Error}
    case ChallengePresent => b in {CertIssued, Stage.Error}
    case CertIssued => b in {CertCreated, Stage.Error}
    case CertCreated => b == PolicyBound || (b == Stage.Error && kind == Renew)
    case PolicyBound => b == Active
    case _ => false
  }

  predicate IsPath(kind: Kind, trail: seq<Stage>)
  {
    && |trail| > 0 && trail[0] == (if kind == Issue then New else Renewing)
    && forall i :: 0 <= i < |trail| - 1 ==> Edge(kind, trail[i], trail[i + 1])
  }

  predicate TrailOk(trail: seq<Stage>, o: Operation)
  {
    IsPath(o.kind, trail) && trail[|trail| - 1] == o.stage
  }

  ghost predicate Trails(rows: Rows, trail: map<string, seq<Stage>>)
  {
    && trail.Keys == rows.Keys
    && forall id <- rows :: TrailOk(trail[id], rows[id])
  }

  // ---------------------------------------------------------------- the invariant

  /** The parts of the invariant, together. */
  ghost predicate Parts(look: Look, w: World, s: Policy)
  {
    && s.Validate()
    && RowsOk(w.rows, w.now)
    && OneAtATime(w.rows, w.h.last)
    && Newest(w.rows, w.h.latest)
    && Moments(w.rows, w.h.moment)
    && Stages(w.rows, w.managed)
    && Owners(w.rows, w.h.owner, w.issued)
    && Managements(w.rows, w.managed, w.h.active, s)
    && Evidence(w.rows, w.h.log)
    && Records(w.certs, w.h.owner, w.h.carrier, w.issued)
    && Carriers(w.certs, w.rows, w.h.made, w.h.carrier)
    && Markers(w.certs, w.rows, w.h.made, w.h.marks)
    && Creations(w.rows, w.h.made, w.h.carrier)
    && Holders(w.rows, w.managed, w.h.active, w.h.carrier, w.snapshots)
    && Snapshots(w.rows, w.h.active, w.certs, w.h.carrier, w.h.last, w.snapshots)
    && Saved(w.rows, w.h.log, w.snapshots, w.h.saved, w.h.savedAt)
    && SavedInPast(w.h.savedAt, w.now)
    && GiveUps(w.rows, w.h.trail, w.h.saved)
    && Creates(w.rows, w.h.log)
    && Orders(w.managed, w.h.latest, w.h.log)
    && Retries(w.rows, w.h.attempt, w.h.failedAt, s)
    && Placements(w.rows, w.h.orderedAt, w.h.deniedAt, w.h.failedAt, w.now)
    && Activations(w.rows, w.managed, w.h.active, w.h.activatedAt)
    && Paces(w.rows, w.h.previous, w.h.attempt)
    && Trails(w.rows, w.h.trail)
  }

  datatype Look = Look

  /** The invariant is closed: a proof sees its parts only after it has looked. */
  ghost predicate Inv(w: World, s: Policy)
  {
    forall look: Look :: Parts(look, w, s)
  }

  lemma OpenInv(w: World, s: Policy)
    requires Inv(w, s)
    ensures Parts(Look, w, s)
  {
  }

  lemma CloseInv(w: World, s: Policy)
    requires Parts(Look, w, s)
    ensures Inv(w, s)
  {
    forall look: Look
      ensures Parts(look, w, s)
    {
      assert look == Look;
    }
  }

  // ---------------------------------------------------------------- what no run undoes

  predicate Kept(a: Operation, b: Operation)
  {
    && a.id == b.id && a.ipv4 == b.ipv4 && a.kind == b.kind && a.marker == b.marker && a.serverID == b.serverID
    && a.policyID == b.policyID && a.userID == b.userID && a.createdAt == b.createdAt && a.updatedAt <= b.updatedAt
    && (!Inflight(a.stage) ==> b.stage == a.stage && a.retryCount == b.retryCount && a.nextRetryAt == b.nextRetryAt)
    && (a.certID > 0 ==> b.certID == a.certID)
    && (a.certFingerprint != "" ==> b.certFingerprint == a.certFingerprint && b.expiresAt == a.expiresAt)
  }

  ghost predicate RowsKept(r0: Rows, r1: Rows)
  {
    forall id <- r0 :: id in r1 && Kept(r0[id], r1[id])
  }

  ghost predicate TargetsKept(m0: map<string, ManagedCert>, m1: map<string, ManagedCert>)
  {
    forall ip <- m0 :: ip in m1 && m0[ip].serverID == m1[ip].serverID && m0[ip].policyID == m1[ip].policyID
                       && m0[ip].certID == m1[ip].certID
  }

  ghost predicate TrailsKept(t0: map<string, seq<Stage>>, t1: map<string, seq<Stage>>)
  {
    forall id <- t0 :: id in t1 && t0[id] <= t1[id]
  }

  /** Every new operation began later, and that of a managed address is a renewal. */
  ghost predicate OnlyRenewals(r0: Rows, m0: map<string, ManagedCert>, now: int, r1: Rows)
  {
    forall id <- r1 :: id in r0 || (now < r1[id].createdAt && (r1[id].ipv4 in m0 ==> r1[id].kind == Renew))
  }

  ghost predicate SavedKept(s0: map<string, Snapshot>, s1: map<string, Snapshot>)
  {
    forall id <- s0 :: id in s1 && s1[id] == s0[id]
  }

  ghost predicate Later(w0: World, w1: World)
  {
    && OnlyRenewals(w0.rows, w0.managed, w0.now, w1.rows) && SavedKept(w0.h.saved, w1.h.saved)
    && RowsKept(w0.rows, w1.rows) && TargetsKept(w0.managed, w1.managed) && TrailsKept(w0.h.trail, w1.h.trail)
    && w0.h.log <= w1.h.log && w0.now <= w1.now && w0.issued <= w1.issued
  }

  lemma LaterIsReflexive(w: World)
    ensures Later(w, w)
  {
  }

  lemma LaterIsTransitive(a: World, b: World, c: World)
    requires Later(a, b) && Later(b, c)
    ensures Later(a, c)
  {
    forall id | id in a.rows
      ensures id in c.rows && Kept(a.rows[id], c.rows[id])
    {
      assert Kept(a.rows[id], b.rows[id]) && Kept(b.rows[id], c.rows[id]);
    }
    forall id | id in c.rows && id !in a.rows
      ensures a.now < c.rows[id].createdAt && (c.rows[id].ipv4 in a.managed ==> c.rows[id].kind == Renew)
    {
      if id in b.rows {
        assert Kept(b.rows[id], c.rows[id]);
      }
    }
  }
}
