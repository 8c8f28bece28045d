/** The service over its whole life: any sequence of processes, each of which may stop anywhere. */
module Services {
  import opened Outcomes
  import opened Environments
  import opened Operations
  import opened GoEdge
  import opened Rollback
  import opened Scheduler
  import opened Challenges
  import opened Issuance
  import opened Lifecycle
  import opened LifecycleOrders
  import opened LifecycleTheorems
  import opened Scope
  import opened Transitions
  import opened Runners

  /** One start of the program. In a calm one nothing fails and the administrator has bound the certificates. */
  datatype Command = Command(ipv4: string, mode: RunMode, calm: bool)

  /** A fresh installation satisfies the invariant, whatever records and leaves GoEdge already has. */
  lemma EmptyWorldIsValid(certs: map<int, CertificateConfig>, issued: set<string>, now: int, s: Policy)
    requires s.Validate()
    requires forall c <- certs :: certs[c].id == c && c > 0
                                  && (Fingerprint(certs[c].certData) == "" || Fingerprint(certs[c].certData) in issued)
    ensures Inv(World(map[], map[], map[], certs, issued, now, NoHistory), s)
  {
    CloseInv(World(map[], map[], map[], certs, issued, now, NoHistory), s);
  }

  function RunsIn(commands: seq<Command>, ip: string, mode: RunMode): nat
  {
    if commands == [] then 0
    else RunsIn(commands[..|commands| - 1], ip, mode)
         + (if commands[|commands| - 1].ipv4 == ip && commands[|commands| - 1].mode == mode then 1 else 0)
  }

  /** The orders that commands pay for before an address is managed: one when any of them runs interactively for it, and
      one for each manual one. Timer commands pay for none. */
  function Allowance(commands: seq<Command>, ip: string): nat
  {
    (if RunsIn(commands, ip, Interactive) > 0 then 1 else 0) + RunsIn(commands, ip, ManualFirstIssueRetry)
  }

  function RunsFor(commands: seq<Command>, ip: string): nat
  {
    if commands == [] then 0
    else RunsFor(commands[..|commands| - 1], ip) + (if commands[|commands| - 1].ipv4 == ip then 1 else 0)
  }

  /** What a sequence of processes adds to the counts: at most one run per command, and at most one order per run. */
  ghost predicate LifeOf(before: World, after: World, commands: seq<Command>)
  {
    && Later(before, after)
    && (forall ip, mode :: after.h.log[RunStarted(ip, mode)]
                            <= before.h.log[RunStarted(ip, mode)] + RunsIn(commands, ip, mode))
    && (forall ip :: after.h.log[ObtainCalled(ip)] <= before.h.log[ObtainCalled(ip)] + RunsFor(commands, ip))
  }

  lemma LifeGrows(before: World, mid: World, after: World, commands: seq<Command>, last: Command, report: Outcome,
                  accountReference: string)
    requires LifeOf(before, mid, commands) && Handled(mid, after, last, report, accountReference)
    ensures LifeOf(before, after, commands + [last])
  {
    hide Later, Delivers, Settled;
    LaterIsReflexive(mid);
    LaterIsTransitive(before, mid, after);
    assert (commands + [last])[..|commands|] == commands;
  }

  /** One process: the temporary snapshot files of an interrupted run are removed, then one run follows. One that
      returns without an error has delivered for its address; started calmly in any reachable state, it leaves nothing
      in flight. `repaired` is the state that recovery left, at instant `at`. */
  method Process(runner: Runner, command: Command) returns (r: Outcome, ghost repaired: World, ghost at: int)
    requires runner.ChallengesOk() && runner.Valid()
    modifies runner`h, runner`clock, runner.state, runner.edge, runner.tls, runner.rollbacks, runner.issuer,
      runner.table,
      runner.journal, runner.env
    ensures runner.ChallengesOk() && runner.Valid()
    ensures Foreign(runner.table, runner.journal) == old(Foreign(runner.table, runner.journal))
    ensures || RunOf(old(runner.W()), runner.W(), command.ipv4, command.mode, 1)
            || (runner.W() == old(runner.W()) && r.Err? && !command.calm)
    ensures r.Ok? ==> Delivers(old(runner.W()), runner.W(), command.ipv4, command.mode, old(runner.env.now),
                               old(runner.issuer.calls)[command.ipv4], runner.issuer.calls[command.ipv4])
    ensures runner.issuer.calls[command.ipv4] != old(runner.issuer.calls)[command.ipv4] ==>
              && RunOf(old(runner.W()), repaired, command.ipv4, command.mode, 0) && at >= old(runner.env.now)
              && runner.InTurnFor(repaired.rows, repaired.managed, command.ipv4, command.mode, at, r)
    ensures old(Settled(runner.W())) ==>
              repaired.rows == old(runner.state.operations) && repaired.managed == old(runner.state.managed)
    ensures runner.accountReference == "" ==>
              r.Err? && runner.issuer.calls[command.ipv4] == old(runner.issuer.calls)[command.ipv4]
    ensures r.Err? ==> Plain(r.error)
    ensures command.calm && runner.accountReference != "" ==>
              Settled(runner.W()) && forall id <- old(runner.state.operations) :: id in runner.state.operations
    ensures command.calm && runner.accountReference != "" ==>
              forall id <- old(runner.rollbacks.snapshots) ::
                CalmSide(runner.state.operations, id,
                         HoldsNew(old(runner.edge.certs), old(runner.rollbacks.snapshots)[id]), Active)
  {
    hide Inv, Seen, Counted, Within, Ordered, Later, RunOf, Consistent, Isolated, Foreign, EdgeClient.Valid, CalmSide,
      HoldsNew, SnapshotStore.Clean, Delivers, Settled, Runner.InTurnFor;
    runner.env.calm := command.calm;
    runner.table.checked := false;
    repaired, at := runner.W(), runner.env.now;
    r := runner.rollbacks.Open();
    if r.Err? {
      return;
    }
    ghost var later := runner.env.now;
    r, repaired, at := runner.RunOnce(command.ipv4, command.mode);
    if r.Ok? {
      DeliversSince(old(runner.W()), runner.W(), command.ipv4, command.mode, old(runner.env.now), later,
                    old(runner.issuer.calls)[command.ipv4], runner.issuer.calls[command.ipv4]);
    }
  }

  /** What became of one command: its run was counted, or the process never got to it; a report of success was earned;
      and a calm process left nothing in flight. */
  ghost predicate Handled(before: World, after: World, command: Command, report: Outcome, accountReference: string)
  {
    && (|| RunOf(before, after, command.ipv4, command.mode, 1)
        || (after == before && report.Err? && !command.calm))
    && (report.Ok? ==> accountReference != ""
                       && Delivers(before, after, command.ipv4, command.mode, before.now,
                                   before.h.log[ObtainCalled(command.ipv4)], after.h.log[ObtainCalled(command.ipv4)]))
    && (command.calm && accountReference != "" ==> Settled(after))
  }

  /** Every command was handled in its turn, each in the state that the one before had left. */
  ghost predicate AllHandled(states: seq<World>, commands: seq<Command>, reports: seq<Outcome>,
                             accountReference: string)
  {
    && |states| == |commands| + 1 && |reports| == |commands|
    && forall i :: 0 <= i < |commands| ==>
                     Handled(states[i], states[i + 1], commands[i], reports[i], accountReference)
  }

  lemma OneMoreHandled(states: seq<World>, commands: seq<Command>, reports: seq<Outcome>, accountReference: string,
                       after: World, last: Command, report: Outcome)
    requires AllHandled(states, commands, reports, accountReference)
    requires Handled(states[|states| - 1], after, last, report, accountReference)
    ensures AllHandled(states + [after], commands + [last], reports + [report], accountReference)
  {
    hide Handled;
  }

  method Handle(runner: Runner, command: Command) returns (r: Outcome)
    requires runner.ChallengesOk() && runner.Valid()
    modifies runner`h, runner`clock, runner.state, runner.edge, runner.tls, runner.rollbacks, runner.issuer,
      runner.table,
      runner.journal, runner.env
    ensures runner.ChallengesOk() && runner.Valid()
    ensures Foreign(runner.table, runner.journal) == old(Foreign(runner.table, runner.journal))
    ensures Handled(old(runner.W()), runner.W(), command, r, runner.accountReference)
  {
    hide Inv, Seen, Counted, RunOf, Consistent, Isolated, Foreign, EdgeClient.Valid, SnapshotStore.Valid, Delivers,
      Settled, Runner.InTurnFor;
    ghost var before, repaired, at := runner.W(), runner.W(), 0;
    runner.CountedNow(command.ipv4);
    r, repaired, at := Process(runner, command);
    runner.CountedNow(command.ipv4);
    if r.Ok? {
      DeliversSince(before, runner.W(), command.ipv4, command.mode, before.now, old(runner.env.now),
                    old(runner.issuer.calls)[command.ipv4], runner.issuer.calls[command.ipv4]);
    }
  }

  /** Over any sequence of commands, failures and crashes every command is handled in its turn, the invariant holds,
      nothing is undone, the challenge rows of everybody else stay, and the orders are bounded by the commands. */
  method RunMany(runner: Runner, commands: seq<Command>) returns (reports: seq<Outcome>, ghost states: seq<World>)
    requires runner.ChallengesOk() && runner.Valid()
    modifies runner`h, runner`clock, runner.state, runner.edge, runner.tls, runner.rollbacks, runner.issuer,
      runner.table,
      runner.journal, runner.env
    ensures runner.ChallengesOk() && runner.Valid() && LifeOf(old(runner.W()), runner.W(), commands)
    ensures AllHandled(states, commands, reports, runner.accountReference)
    ensures states[0] == old(runner.W()) && states[|commands|] == runner.W()
    ensures Foreign(runner.table, runner.journal) == old(Foreign(runner.table, runner.journal))
  {
    hide Inv, Seen, Counted, Later, RunOf, LifeOf, Consistent, Isolated, Foreign, EdgeClient.Valid, SnapshotStore.Valid,
      Handled, AllHandled, Runner.Valid, Runner.W;
    NothingYet(runner.W());
    reports, states := [], [runner.W()];
    NothingHandled(runner.W(), runner.accountReference);
    for n := 0 to |commands|
      invariant runner.ChallengesOk() && runner.Valid() && LifeOf(old(runner.W()), runner.W(), commands[..n])
      invariant AllHandled(states, commands[..n], reports, runner.accountReference)
      invariant |states| == n + 1 && states[0] == old(runner.W()) && states[n] == runner.W()
      invariant Foreign(runner.table, runner.journal) == old(Foreign(runner.table, runner.journal))
    {
      ghost var mid := runner.W();
      var r := Handle(runner, commands[n]);
      OneMoreHandled(states, commands[..n], reports, runner.accountReference, runner.W(), commands[n], r);
      LifeGrows(old(runner.W()), mid, runner.W(), commands[..n], commands[n], r, runner.accountReference);
      assert commands[..n + 1] == commands[..n] + [commands[n]];
      reports, states := reports + [r], states + [runner.W()];
    }
    assert commands[..|commands|] == commands;
  }

  lemma NothingHandled(w: World, accountReference: string)
    ensures AllHandled([w], [], [], accountReference)
  {
  }

  lemma NothingYet(w: World)
    ensures LifeOf(w, w, [])
  {
    LaterIsReflexive(w);
  }

  /** A fresh installation beside whatever GoEdge already holds. */
  method Install(now: Instant, foreign: Table, nextRow: int, certs: map<int, CertificateConfig>, nextCert: int,
                 known: set<string>,
                 signs: (X509, X509) -> bool, schedule: Policy, accountReference: string) returns (runner: Runner)
    requires schedule.Validate() && schedule.InRange() && nextRow > 0 && nextCert > 0
    requires forall r <- foreign :: 0 < r < nextRow && foreign[r].id == r
    requires forall c <- certs :: 0 < c < nextCert && certs[c].id == c
    requires forall c <- certs :: Fingerprint(certs[c].certData) == "" || Fingerprint(certs[c].certData) in known
    ensures fresh(runner) && fresh(runner.state) && fresh(runner.edge) && fresh(runner.tls) && fresh(runner.rollbacks)
    ensures fresh(runner.issuer) && fresh(runner.table) && fresh(runner.journal) && fresh(runner.env)
    ensures runner.accountReference == accountReference
    ensures runner.schedule == schedule && runner.ChallengesOk() && runner.Valid() && runner.h == NoHistory
            && Foreign(runner.table, runner.journal) == foreign
  {
    hide Inv, Seen, Counted, Covered, Unshared, Others, EdgeClient.Valid, SnapshotStore.Valid;
    EmptyWorldIsValid(certs, known, now, schedule);
    NothingCalled();
    NothingPending(foreign, nextRow);
    var env := new Environment(now);
    var state := new OperationStore(env);
    var table := new ChallengeTable(env, foreign, nextRow);
    var journal := new ChallengeJournal(state);
    var edge := new EdgeClient(env, certs, nextCert);
    var issuer := new Issuer(table, journal, signs, known);
    var rollbacks := new SnapshotStore(env);
    var tls := new TLSVerifier(edge);
    runner := new Runner(env, state, table, journal, edge, issuer, rollbacks, tls, schedule, accountReference);
  }

  lemma NothingCalled()
    ensures Seen(multiset{}, {}, {}, {}) && Counted(multiset{}, map[], multiset{}, multiset{})
    ensures Timed(NoHistory, map[], map[])
  {
  }

  lemma NothingPending(foreign: Table, nextRow: int)
    requires nextRow > 0 && forall r <- foreign :: 0 < r < nextRow && foreign[r].id == r
    ensures Covered(foreign, map[], map[], nextRow) && Unshared(foreign, map[], map[])
    ensures Others(foreign, map[]) - {} == foreign
  {
  }

  /** Under the managed certificate ID, GoEdge holds the certificate of the newest deployed operation, or, while a
      snapshot exists, either side of that snapshot. */
  ghost predicate EdgeIsCurrent(w: World, ip: string)
  {
    && ip in w.managed && w.managed[ip].certID in w.certs
    && var cert := w.certs[w.managed[ip].certID];
    && ((forall k <- w.snapshots :: w.snapshots[k].ipv4 != ip) ==>
          exists d :: NewestDeployed(w.rows, ip, d) && Carries(cert, w.rows[d]))
    && (forall k <- w.snapshots :: w.snapshots[k].ipv4 == ip ==>
          k in w.rows && (InputFromConfig(cert) == w.snapshots[k].previous || Carries(cert, w.rows[k])))
  }

  lemma EdgeStaysCurrent(w: World, s: Policy, ip: string)
    requires Inv(w, s) && ip in w.managed
    ensures EdgeIsCurrent(w, ip)
  {
    hide Inv, Carries;
    EdgeHoldsNewest(w, s, ip);
  }

  /** During the life of this very operation GoEdge confirmed its binding, and the listener showed its leaf. */
  ghost predicate Checked(o: Operation, bound: set<(int, int, int)>, shown: set<(string, string, int)>)
  {
    && (exists at :: o.createdAt <= at <= o.updatedAt && (o.policyID, o.certID, at) in bound)
    && (exists at :: o.createdAt <= at <= o.updatedAt && (o.ipv4, o.certFingerprint, at) in shown)
  }

  lemma EvidenceIsReal(log: multiset<Event>, shown: set<(string, string, int)>, missed: set<(string, string, int)>,
                       bound: set<(int, int, int)>, o: Operation)
    requires Seen(log, shown, missed, bound)
    requires BoundDuring(log, o.policyID, o.certID, o.createdAt, o.updatedAt)
    requires ShownDuring(log, o.ipv4, o.certFingerprint, o.createdAt, o.updatedAt)
    ensures Checked(o, bound, shown)
  {
    var b :| o.createdAt <= b <= o.updatedAt && BoundSeen(o.policyID, o.certID, b) in log;
    var t :| o.createdAt <= t <= o.updatedAt && TlsSeen(o.ipv4, o.certFingerprint, t) in log;
    assert (o.policyID, o.certID, b) in bound && (o.ipv4, o.certFingerprint, t) in shown;
  }

  /** The authority received the order of `b`, if it did at all, more than this much time after that of `a`. */
  predicate PausesBetween(placed: map<string, int>, a: string, b: string, pause: int)
  {
    b in placed ==> a in placed && placed[b] > placed[a] + pause
  }

  lemma OrderPauses(w: World, s: Policy, placed: map<string, int>, a: string, b: string)
    requires Inv(w, s) && w.h.orderedAt == placed && FollowsFailure(w, a, b)
    ensures PausesBetween(placed, a, b, s.Delay(CountOf(w, a) - 1) - SECOND)
  {
    hide Inv, FollowsFailure, CountOf;
    FailureDelaysNext(w, s, a, b);
  }

  /** The whole life of the service: an installation, then any commands. Every claim is about the outside objects:
      the orders the authority received and when, the create calls GoEdge received, the challenge rows of everybody
      else, and the records GoEdge holds. */
  method Live(foreign: Table, nextRow: int, certs: map<int, CertificateConfig>, nextCert: int, known: set<string>,
              signs: (X509, X509) -> bool, schedule: Policy, accountReference: string,
              now: Instant, commands: seq<Command>)
    returns (runner: Runner, reports: seq<Outcome>, ghost states: seq<World>)
    requires schedule.Validate() && schedule.InRange() && nextRow > 0 && nextCert > 0
    requires forall r <- foreign :: 0 < r < nextRow && foreign[r].id == r
    requires forall c <- certs :: 0 < c < nextCert && certs[c].id == c
    requires forall c <- certs :: Fingerprint(certs[c].certData) == "" || Fingerprint(certs[c].certData) in known
    ensures AllHandled(states, commands, reports, accountReference)
    ensures states[0].h == NoHistory && states[|commands|] == runner.W()
    ensures forall ip :: ip !in runner.state.managed ==> runner.issuer.calls[ip] <= Allowance(commands, ip)
    ensures forall ip :: runner.issuer.calls[ip] <= RunsFor(commands, ip)
    ensures forall name :: runner.edge.creations[name] <= 1
    ensures Foreign(runner.table, runner.journal) == foreign
    ensures forall id <- runner.state.operations :: runner.state.operations[id].stage in {PolicyBound, Active} ==>
              Checked(runner.state.operations[id], runner.edge.bound, runner.tls.shown)
    ensures forall ip <- runner.state.managed :: EdgeIsCurrent(runner.W(), ip)
    ensures forall a, b :: FollowsFailure(runner.W(), a, b) ==>
              PausesBetween(runner.issuer.placed, a, b, schedule.Delay(CountOf(runner.W(), a) - 1) - SECOND)
    ensures runner.ChallengesOk() && runner.Valid()
  {
    runner := Install(now, foreign, nextRow, certs, nextCert, known, signs, schedule, accountReference);
    hide Runner.Valid, Runner.W, LifeOf, AllHandled, EdgeIsCurrent, Checked, FollowsFailure, PausesBetween, Consistent,
      Isolated, Foreign;
    FreshHistory(runner);
    ghost var before := runner.W();
    reports, states := RunMany(runner, commands);
    CallsAreBounded(runner, before, commands);
    ChecksAreReal(runner);
    RecordsAreCurrent(runner);
    OrdersPause(runner);
  }

  lemma FreshHistory(runner: Runner)
    ensures runner.W().h == runner.h
  {
  }

  lemma CallsAreBounded(runner: Runner, before: World, commands: seq<Command>)
    requires runner.Valid() && LifeOf(before, runner.W(), commands) && before.h == NoHistory
    ensures forall ip :: ip !in runner.state.managed ==> runner.issuer.calls[ip] <= Allowance(commands, ip)
    ensures forall ip :: runner.issuer.calls[ip] <= RunsFor(commands, ip)
    ensures forall name :: runner.edge.creations[name] <= 1
  {
    hide Inv, LifeOf, Seen, EdgeClient.Valid, SnapshotStore.Valid;
    forall ip
      ensures ip !in runner.state.managed ==> runner.issuer.calls[ip] <= Allowance(commands, ip)
      ensures runner.issuer.calls[ip] <= RunsFor(commands, ip)
    {
      OrdersOverLife(before, runner.W(), runner.schedule, commands, ip);
    }
    forall name
      ensures runner.edge.creations[name] <= 1
    {
      CreatesOverLife(runner.W(), runner.schedule, name);
    }
  }

  lemma ChecksAreReal(runner: Runner)
    requires runner.Valid()
    ensures forall id <- runner.state.operations :: runner.state.operations[id].stage in {PolicyBound, Active} ==>
              Checked(runner.state.operations[id], runner.edge.bound, runner.tls.shown)
  {
    hide Inv, Seen, Counted, Checked, BoundDuring, ShownDuring, EdgeClient.Valid, SnapshotStore.Valid;
    forall id | id in runner.state.operations && runner.state.operations[id].stage in {PolicyBound, Active}
      ensures Checked(runner.state.operations[id], runner.edge.bound, runner.tls.shown)
    {
      EvidenceBeforeActive(runner.W(), runner.schedule, id);
      EvidenceIsReal(runner.h.log, runner.tls.shown, runner.tls.missed, runner.edge.bound, runner.state.operations[id]);
    }
  }

  lemma RecordsAreCurrent(runner: Runner)
    requires runner.Valid()
    ensures forall ip <- runner.state.managed :: EdgeIsCurrent(runner.W(), ip)
  {
    hide Inv, Seen, Counted, EdgeIsCurrent, EdgeClient.Valid, SnapshotStore.Valid;
    forall ip | ip in runner.state.managed
      ensures EdgeIsCurrent(runner.W(), ip)
    {
      EdgeStaysCurrent(runner.W(), runner.schedule, ip);
    }
  }

  lemma OrdersPause(runner: Runner)
    requires runner.Valid()
    ensures forall a, b :: FollowsFailure(runner.W(), a, b) ==>
              PausesBetween(runner.issuer.placed, a, b, runner.schedule.Delay(CountOf(runner.W(), a) - 1) - SECOND)
  {
    hide Inv, Seen, Counted, FollowsFailure, PausesBetween, CountOf, EdgeClient.Valid, SnapshotStore.Valid;
    forall a, b | FollowsFailure(runner.W(), a, b)
      ensures PausesBetween(runner.issuer.placed, a, b, runner.schedule.Delay(CountOf(runner.W(), a) - 1) - SECOND)
    {
      OrderPauses(runner.W(), runner.schedule, runner.issuer.placed, a, b);
    }
  }

  // ---------------------------------------------------------------- theorems over whole lives

  /** Same certificate ID: once an address is managed it stays managed, under the same server, policy and
      certificate, and every operation that any later run starts for it renews exactly that certificate. */
  lemma SameCertificateForever(w: World, v: World, s: Policy, ip: string)
    requires Inv(v, s) && Later(w, v) && ip in w.managed
    ensures ip in v.managed && v.managed[ip].serverID == w.managed[ip].serverID
    ensures v.managed[ip].policyID == w.managed[ip].policyID && v.managed[ip].certID == w.managed[ip].certID
    ensures forall id <- v.rows :: id !in w.rows && v.rows[id].ipv4 == ip ==>
                                     v.rows[id].kind == Renew && v.rows[id].certID == w.managed[ip].certID
  {
    hide Moments, RowsOk, OneAtATime, Newest, Owners, Managements, Evidence, Records, Carriers, Markers, Creations,
      Holders, Snapshots, Saved, Creates, Orders, Retries, Placements, Activations, Paces, Trails;
    OpenInv(v, s);
    forall id | id in v.rows && id !in w.rows && v.rows[id].ipv4 == ip
      ensures v.rows[id].kind == Renew && v.rows[id].certID == w.managed[ip].certID
    {
      assert StageOk(v.managed, v.rows[id]);
    }
  }

  /** First-issue pause over a whole life that began with an empty log: while the address is not managed, its orders
      number at most one for all interactive commands together plus one for each manual command. Timer runs pay for
      none, and a crash gives none back. */
  lemma OrdersOverLife(before: World, after: World, s: Policy, commands: seq<Command>, ip: string)
    requires Inv(after, s) && LifeOf(before, after, commands) && before.h == NoHistory
    ensures ip !in after.managed ==> after.h.log[ObtainCalled(ip)] <= Allowance(commands, ip)
    ensures after.h.log[ObtainCalled(ip)] <= RunsFor(commands, ip)
  {
    hide Inv, Later;
    if ip !in after.managed {
      FirstIssuePause(after, s, ip);
    }
  }

  lemma CreatesOverLife(w: World, s: Policy, name: string)
    requires Inv(w, s)
    ensures name in w.h.marks ==> w.h.log[CreateCalled(w.h.marks[name])] <= 1
  {
    hide Moments, RowsOk, OneAtATime, Newest, Stages, Owners, Managements, Evidence, Records, Carriers, Markers,
      Creations, Holders, Snapshots, Saved, Orders, Retries, Placements, Activations, Paces, Trails;
    OpenInv(w, s);
  }

  /** What is final stays final, with its backoff, its leaf and its certificate. */
  lemma FinishedStaysFinished(w: World, v: World, id: string)
    requires Later(w, v) && id in w.rows && !Inflight(w.rows[id].stage)
    ensures id in v.rows && v.rows[id].stage == w.rows[id].stage && v.rows[id].nextRetryAt == w.rows[id].nextRetryAt
    ensures w.rows[id].certFingerprint != "" ==> v.rows[id].certFingerprint == w.rows[id].certFingerprint
    ensures w.rows[id].certID > 0 ==> v.rows[id].certID == w.rows[id].certID
  {
    assert Kept(w.rows[id], v.rows[id]);
  }
}
