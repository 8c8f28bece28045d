/** The operation log and the managed certificates: the rows of the local SQLite database. */
module Operations {
  import opened Outcomes
  import opened Environments

  datatype Kind = Issue | Renew

  datatype Stage =
    | New | Renewing | ChallengePresent | CertIssued | CertCreated | PolicyBound | Active | Error | NeedsAttention

  predicate Inflight(stage: Stage) { stage != Active && stage != Stage.Error }

  datatype Operation = Operation(
    id: string, ipv4: string, kind: Kind, stage: Stage, marker: string,
    serverID: int, policyID: int, certID: int, userID: int,
    certFingerprint: string, expiresAt: int,
    errorCategory: string, errorMessage: string, recoveryMarker: string,
    retryCount: int, nextRetryAt: int, createdAt: int, updatedAt: int)

  datatype ManagedCert = ManagedCert(
    ipv4: string, serverID: int, policyID: int, certID: int, accountReference: string, state: Stage,
    lastSuccessAt: int, expiresAt: int, nextRenewalAt: int,
    lastErrorCategory: string, lastError: string, recoveryMarker: string)

  datatype RetryInfo = RetryInfo(attempt: int, nextAt: int)

  const RECOVERY_NEEDS_ATTENTION := "needs-attention"

  /** The columns that one stage transition writes beside `stage` and `updated_at`. */
  datatype Patch =
    | SetMarker(marker: string)
    | SetIssued(fingerprint: string, expiresAt: int)
    | SetCert(certID: int)
    | ClearMarker
    | SetFailure(category: string, message: string, marker: string)
    | SetFailureWithRetry(category: string, message: string, marker: string, retryCount: int, nextRetryAt: int)

  function Patched(op: Operation, next: Stage, patch: Patch, now: int): Operation
  {
    var moved := op.(stage := next, updatedAt := now);
    match patch
    case SetMarker(m) => moved.(recoveryMarker := m)
    case SetIssued(f, e) => moved.(certFingerprint := f, expiresAt := e, recoveryMarker := "")
    case SetCert(c) => moved.(certID := c, recoveryMarker := "")
    case ClearMarker => moved.(recoveryMarker := "")
    case SetFailure(c, m, k) => moved.(errorCategory := c, errorMessage := m, recoveryMarker := k)
    case SetFailureWithRetry(c, m, k, count, at) =>
      moved.(errorCategory := c, errorMessage := m, recoveryMarker := k, retryCount := count, nextRetryAt := at)
  }

  /** What `INSERT` stores: the unlisted columns take their defaults. */
  function Inserted(op: Operation, now: int): Operation
  {
    op.(certFingerprint := "", expiresAt := 0, errorCategory := "", errorMessage := "", recoveryMarker := "",
    retryCount := 0, nextRetryAt := 0, createdAt := now, updatedAt := now)
  }

  /** A row as it is right after its `INSERT`: the listed columns from the caller, both times from the clock, every
      other column empty. */
  predicate BeginsAs(row: Operation, op: Operation, kind: Kind, stage: Stage, now: int)
  {
    && row.id == op.id && row.ipv4 == op.ipv4 && row.kind == kind && row.stage == stage && row.marker == op.marker
    && row.serverID == op.serverID && row.policyID == op.policyID && row.certID == op.certID && row.userID == op.userID
    && row.certFingerprint == "" && row.expiresAt == 0 && row.errorCategory == "" && row.errorMessage == ""
    && row.recoveryMarker == "" && row.retryCount == 0 && row.nextRetryAt == 0
    && row.createdAt == now && row.updatedAt == now
  }

  function Activated(op: Operation, now: int): Operation
  {
    op.(stage := Active, errorCategory := "", errorMessage := "", recoveryMarker := "", updatedAt := now)
  }

  function ManagedRow(op: Operation, accountReference: string, nextRenewalAt: int, now: int): ManagedCert
  {
    ManagedCert(op.ipv4, op.serverID, op.policyID, op.certID, accountReference, Active, now / 1_000_000_000,
                op.expiresAt, nextRenewalAt, "", "", "")
  }

  /** A managed certificate repeats the operation that activated it. */
  predicate ActivatedFrom(m: ManagedCert, o: Operation, accountReference: string, nextRenewalAt: int)
  {
    && m.ipv4 == o.ipv4 && m.serverID == o.serverID && m.policyID == o.policyID && m.certID == o.certID
    && m.accountReference == accountReference && m.expiresAt == o.expiresAt && m.nextRenewalAt == nextRenewalAt
  }

  /** A managed certificate as its activation at this instant leaves it: ACTIVE, with the second of the success and no
      error. */
  predicate CleanRow(m: ManagedCert, at: int)
  {
    && m.state == Active && m.lastSuccessAt * 1_000_000_000 <= at < (m.lastSuccessAt + 1) * 1_000_000_000
    && m.lastErrorCategory == "" && m.lastError == "" && m.recoveryMarker == ""
  }

  function WithError(row: ManagedCert, category: string, message: string, marker: string): ManagedCert
  {
    row.(state := Stage.Error, lastErrorCategory := category, lastError := message, recoveryMarker := marker)
  }

  /** Primary key, unique marker, and the partial unique index on in-flight operations per address. */
  predicate CanInsert(rows: map<string, Operation>, op: Operation)
  {
    && op.id !in rows
    && (forall k <- rows :: rows[k].marker != op.marker)
    && (Inflight(op.stage) ==> forall k <- rows :: rows[k].ipv4 == op.ipv4 ==> !Inflight(rows[k].stage))
  }

  predicate IsOperationID(id: string)
  {
    |id| == 32 && forall c <- id :: '0' <= c <= '9' || 'a' <= c <= 'f'
  }

  predicate IsFirstIssueFailure(op: Operation)
  {
    op.kind == Issue && op.stage == Stage.Error && op.certID == 0
  }

  function Marker(kind: Kind, ip: string, id: string): string
  {
    match kind
    case Issue => "goedge-ip-cert/" + ip + "/" + id
    case Renew => "goedge-ip-cert-renew/" + ip + "/" + id
  }

  /** A marker names its operation: equal markers carry equal identifiers. */
  lemma MarkerNamesOperation(k1: Kind, ip1: string, id1: string, k2: Kind, ip2: string, id2: string)
    requires IsOperationID(id1) && IsOperationID(id2)
    ensures Marker(k1, ip1, id1) == Marker(k2, ip2, id2) ==> id1 == id2
  {
    var m1, m2 := Marker(k1, ip1, id1), Marker(k2, ip2, id2);
    assert m1[|m1| - 32..] == id1;
    assert m2[|m2| - 32..] == id2;
  }

  /** What a marker reads: the prefix of its kind, the address and the identifier, between slashes. */
  lemma MarkerReads(ip: string, id: string)
    ensures Marker(Issue, ip, id) == "goedge-ip-cert" + "/" + ip + "/" + id
    ensures Marker(Renew, ip, id) == "goedge-ip-cert-renew" + "/" + ip + "/" + id
  {
    assert "goedge-ip-cert" + "/" == "goedge-ip-cert/";
    assert "goedge-ip-cert-renew" + "/" == "goedge-ip-cert-renew/";
  }

  predicate Keyed(rows: map<string, Operation>)
  {
    forall k <- rows :: rows[k].id == k
  }

  ghost predicate IsLatest(rows: map<string, Operation>, ip: string, id: string)
  {
    && id in rows && rows[id].ipv4 == ip
    && forall k <- rows :: rows[k].ipv4 == ip ==> rows[k].updatedAt <= rows[id].updatedAt
  }

  ghost predicate ListsIncomplete(rows: map<string, Operation>, list: seq<Operation>)
  {
    && (forall i :: 0 <= i < |list| ==> list[i].id in rows && rows[list[i].id] == list[i] && Inflight(list[i].stage))
    && (forall i, j :: 0 <= i < j < |list| ==> list[i].id != list[j].id && list[i].createdAt <= list[j].createdAt)
    && (forall k <- rows :: Inflight(rows[k].stage) ==> exists i :: 0 <= i < |list| && list[i].id == k)
  }

  function RetryOf(op: Operation): RetryInfo
  {
    if op.stage == Stage.Error then RetryInfo(op.retryCount, op.nextRetryAt) else RetryInfo(0, 0)
  }

  /** The contract of one compare-and-set: the row moved, or nothing changed; a success moved it; a
      conflict means that the row was not at the expected stage. */
  ghost predicate CompareAndSet(before: map<string, Operation>, after: map<string, Operation>, id: string,
                                expected: Stage, next: Stage, patch: Patch, now: int, r: Outcome, calm: bool)
  {
    var guard := id in before && before[id].stage == expected;
    && (after == before || (guard && after == before[id := Patched(before[id], next, patch, now)]))
    && (r.Ok? ==> guard && after == before[id := Patched(before[id], next, patch, now)])
    && (r.Err? ==> r.error in {Crashed, Conflict} || External(r.error))
    && (r == Err(Conflict) ==> !guard && after == before)
    && (calm && guard ==> r.Ok?)
  }

  /** A partial listing: `rest` holds the in-flight rows not yet listed, none older than the listed ones. */
  ghost predicate ListsAllBut(rows: map<string, Operation>, rest: set<string>, list: seq<Operation>)
  {
    && (forall k <- rest :: k in rows && Inflight(rows[k].stage))
    && (forall i :: 0 <= i < |list| ==>
          list[i].id in rows && list[i].id !in rest && rows[list[i].id] == list[i] && Inflight(list[i].stage))
    && (forall i, j :: 0 <= i < j < |list| ==> list[i].id != list[j].id && list[i].createdAt <= list[j].createdAt)
    && (forall i, k :: 0 <= i < |list| && k in rest ==> list[i].createdAt <= rows[k].createdAt)
    && (forall k <- rows :: Inflight(rows[k].stage) && k !in rest ==> exists i :: 0 <= i < |list| && list[i].id == k)
  }

  lemma ListOneMore(rows: map<string, Operation>, rest: set<string>, list: seq<Operation>, first: string)
    requires Keyed(rows) && ListsAllBut(rows, rest, list) && first in rest
    requires forall k <- rest :: rows[first].createdAt <= rows[k].createdAt
    ensures ListsAllBut(rows, rest - {first}, list + [rows[first]])
  {
    hide Inflight;
    var longer := list + [rows[first]];
    forall k | k in rows && Inflight(rows[k].stage) && k !in rest - {first}
      ensures exists i :: 0 <= i < |longer| && longer[i].id == k
    {
      if k == first {
        assert longer[|list|].id == k;
      } else {
        var i :| 0 <= i < |list| && list[i].id == k;
        assert longer[i].id == k;
      }
    }
  }

  class OperationStore {
    const env: Environment
    var operations: map<string, Operation>
    var managed: map<string, ManagedCert>

    constructor (env: Environment)
      ensures this.env == env && operations == map[] && managed == map[]
    {
      this.env := env;
      operations, managed := map[], map[];
    }

    method NewOperationID() returns (r: Result<string>)
      ensures r.Success? ==> IsOperationID(r.value)
      ensures r.Failure? ==> External(r.error)
    {
      var id: string := *;
      if IsOperationID(id) {
        return Success(id);
      }
      var e := env.Fault();
      return Failure(e);
    }

    method CreateOperation(op: Operation) returns (r: Outcome)
      modifies this`operations, env`now
      ensures env.now > old(env.now)
      ensures operations == old(operations)
              || (CanInsert(old(operations), op) && operations == old(operations)[op.id := Inserted(op, env.now)])
      ensures r.Ok? ==> CanInsert(old(operations), op) && operations == old(operations)[op.id := Inserted(op, env.now)]
      ensures r.Ok? ==>
                && operations == old(operations)[op.id := operations[op.id]]
                && BeginsAs(operations[op.id], op, op.kind, op.stage, env.now)
      ensures operations != old(operations) ==>
                && op.id !in old(operations)
                && (forall k <- old(operations) :: old(operations)[k].marker != op.marker)
                && (op.stage in {Active, Stage.Error}
                    || forall k <- old(operations) :: old(operations)[k].ipv4 == op.ipv4 ==>
                                                        old(operations)[k].stage in {Active, Stage.Error})
      ensures r.Err? ==> r.error in {Crashed, InvalidArgument, Constraint} || External(r.error)
      ensures r == Err(InvalidArgument) ==> op.id == "" || op.ipv4 == "" || op.marker == ""
      ensures op.id == "" || op.ipv4 == "" || op.marker == "" ==> operations == old(operations)
      ensures r == Err(Constraint) ==> !CanInsert(old(operations), op)
      ensures env.calm && op.id != "" && op.ipv4 != "" && op.marker != "" && CanInsert(old(operations), op) ==> r.Ok?
    {
      var fate := env.Draw();
      if op.id == "" || op.ipv4 == "" || op.marker == "" {
        return Err(InvalidArgument);
      }
      if fate.TakesEffect() {
        if !CanInsert(operations, op) {
          return Err(Constraint);
        }
        operations := operations[op.id := Inserted(op, env.now)];
      }
      r := env.Report(fate);
    }

    method BeginRenewal(op: Operation) returns (r: Outcome)
      modifies this`operations, env`now
      ensures env.now > old(env.now)
      ensures var row := op.(kind := Renew, stage := Renewing);
              && (operations == old(operations)
                  || (CanInsert(old(operations), row)
                      && operations == old(operations)[op.id := Inserted(row, env.now)]))
              && (r.Ok? ==>
                    CanInsert(old(operations), row) && operations == old(operations)[op.id := Inserted(row, env.now)])
              && (r == Err(Constraint) ==> !CanInsert(old(operations), row))
              && (env.calm && op.id != "" && op.ipv4 != "" && op.marker != "" && CanInsert(old(operations), row) ==>
                    r.Ok?)
      ensures r.Ok? ==>
                && operations == old(operations)[op.id := operations[op.id]]
                && BeginsAs(operations[op.id], op, Renew, Renewing, env.now)
      ensures r.Err? ==> r.error in {Crashed, InvalidArgument, Constraint} || External(r.error)
      ensures r == Err(InvalidArgument) ==> op.id == "" || op.ipv4 == "" || op.marker == ""
    {
      r := CreateOperation(op.(kind := Renew, stage := Renewing));
    }

    method Operation(id: string) returns (r: Result<Operation>)
      modifies env`now
      ensures env.now > old(env.now)
      ensures r.Success? ==> id in operations && r.value == operations[id]
      ensures r.Failure? ==> r.error in {Crashed, NotFound} || External(r.error)
      ensures r == Failure(NotFound) ==> id !in operations
      ensures env.calm && id in operations ==> r.Success?
    {
      var fate := env.Draw();
      var o := env.Report(fate);
      if o.Err? {
        return Failure(o.error);
      }
      r := if id in operations then Success(operations[id]) else Failure(NotFound);
    }

    method Managed(ip: string) returns (r: Result<ManagedCert>)
      modifies env`now
      ensures env.now > old(env.now)
      ensures r.Success? ==> ip in managed && r.value == managed[ip]
      ensures r.Failure? ==> r.error in {Crashed, NotFound} || External(r.error)
      ensures r == Failure(NotFound) ==> ip !in managed
      ensures env.calm && ip in managed ==> r.Success?
      ensures env.calm && ip !in managed ==> r == Failure(NotFound)
    {
      var fate := env.Draw();
      var o := env.Report(fate);
      if o.Err? {
        return Failure(o.error);
      }
      r := if ip in managed then Success(managed[ip]) else Failure(NotFound);
    }

    /** `ORDER BY updated_at DESC LIMIT 1` over the rows of one address. */
    method LatestRow(ip: string) returns (best: Option<string>)
      ensures best.Some? ==> IsLatest(operations, ip, best.value)
      ensures best.None? ==> forall k <- operations :: operations[k].ipv4 != ip
    {
      best := None;
      var rest := operations.Keys;
      while rest != {}
        invariant rest <= operations.Keys
        invariant best.Some? ==> best.value in operations && operations[best.value].ipv4 == ip
        invariant forall k <- operations.Keys - rest :: operations[k].ipv4 == ip ==>
                    best.Some? && operations[k].updatedAt <= operations[best.value].updatedAt
        decreases rest
      {
        var k :| k in rest;
        rest := rest - {k};
        if operations[k].ipv4 == ip && (best.None? || operations[k].updatedAt > operations[best.value].updatedAt) {
          best := Some(k);
        }
      }
    }

    method LatestOperation(ip: string) returns (r: Result<Operation>)
      modifies env`now
      ensures env.now > old(env.now)
      ensures r.Success? ==> exists k :: IsLatest(operations, ip, k) && operations[k] == r.value
      ensures r.Failure? ==> r.error in {Crashed, NotFound} || External(r.error)
      ensures r == Failure(NotFound) ==> forall k <- operations :: operations[k].ipv4 != ip
    {
      var fate := env.Draw();
      var o := env.Report(fate);
      if o.Err? {
        return Failure(o.error);
      }
      var best := LatestRow(ip);
      r := if best.Some? then Success(operations[best.value]) else Failure(NotFound);
    }

    method LatestRetry(ip: string) returns (r: Result<RetryInfo>)
      modifies env`now
      ensures env.now > old(env.now)
      ensures r.Success? && r.value != RetryInfo(0, 0) ==>
                exists k :: IsLatest(operations, ip, k) && r.value == RetryOf(operations[k])
      ensures r.Success? && r.value == RetryInfo(0, 0) ==>
                (forall k <- operations :: operations[k].ipv4 != ip)
                || exists k :: IsLatest(operations, ip, k) && r.value == RetryOf(operations[k])
      ensures r.Success? && r.value != RetryInfo(0, 0) ==>
                exists k :: IsLatest(operations, ip, k) && operations[k].stage == Stage.Error
                            && r.value.attempt == operations[k].retryCount
                            && r.value.nextAt == operations[k].nextRetryAt
      ensures r.Failure? ==> r.error == Crashed || External(r.error)
    {
      var fate := env.Draw();
      var o := env.Report(fate);
      if o.Err? {
        return Failure(o.error);
      }
      var best := LatestRow(ip);
      r := Success(if best.None? then RetryInfo(0, 0) else RetryOf(operations[best.value]));
    }

    /** `WHERE stage NOT IN (ACTIVE, ERROR) ORDER BY created_at`. */
    method ListIncompleteOperations() returns (r: Result<seq<Operation>>)
      requires Keyed(operations)
      modifies env`now
      ensures env.now > old(env.now)
      ensures r.Success? ==> ListsIncomplete(operations, r.value)
      ensures r.Failure? ==> r.error == Crashed || External(r.error)
      ensures env.calm ==> r.Success?
    {
      var fate := env.Draw();
      var o := env.Report(fate);
      if o.Err? {
        return Failure(o.error);
      }
      var list := OldestFirst();
      return Success(list);
    }

    method OldestFirst() returns (list: seq<Operation>)
      requires Keyed(operations)
      ensures ListsIncomplete(operations, list)
    {
      list := [];
      var rest := set k | k in operations && Inflight(operations[k].stage);
      while rest != {}
        invariant ListsAllBut(operations, rest, list)
        decreases rest
      {
        var first := Oldest(rest);
        ListOneMore(operations, rest, list, first);
        list := list + [operations[first]];
        rest := rest - {first};
      }
    }

    method Oldest(ids: set<string>) returns (oldest: string)
      requires ids != {} && ids <= operations.Keys
      ensures oldest in ids
      ensures forall k <- ids :: operations[oldest].createdAt <= operations[k].createdAt
    {
      oldest :| oldest in ids;
      var rest := ids - {oldest};
      while rest != {}
        invariant rest <= ids && oldest in ids
        invariant forall k <- ids - rest :: operations[oldest].createdAt <= operations[k].createdAt
        decreases rest
      {
        var k :| k in rest;
        rest := rest - {k};
        if operations[k].createdAt < operations[oldest].createdAt {
          oldest := k;
        }
      }
    }

    /** The compare-and-set under every stage transition: one row, and only from the expected stage. */
    method UpdateExpected(id: string, expected: Stage, next: Stage, patch: Patch) returns (r: Outcome)
      modifies this`operations, env`now
      ensures env.now > old(env.now)
      ensures CompareAndSet(old(operations), operations, id, expected, next, patch, env.now, r, env.calm)
    {
      var fate := env.Draw();
      if fate.TakesEffect() {
        if id !in operations || operations[id].stage != expected {
          return Err(Conflict);
        }
        operations := operations[id := Patched(operations[id], next, patch, env.now)];
      }
      r := env.Report(fate);
    }

    method Transition(id: string, expected: Stage, next: Stage, marker: string) returns (r: Outcome)
      modifies this`operations, env`now
      ensures env.now > old(env.now)
      ensures CompareAndSet(old(operations), operations, id, expected, next, SetMarker(marker), env.now, r, env.calm)
      ensures r.Ok? ==>
                && id in old(operations) && old(operations)[id].stage == expected
                && operations == old(operations)[id := old(operations)[id].(
                                                   stage := next, recoveryMarker := marker, updatedAt := env.now)]
    {
      r := UpdateExpected(id, expected, next, SetMarker(marker));
    }

    method SaveIssued(id: string, expected: Stage, fingerprint: string, expiresAt: int) returns (r: Outcome)
      modifies this`operations, env`now
      ensures env.now >= old(env.now)
      ensures !(fingerprint == "" || expiresAt <= 0) ==> env.now > old(env.now)
      ensures fingerprint == "" || expiresAt <= 0 ==> r == Err(InvalidArgument) && operations == old(operations)
      ensures !(fingerprint == "" || expiresAt <= 0) ==>
                CompareAndSet(old(operations), operations, id, expected, CertIssued, SetIssued(fingerprint, expiresAt),
                              env.now, r, env.calm)
      ensures r.Ok? ==>
                && id in old(operations) && old(operations)[id].stage == expected
                && operations == old(operations)[id := old(operations)[id].(
                                                   stage := CertIssued, certFingerprint := fingerprint,
                                                   expiresAt := expiresAt, recoveryMarker := "",
                                                   updatedAt := env.now)]
    {
      if fingerprint == "" || expiresAt <= 0 {
        return Err(InvalidArgument);
      }
      r := UpdateExpected(id, expected, CertIssued, SetIssued(fingerprint, expiresAt));
    }

    method SetCertCreated(id: string, expected: Stage, certID: int) returns (r: Outcome)
      modifies this`operations, env`now
      ensures env.now >= old(env.now)
      ensures certID > 0 ==> env.now > old(env.now)
      ensures certID <= 0 ==> r == Err(InvalidArgument) && operations == old(operations)
      ensures certID > 0 ==>
                CompareAndSet(old(operations), operations, id, expected, CertCreated, SetCert(certID),
                              env.now, r, env.calm)
      ensures r.Ok? ==>
                && id in old(operations) && old(operations)[id].stage == expected
                && operations == old(operations)[id := old(operations)[id].(
                                                   stage := CertCreated, certID := certID, recoveryMarker := "",
                                                   updatedAt := env.now)]
    {
      if certID <= 0 {
        return Err(InvalidArgument);
      }
      r := UpdateExpected(id, expected, CertCreated, SetCert(certID));
    }

    method SetPolicyBound(id: string, expected: Stage) returns (r: Outcome)
      modifies this`operations, env`now
      ensures env.now > old(env.now)
      ensures CompareAndSet(old(operations), operations, id, expected, PolicyBound, ClearMarker, env.now, r, env.calm)
      ensures r.Ok? ==>
                && id in old(operations) && old(operations)[id].stage == expected
                && operations == old(operations)[id := old(operations)[id].(
                                                   stage := PolicyBound, recoveryMarker := "", updatedAt := env.now)]
    {
      r := UpdateExpected(id, expected, PolicyBound, ClearMarker);
    }

    method SetError(id: string, expected: Stage, category: string, message: string, marker: string) returns (r: Outcome)
      modifies this`operations, env`now
      ensures env.now > old(env.now)
      ensures CompareAndSet(old(operations), operations, id, expected, Stage.Error,
                            SetFailure(category, message, marker),
                            env.now, r, env.calm)
      ensures r.Ok? ==>
                && id in old(operations) && old(operations)[id].stage == expected
                && operations == old(operations)[id := old(operations)[id].(
                                                   stage := Stage.Error, errorCategory := category,
                                                   errorMessage := message, recoveryMarker := marker,
                                                   updatedAt := env.now)]
    {
      r := UpdateExpected(id, expected, Stage.Error, SetFailure(category, message, marker));
    }

    method SetErrorWithRetry(id: string, expected: Stage, category: string, message: string, marker: string,
                             retryCount: int, nextRetryAt: int) returns (r: Outcome)
      modifies this`operations, env`now
      ensures env.now > old(env.now)
      ensures CompareAndSet(old(operations), operations, id, expected, Stage.Error,
                            SetFailureWithRetry(category, message, marker, retryCount, nextRetryAt),
                            env.now, r, env.calm)
      ensures r.Ok? ==>
                && id in old(operations) && old(operations)[id].stage == expected
                && operations == old(operations)[id := old(operations)[id].(
                                                   stage := Stage.Error, errorCategory := category,
                                                   errorMessage := message, recoveryMarker := marker,
                                                   retryCount := retryCount, nextRetryAt := nextRetryAt,
                                                   updatedAt := env.now)]
    {
      r := UpdateExpected(id, expected, Stage.Error,
                          SetFailureWithRetry(category, message, marker, retryCount, nextRetryAt));
    }

    method RecordOperationFailure(id: string, expected: Stage, category: string, message: string, marker: string)
      returns (r: Outcome)
      modifies this`operations, env`now
      ensures env.now > old(env.now)
      ensures CompareAndSet(old(operations), operations, id, expected, expected, SetFailure(category, message, marker),
                            env.now, r, env.calm)
      ensures r.Ok? ==>
                && id in old(operations) && old(operations)[id].stage == expected
                && operations == old(operations)[id := old(operations)[id].(
                                                   errorCategory := category, errorMessage := message,
                                                   recoveryMarker := marker, updatedAt := env.now)]
    {
      r := UpdateExpected(id, expected, expected, SetFailure(category, message, marker));
    }

    /** One transaction over both tables: the managed row and the final stage commit together or not at all. */
    method SetActive(id: string, expected: Stage, accountReference: string, nextRenewalAt: int) returns (r: Outcome)
      modifies this`operations, this`managed, env`now
      ensures env.now > old(env.now)
      ensures var before := old(operations);
              var committed := id in before && before[id].stage == expected
                && operations == before[id := Activated(before[id], env.now)]
                && managed == old(managed)[before[id].ipv4 :=
                                             ManagedRow(before[id], accountReference, nextRenewalAt, env.now)];
              && ((operations == before && managed == old(managed)) || committed)
              && (r.Ok? ==> committed)
      ensures r.Ok? || operations != old(operations) || managed != old(managed) ==>
                && id in old(operations) && old(operations)[id].stage == expected
                && operations == old(operations)[id := old(operations)[id].(
                                                   stage := Active, errorCategory := "", errorMessage := "",
                                                   recoveryMarker := "", updatedAt := env.now)]
                && var o := old(operations)[id];
                && o.ipv4 in managed && managed == old(managed)[o.ipv4 := managed[o.ipv4]]
                && ActivatedFrom(managed[o.ipv4], o, accountReference, nextRenewalAt)
                && CleanRow(managed[o.ipv4], env.now)
      ensures r.Err? ==> r.error in {Crashed, NotFound, Conflict} || External(r.error)
      ensures r.Err? && r.error in {NotFound, Conflict} ==>
                (id !in old(operations) || old(operations)[id].stage != expected)
                && operations == old(operations) && managed == old(managed)
      ensures env.calm && id in old(operations) && old(operations)[id].stage == expected ==> r.Ok?
    {
      var fate := env.Draw();
      if fate.TakesEffect() {
        if id !in operations {
          return Err(NotFound);
        }
        var op := operations[id];
        if op.stage != expected {
          return Err(Conflict);
        }
        managed := managed[op.ipv4 := ManagedRow(op, accountReference, nextRenewalAt, env.now)];
        operations := operations[id := Activated(op, env.now)];
      }
      r := env.Report(fate);
    }

    /** Rewrites only the recovery marker, and not `updated_at`. */
    method NormalizeFirstIssueFailure(id: string) returns (r: Outcome)
      modifies this`operations, env`now
      ensures env.now > old(env.now)
      ensures var before := old(operations);
              var written := id in before && IsFirstIssueFailure(before[id])
                && operations == before[id := before[id].(recoveryMarker := RECOVERY_NEEDS_ATTENTION)];
              && (operations == before || written)
              && (r.Ok? ==> written)
              && (r == Err(Conflict) ==> id !in before || !IsFirstIssueFailure(before[id]))
              && (env.calm && id in before && IsFirstIssueFailure(before[id]) ==> r.Ok?)
      ensures r.Ok? ==>
                && id in old(operations) && old(operations)[id].kind == Issue
                && old(operations)[id].stage == Stage.Error && old(operations)[id].certID == 0
                && operations[id].recoveryMarker == "needs-attention"
      ensures r.Err? ==> r.error in {Crashed, Conflict} || External(r.error)
    {
      var fate := env.Draw();
      if fate.TakesEffect() {
        if id !in operations || !IsFirstIssueFailure(operations[id]) {
          return Err(Conflict);
        }
        operations := operations[id := operations[id].(recoveryMarker := RECOVERY_NEEDS_ATTENTION)];
      }
      r := env.Report(fate);
    }

    method RecordManagedError(ip: string, category: string, message: string, marker: string) returns (r: Outcome)
      modifies this`managed, env`now
      ensures env.now > old(env.now)
      ensures var before := old(managed);
              var written := ip in before && managed == before[ip := WithError(before[ip], category, message, marker)];
              && (managed == before || written)
              && (r.Ok? ==> written)
              && (r == Err(NotFound) ==> ip !in before)
              && (env.calm && ip in before ==> r.Ok?)
      ensures r.Ok? || managed != old(managed) ==>
                && ip in old(managed)
                && managed == old(managed)[ip := old(managed)[ip].(
                                             state := Stage.Error, lastErrorCategory := category, lastError := message,
                                             recoveryMarker := marker)]
      ensures r.Err? ==> r.error in {Crashed, NotFound} || External(r.error)
    {
      var fate := env.Draw();
      if fate.TakesEffect() {
        if ip !in managed {
          return Err(NotFound);
        }
        managed := managed[ip := WithError(managed[ip], category, message, marker)];
      }
      r := env.Report(fate);
    }
  }
}
