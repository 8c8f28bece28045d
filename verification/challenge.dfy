/** HTTP-01 challenge rows in a foreign table, and the journal that makes every inserted row recoverable. */
module Challenges {
  import opened Outcomes
  import opened Environments
  import Lexicographic
  import opened Operations
  import opened Scheduler

  datatype Challenge = Challenge(id: int, taskID: int, domain: string, token: string, key: string, createdAt: int)

  datatype Key = Key(operationID: string, domain: string, token: string)

  datatype Pending = Pending(operationID: string, domain: string, token: string, rowID: int, createdAt: int) {
    function AsKey(): Key { Key(operationID, domain, token) }
  }

  type Table = map<int, Challenge>
  type Journal = map<Key, Pending>

  predicate Matches(row: Challenge, p: Pending)
  {
    row.taskID == 0 && row.domain == p.domain && row.token == p.token && row.createdAt == p.createdAt
  }

  function Dated(item: Challenge, now: int): Challenge
  {
    if item.createdAt == 0 then item.(createdAt := Unix(now)) else item
  }

  /** The delete selector: row ID, task, domain and token. */
  predicate Selected(rows: Table, item: Challenge)
  {
    && item.id in rows && rows[item.id].taskID == item.taskID
    && rows[item.id].domain == item.domain && rows[item.id].token == item.token
  }

  /** `ORDER BY created_at, operation_id`. */
  predicate Precedes(a: Pending, b: Pending)
  {
    a.createdAt < b.createdAt || (a.createdAt == b.createdAt && Lexicographic.Less(a.operationID, b.operationID))
  }

  predicate NotAfter(a: Pending, b: Pending)
  {
    !Precedes(b, a)
  }

  lemma NotAfterIsTotal(a: Pending, b: Pending)
    ensures NotAfter(a, a)
    ensures NotAfter(a, b) ==>
              a.createdAt < b.createdAt
              || (a.createdAt == b.createdAt && !Lexicographic.Less(b.operationID, a.operationID))
    ensures Precedes(b, a) ==> NotAfter(b, a)
    ensures !Precedes(b, a) ==> NotAfter(a, b)
  {
    Lexicographic.LessIsTotal(a.operationID, b.operationID);
    Lexicographic.LessIsTotal(a.operationID, a.operationID);
  }

  lemma NotAfterIsTransitive(a: Pending, b: Pending, c: Pending)
    requires NotAfter(a, b) && NotAfter(b, c)
    ensures NotAfter(a, c)
  {
    if a.createdAt == b.createdAt == c.createdAt {
      Lexicographic.LessIsTransitive(a.operationID, b.operationID, c.operationID);
    }
  }

  // ---------------------------------------------------------------- the invariant

  /** `own` maps every row this service inserted and has not deleted to the journal entry it was inserted for. */
  ghost predicate EntryCovers(p: Pending, row: Challenge, r: int)
  {
    Matches(row, p) && (p.rowID == r || p.rowID == 0)
  }

  /** Every own row is covered by exactly one entry, every entry covers at most one row, and a recorded row ID is
      an own row or no row at all. */
  ghost predicate Covered(rows: Table, journal: Journal, own: map<int, Key>, nextID: int)
  {
    && (forall r <- rows :: 0 < r < nextID && rows[r].id == r)
    && (forall r <- own :: r in rows && own[r] in journal && EntryCovers(journal[own[r]], rows[r], r))
    && (forall r <- own, q <- own :: own[r] == own[q] ==> r == q)
    && (forall k <- journal :: journal[k].AsKey() == k && 0 <= journal[k].rowID < nextID
                           && k.domain != "" && k.token != ""
          && (journal[k].rowID in rows ==> journal[k].rowID in own && own[journal[k].rowID] == k))
    && nextID > 0
  }

  /** No other row looks like the row of an entry whose row ID is not recorded yet. */
  ghost predicate Unshared(rows: Table, journal: Journal, own: map<int, Key>)
  {
    forall r <- rows, k <- journal :: journal[k].rowID == 0 && Matches(rows[r], journal[k]) ==> r in own && own[r] == k
  }

  /** The rows that are not this service's: the other users' rows and the orphans. */
  function Others(rows: Table, own: map<int, Key>): Table
  {
    rows - own.Keys
  }

  /** No row and no entry has this domain and token: the authority draws a token for one order only. */
  predicate FreshToken(rows: Table, journal: Journal, domain: string, token: string)
  {
    && (forall r <- rows :: rows[r].taskID == 0 ==> !(rows[r].domain == domain && rows[r].token == token))
    && (forall k <- journal :: !(k.domain == domain && k.token == token))
  }

  lemma BeginKeeps(rows: Table, journal: Journal, own: map<int, Key>, nextID: int, p: Pending)
    requires Covered(rows, journal, own, nextID) && p.AsKey() !in journal && p.rowID == 0 && p.domain != ""
             && p.token != ""
    ensures Covered(rows, journal[p.AsKey() := p], own, nextID)
    ensures forall r <- own :: own[r] != p.AsKey()
    ensures Unshared(rows, journal, own) && FreshToken(rows, journal, p.domain, p.token) ==>
              Unshared(rows, journal[p.AsKey() := p], own)
  {
  }

  lemma InsertKeeps(rows: Table, journal: Journal, own: map<int, Key>, nextID: int, p: Pending, row: Challenge)
    requires Covered(rows, journal, own, nextID) && p.AsKey() in journal && journal[p.AsKey()] == p && p.rowID == 0
    requires forall r <- own :: own[r] != p.AsKey()
    requires row.id == nextID && Matches(row, p)
    ensures Covered(rows[nextID := row], journal, own[nextID := p.AsKey()], nextID + 1)
    ensures Others(rows[nextID := row], own[nextID := p.AsKey()]) == Others(rows, own)
    ensures Unshared(rows, journal, own) &&
              (forall k <- journal :: k.domain == p.domain && k.token == p.token ==> k == p.AsKey()) ==>
              Unshared(rows[nextID := row], journal, own[nextID := p.AsKey()])
  {
  }

  lemma RecordKeeps(rows: Table, journal: Journal, own: map<int, Key>, nextID: int, k: Key, r: int)
    requires Covered(rows, journal, own, nextID) && r in own && own[r] == k && journal[k].rowID == 0
    ensures Covered(rows, journal[k := journal[k].(rowID := r)], own, nextID)
    ensures Unshared(rows, journal, own) ==> Unshared(rows, journal[k := journal[k].(rowID := r)], own)
  {
  }

  lemma DeleteKeeps(rows: Table, journal: Journal, own: map<int, Key>, nextID: int, r: int)
    requires Covered(rows, journal, own, nextID)
    ensures Covered(rows - {r}, journal, own - {r}, nextID)
    ensures Unshared(rows, journal, own) ==> Unshared(rows - {r}, journal, own - {r})
    ensures r in own ==> Others(rows - {r}, own - {r}) == Others(rows, own)
  {
  }

  lemma CompleteKeeps(rows: Table, journal: Journal, own: map<int, Key>, nextID: int, k: Key)
    requires Covered(rows, journal, own, nextID) && forall r <- own :: own[r] != k
    ensures Covered(rows, journal - {k}, own, nextID)
    ensures Unshared(rows, journal, own) ==> Unshared(rows, journal - {k}, own)
  {
  }

  /** A row whose entry is dropped becomes an orphan: it stays in the table and nothing covers it. */
  lemma OrphanKeeps(rows: Table, journal: Journal, own: map<int, Key>, nextID: int, k: Key, r: int)
    requires Covered(rows, journal, own, nextID) && r in own && own[r] == k
    ensures Covered(rows, journal - {k}, own - {r}, nextID)
    ensures Unshared(rows, journal, own) ==> Unshared(rows, journal - {k}, own - {r})
    ensures Others(rows, own - {r}) == Others(rows, own)[r := rows[r]]
  {
  }

  /** An orphan is out of reach of every recovery: no entry that is left covers it. */
  lemma OrphanIsUncovered(rows: Table, journal: Journal, own: map<int, Key>, nextID: int, k: Key, r: int)
    requires Covered(rows, journal, own, nextID) && Unshared(rows, journal, own) && r in own && own[r] == k
    ensures r in rows && forall q <- journal - {k} :: !EntryCovers(journal[q], rows[r], r)
  {
  }

  /** Coverage fails for the row of an insert that took effect and was reported as failed, once its entry is
      dropped: here is such a table and journal. */
  lemma ReportedFailureCanLoseARow() returns (rows: Table, before: Journal, after: Journal, k: Key)
    ensures Covered(rows, before, map[1 := k], 2) && Covered(rows, after, map[], 2) && after == before - {k}
    ensures EntryCovers(before[k], rows[1], 1) && forall q <- after :: !EntryCovers(after[q], rows[1], 1)
  {
    k := Key("a", "8.8.8.8", "t");
    rows := map[1 := Challenge(1, 0, "8.8.8.8", "t", "key", 7)];
    before := map[k := Pending("a", "8.8.8.8", "t", 0, 7)];
    after := before - {k};
    assert Matches(rows[1], before[k]);
  }

  // ---------------------------------------------------------------- what an entry selects

  /** Exactly one row matches the entry. */
  ghost predicate Sole(rows: Table, p: Pending, r: int)
  {
    r in rows && Matches(rows[r], p) && forall q <- rows :: Matches(rows[q], p) ==> q == r
  }

  /** An entry without a row ID selects its own row exactly when its row is still in the table; otherwise the
      only match is somebody else's row. */
  lemma SelectsOwnRowExactly(rows: Table, journal: Journal, own: map<int, Key>, nextID: int, k: Key, r: int)
    requires Covered(rows, journal, own, nextID) && k in journal && journal[k].rowID == 0 && Sole(rows, journal[k], r)
    ensures r in own && own[r] == k <==> exists q :: q in own && own[q] == k
  {
    if q :| q in own && own[q] == k {
      assert EntryCovers(journal[own[q]], rows[q], q);
    }
  }

  /** The isolation assumption is needed: after a crash between the entry and the insert, one foreign row with the
      same domain, token and second is taken for the service's own. */
  lemma ForeignRowCanBeSelected() returns (rows: Table, journal: Journal, k: Key)
    ensures Covered(rows, journal, map[], 2) && !Unshared(rows, journal, map[])
    ensures k in journal && journal[k].rowID == 0 && Sole(rows, journal[k], 1) && 1 in Others(rows, map[])
  {
    k := Key("a", "8.8.8.8", "t");
    rows := map[1 := Challenge(1, 0, "8.8.8.8", "t", "foreign", 7)];
    journal := map[k := Pending("a", "8.8.8.8", "t", 0, 7)];
    assert Matches(rows[1], journal[k]);
  }

  /** With unshared entries nothing is ambiguous: every entry without a row ID matches at most one row. */
  lemma UnsharedIsUnambiguous(rows: Table, journal: Journal, own: map<int, Key>, nextID: int, k: Key, r: int, q: int)
    requires Covered(rows, journal, own, nextID) && Unshared(rows, journal, own) && k in journal
             && journal[k].rowID == 0
    requires r in rows && q in rows && Matches(rows[r], journal[k]) && Matches(rows[q], journal[k])
    ensures r == q
  {
  }

  /** An entry that selects no row has no row of its own. */
  lemma NothingSelected(rows: Table, journal: Journal, own: map<int, Key>, nextID: int, k: Key)
    requires Covered(rows, journal, own, nextID) && k in journal
    requires if journal[k].rowID > 0
             then !Selected(rows, Challenge(journal[k].rowID, 0, k.domain, k.token, "", 0))
             else forall r <- rows :: !Matches(rows[r], journal[k])
    ensures forall r <- own :: own[r] != k
  {
    forall r | r in own
      ensures own[r] != k
    {
      assert EntryCovers(journal[own[r]], rows[r], r);
    }
  }

  /** Once the one row that an entry selects is gone, the entry has no row of its own. */
  lemma SelectedIsLast(rows: Table, journal: Journal, own: map<int, Key>, nextID: int, k: Key, r: int)
    requires Covered(rows, journal, own, nextID) && k in journal
    requires if journal[k].rowID > 0 then r == journal[k].rowID else Sole(rows, journal[k], r)
    ensures forall q <- own - {r} :: own[q] != k
    ensures r in rows && (journal[k].rowID > 0 || Unshared(rows, journal, own)) ==> r in own && own[r] == k
  {
    forall q | q in own && q != r
      ensures own[q] != k
    {
      assert EntryCovers(journal[own[q]], rows[q], q);
    }
  }

  // ---------------------------------------------------------------- the two stores

  class ChallengeTable {
    const env: Environment
    var rows: Table
    var nextID: int
    var checked: bool

    constructor (env: Environment, foreign: Table, nextID: int)
      requires nextID > 0
      ensures this.env == env && rows == foreign && this.nextID == nextID && !checked
    {
      this.env := env;
      this.rows, this.nextID, this.checked := foreign, nextID, false;
    }

    method CheckSchema() returns (r: Outcome)
      modifies this`checked, env`now
      ensures env.now >= old(env.now)
      ensures r.Ok? ==> checked
      ensures old(checked) ==> r.Ok? && checked
      ensures r.Err? ==> r.error == Crashed || External(r.error)
      ensures env.calm ==> r.Ok?
    {
      if checked {
        return Ok;
      }
      var fate := env.Draw();
      r := env.Report(fate);
      if r.Ok? {
        checked := true;
      }
    }

    /** Inserts one row, dated now when it has no date; `inserted` tells whether the row is there, whatever the
        caller is told. */
    method Create(item: Challenge) returns (r: Result<Challenge>, ghost inserted: bool)
      modifies this`rows, this`nextID, env`now
      ensures env.now >= old(env.now)
      ensures inserted ==> && rows == old(rows)[old(nextID) := Dated(item, old(env.now)).(id := old(nextID))]
                           && nextID == old(nextID) + 1
                           && old(checked) && item.taskID == 0
      ensures !inserted ==> rows == old(rows) && nextID == old(nextID)
      ensures r.Success? ==> inserted && r.value == Dated(item, old(env.now)).(id := old(nextID))
      ensures !checked ==> r == Failure(SchemaMismatch) && !inserted
      ensures inserted ==>
                && old(nextID) in rows && rows == old(rows)[old(nextID) := rows[old(nextID)]]
                && var row := rows[old(nextID)];
                && row.id == old(nextID) && row.taskID == 0 && row.domain == item.domain && row.token == item.token
                && row.key == item.key
                && (item.createdAt != 0 ==> row.createdAt == item.createdAt)
                && (item.createdAt == 0 ==> row.createdAt * SECOND <= old(env.now) < (row.createdAt + 1) * SECOND)
      ensures r.Failure? ==> r.error in {Crashed, InvalidArgument} || External(r.error)
      ensures env.calm ==> r != Failure(Crashed)
    {
      if !checked {
        return Failure(SchemaMismatch), false;
      }
      if item.taskID != 0 || item.domain == "" || item.token == "" || item.key == ""
         || |item.domain| > 255 || |item.token| > 255 || |item.key| > 1024 {
        return Failure(InvalidArgument), false;
      }
      var created := Dated(item, env.now).(id := nextID);
      var fate := env.Draw();
      inserted := fate.TakesEffect();
      if fate.TakesEffect() {
        rows := rows[nextID := created];
        nextID := nextID + 1;
      }
      var o := env.Report(fate);
      r := if o.Ok? then Success(created) else Failure(o.error);
    }

    /** Deletes at most the one selected row; `deleted` tells whether it is gone, whatever the caller is told. */
    method Delete(item: Challenge) returns (r: Outcome, ghost deleted: bool)
      modifies this`rows, env`now
      ensures env.now >= old(env.now)
      ensures deleted ==> Selected(old(rows), item) && rows == old(rows) - {item.id}
      ensures deleted ==> && item.id in old(rows) && old(rows)[item.id].taskID == item.taskID
                          && old(rows)[item.id].domain == item.domain && old(rows)[item.id].token == item.token
      ensures !deleted ==> rows == old(rows)
      ensures r.Ok? ==> deleted
      ensures r == Err(NotFound) ==> !Selected(rows, item) && !deleted
      ensures !checked ==> r == Err(SchemaMismatch) && !deleted
      ensures r.Err? ==> r.error in {Crashed, NotFound, InvalidArgument} || External(r.error)
      ensures env.calm ==> r != Err(Crashed)
      ensures env.calm && checked && item.id > 0 && item.taskID == 0 && item.domain != "" && item.token != "" ==>
                r.Ok? || r == Err(NotFound)
    {
      if !checked {
        return Err(SchemaMismatch), false;
      }
      if item.id <= 0 || item.taskID != 0 || item.domain == "" || item.token == "" {
        return Err(InvalidArgument), false;
      }
      var fate := env.Draw();
      deleted := false;
      if fate.TakesEffect() {
        if !Selected(rows, item) {
          return Err(NotFound), false;
        }
        rows := rows - {item.id};
        deleted := true;
      }
      r := env.Report(fate);
    }

    /** All rows that match domain, token and creation time, in the order of their row IDs. */
    method FindOwned(p: Pending) returns (r: Result<seq<int>>)
      requires forall c <- rows :: 0 < c < nextID
      modifies env`now
      ensures env.now >= old(env.now)
      ensures r.Success? ==>
                && (forall i :: 0 <= i < |r.value| ==> r.value[i] in rows && Matches(rows[r.value[i]], p))
                && (forall i, j :: 0 <= i < j < |r.value| ==> r.value[i] < r.value[j])
                && (forall c <- rows :: Matches(rows[c], p) ==> c in r.value)
      ensures !checked ==> r == Failure(SchemaMismatch)
      ensures r.Success? ==> forall c <- rows :: c in r.value <==>
                && rows[c].taskID == 0 && rows[c].domain == p.domain && rows[c].token == p.token
                && rows[c].createdAt == p.createdAt
      ensures r.Failure? ==> r.error == Crashed || External(r.error)
      ensures env.calm ==> r != Failure(Crashed)
      ensures env.calm && checked ==> r.Success?
    {
      if !checked {
        return Failure(SchemaMismatch);
      }
      var fate := env.Draw();
      var o := env.Report(fate);
      if o.Err? {
        return Failure(o.error);
      }
      var found: seq<int> := [];
      var c := 1;
      while c < nextID
        modifies {}
        invariant 1 <= c
        invariant forall i :: 0 <= i < |found| ==> found[i] in rows && Matches(rows[found[i]], p) && found[i] < c
        invariant forall i, j :: 0 <= i < j < |found| ==> found[i] < found[j]
        invariant forall d <- rows :: Matches(rows[d], p) && d < c ==> d in found
      {
        if c in rows && Matches(rows[c], p) {
          found := found + [c];
        }
        c := c + 1;
      }
      return Success(found);
    }
  }

  class ChallengeJournal {
    const env: Environment
    const store: OperationStore
    var pending: Journal
    /** Which entry each inserted and not yet deleted row belongs to, and the rows that lost their entry. */
    ghost var own: map<int, Key>
    ghost var orphans: set<int>

    constructor (store: OperationStore)
      ensures this.store == store && env == store.env && pending == map[] && own == map[] && orphans == {}
    {
      this.env, this.store := store.env, store;
      pending, own, orphans := map[], map[], {};
    }

    /** One transaction: the operation must be presenting a challenge, and the entry must be new. */
    method BeginChallenge(p: Pending) returns (r: Outcome)
      modifies this`pending, env`now
      ensures env.now > old(env.now)
      ensures pending == old(pending)
              || (p.AsKey() !in old(pending) && pending == old(pending)[p.AsKey() := p.(rowID := 0)])
      ensures r.Ok? ==> && p.operationID in store.operations
                        && store.operations[p.operationID].stage == ChallengePresent
                        && p.AsKey() !in old(pending) && pending == old(pending)[p.AsKey() := p.(rowID := 0)]
      ensures r.Err? ==> r.error in {Crashed, Conflict, Constraint} || External(r.error)
      ensures env.calm ==> r != Err(Crashed)
    {
      var fate := env.Draw();
      if fate.TakesEffect() {
        if p.operationID !in store.operations || store.operations[p.operationID].stage != ChallengePresent {
          return Err(Conflict);
        }
        if p.AsKey() in pending {
          return Err(Constraint);
        }
        pending := pending[p.AsKey() := p.(rowID := 0)];
      }
      r := env.Report(fate);
    }

    method SetChallengeRowID(k: Key, rowID: int) returns (r: Outcome)
      modifies this`pending, env`now
      ensures env.now >= old(env.now)
      ensures pending == old(pending)
              || (rowID > 0 && k in old(pending) && old(pending)[k].rowID == 0
                  && pending == old(pending)[k := old(pending)[k].(rowID := rowID)])
      ensures r.Ok? ==> k in old(pending) && old(pending)[k].rowID == 0
                        && pending == old(pending)[k := old(pending)[k].(rowID := rowID)]
      ensures r.Err? ==> r.error in {Crashed, InvalidArgument, Conflict} || External(r.error)
      ensures env.calm ==> r != Err(Crashed)
    {
      if rowID <= 0 {
        return Err(InvalidArgument);
      }
      var fate := env.Draw();
      if fate.TakesEffect() {
        if k !in pending || pending[k].rowID != 0 {
          return Err(Conflict);
        }
        pending := pending[k := pending[k].(rowID := rowID)];
      }
      r := env.Report(fate);
    }

    method PendingChallenge(k: Key) returns (r: Result<Pending>)
      modifies env`now
      ensures env.now > old(env.now)
      ensures r.Success? ==> k in pending && r.value == pending[k]
      ensures r == Failure(NotFound) ==> k !in pending
      ensures r.Failure? ==> r.error in {Crashed, NotFound} || External(r.error)
      ensures env.calm ==> r != Failure(Crashed)
    {
      var fate := env.Draw();
      var o := env.Report(fate);
      if o.Err? {
        return Failure(o.error);
      }
      r := if k in pending then Success(pending[k]) else Failure(NotFound);
    }

    /** Every entry once, by creation time and then by operation identifier. */
    method ListPendingChallenges() returns (r: Result<seq<Key>>)
      modifies env`now
      ensures env.now > old(env.now)
      ensures r.Success? ==>
                && (forall i :: 0 <= i < |r.value| ==> r.value[i] in pending)
                && (forall k <- pending :: k in r.value)
                && (forall i, j :: 0 <= i < j < |r.value| ==>
                      r.value[i] != r.value[j] && NotAfter(pending[r.value[i]], pending[r.value[j]]))
      ensures r.Failure? ==> r.error == Crashed || External(r.error)
      ensures env.calm ==> r.Success?
    {
      hide NotAfter;
      var fate := env.Draw();
      var o := env.Report(fate);
      if o.Err? {
        return Failure(o.error);
      }
      var list: seq<Key> := [];
      var rest := pending.Keys;
      while rest != {}
        modifies {}
        invariant rest <= pending.Keys
        invariant forall i :: 0 <= i < |list| ==> list[i] in pending && list[i] !in rest
        invariant forall k <- pending :: k in rest || k in list
        invariant forall i, j :: 0 <= i < j < |list| ==>
                    list[i] != list[j] && NotAfter(pending[list[i]], pending[list[j]])
        invariant forall i, k :: 0 <= i < |list| && k in rest ==> NotAfter(pending[list[i]], pending[k])
        decreases rest
      {
        var first := Oldest(rest);
        list := list + [first];
        rest := rest - {first};
      }
      return Success(list);
    }

    method Oldest(keys: set<Key>) returns (oldest: Key)
      requires keys != {} && keys <= pending.Keys
      ensures oldest in keys
      ensures forall k <- keys :: NotAfter(pending[oldest], pending[k])
    {
      hide NotAfter;
      oldest :| oldest in keys;
      NotAfterIsTotal(pending[oldest], pending[oldest]);
      var rest := keys - {oldest};
      while rest != {}
        invariant rest <= keys && oldest in keys
        invariant forall k <- keys - rest :: NotAfter(pending[oldest], pending[k])
        decreases rest
      {
        var k :| k in rest;
        rest := rest - {k};
        NotAfterIsTotal(pending[oldest], pending[k]);
        NotAfterIsTotal(pending[k], pending[k]);
        if Precedes(pending[k], pending[oldest]) {
          forall q | q in keys - rest
            ensures NotAfter(pending[k], pending[q])
          {
            if q != k {
              NotAfterIsTransitive(pending[k], pending[oldest], pending[q]);
            }
          }
          oldest := k;
        }
      }
    }

    method CompleteChallenge(k: Key) returns (r: Outcome)
      modifies this`pending, env`now
      ensures env.now > old(env.now)
      ensures pending == old(pending) || pending == old(pending) - {k}
      ensures r.Ok? ==> pending == old(pending) - {k}
      ensures r.Err? ==> r.error == Crashed || External(r.error)
      ensures env.calm ==> r.Ok?
    {
      var fate := env.Draw();
      if fate.TakesEffect() {
        pending := pending - {k};
      }
      r := env.Report(fate);
    }
  }

  // ---------------------------------------------------------------- the write-ahead protocol

  /** What holds of both stores at every crash point. */
  ghost predicate Consistent(table: ChallengeTable, journal: ChallengeJournal)
    reads table`rows, table`nextID, journal`pending, journal`own, journal`orphans
  {
    && table.env == journal.env
    && Covered(table.rows, journal.pending, journal.own, table.nextID)
    && journal.orphans <= table.rows.Keys && journal.orphans !! journal.own.Keys
  }

  ghost predicate Isolated(table: ChallengeTable, journal: ChallengeJournal)
    reads table`rows, journal`pending, journal`own
  {
    Unshared(table.rows, journal.pending, journal.own)
  }

  /** The rows of everybody else. */
  ghost function Foreign(table: ChallengeTable, journal: ChallengeJournal): Table
    reads table`rows, journal`own, journal`orphans
  {
    Others(table.rows, journal.own) - journal.orphans
  }

  /** At most one row went: one that bears the entry's domain and token, and, when no row looks like another's, only
      the entry's own. */
  ghost predicate OneRowAtMost(before: Table, after: Table, own: map<int, Key>, ownAfter: map<int, Key>, k: Key,
                               isolated: bool)
  {
    || (after == before && ownAfter == own)
    || exists c :: c in before && before[c].domain == k.domain && before[c].token == k.token
                   && after == before - {c} && ownAfter == own - {c} && (isolated ==> c in own && own[c] == k)
  }

  /** `resolveOwned`: the row to delete for an entry. */
  method ResolveOwned(table: ChallengeTable, p: Pending) returns (r: Result<Challenge>)
    requires forall c <- table.rows :: 0 < c < table.nextID && table.rows[c].id == c
    modifies table.env`now
    ensures table.env.now >= old(table.env.now)
    ensures p.rowID > 0 ==> r == Success(Challenge(p.rowID, 0, p.domain, p.token, "", p.createdAt))
    ensures r.Success? && p.rowID <= 0 ==> Sole(table.rows, p, r.value.id) && r.value == table.rows[r.value.id]
    ensures r == Failure(NotFound) ==> p.rowID <= 0 && forall c <- table.rows :: !Matches(table.rows[c], p)
    ensures r == Failure(Ambiguous) ==>
              p.rowID <= 0 && exists c, d :: c in table.rows && d in table.rows && c != d
                                             && Matches(table.rows[c], p) && Matches(table.rows[d], p)
    ensures r.Failure? ==> r.error in {Crashed, NotFound, Ambiguous} || External(r.error)
    ensures table.env.calm ==> r != Failure(Crashed)
    ensures table.env.calm && table.checked ==> r.Success? || r.error in {NotFound, Ambiguous}
  {
    if p.rowID > 0 {
      return Success(Challenge(p.rowID, 0, p.domain, p.token, "", p.createdAt));
    }
    var found := table.FindOwned(p);
    if found.Failure? {
      return Failure(found.error);
    }
    if |found.value| == 0 {
      return Failure(NotFound);
    }
    if |found.value| != 1 {
      assert found.value[0] < found.value[1];
      return Failure(Ambiguous);
    }
    return Success(table.rows[found.value[0]]);
  }

  /** Removes an entry that has no row of its own. */
  method Finish(table: ChallengeTable, journal: ChallengeJournal, k: Key) returns (r: Outcome)
    requires Consistent(table, journal) && forall q <- journal.own :: journal.own[q] != k
    modifies journal`pending, journal.env`now
    ensures Consistent(table, journal) && journal.env.now >= old(journal.env.now)
    ensures old(Isolated(table, journal)) ==> Isolated(table, journal)
    ensures journal.pending == old(journal.pending) || journal.pending == old(journal.pending) - {k}
    ensures r.Ok? ==> journal.pending == old(journal.pending) - {k}
    ensures r.Err? ==> r.error == Crashed || External(r.error)
    ensures journal.env.calm ==> r.Ok?
  {
    hide Covered, Unshared;
    CompleteKeeps(table.rows, journal.pending, journal.own, table.nextID, k);
    r := journal.CompleteChallenge(k);
  }

  /** Deletes the row that an entry resolved to, then the entry. */
  method Settle(table: ChallengeTable, journal: ChallengeJournal, k: Key, item: Challenge) returns (r: Outcome)
    requires Consistent(table, journal) && k in journal.pending
    requires item.id > 0 && item.taskID == 0 && item.domain == k.domain && item.token == k.token
    requires if journal.pending[k].rowID > 0 then item.id == journal.pending[k].rowID
             else Sole(table.rows, journal.pending[k], item.id) && item == table.rows[item.id]
    modifies table`rows, journal`pending, journal`own, journal`orphans, journal.env`now
    ensures Consistent(table, journal) && journal.env.now >= old(journal.env.now)
    ensures old(Isolated(table, journal)) ==> Isolated(table, journal) && journal.orphans == old(journal.orphans)
    ensures OneRowAtMost(old(table.rows), table.rows, old(journal.own), journal.own, k, old(Isolated(table, journal)))
    ensures journal.pending == old(journal.pending) || journal.pending == old(journal.pending) - {k}
    ensures r.Ok? ==> journal.pending == old(journal.pending) - {k}
    ensures r.Err? ==> r.error in {Crashed, InvalidArgument} || External(r.error)
    ensures journal.env.calm ==> r != Err(Crashed)
    ensures journal.env.calm && table.checked && k.domain != "" && k.token != "" ==> r.Ok?
  {
    hide Unshared;
    SelectedIsLast(table.rows, journal.pending, journal.own, table.nextID, k, item.id);
    DeleteKeeps(table.rows, journal.pending, journal.own, table.nextID, item.id);
    if !Selected(table.rows, item) {
      NothingSelected(table.rows, journal.pending, journal.own, table.nextID, k);
    }
    hide Covered, Sole;
    ghost var deleted;
    r, deleted := table.Delete(item);
    if deleted {
      journal.own, journal.orphans := journal.own - {item.id}, journal.orphans - {item.id};
    }
    if r.Err? && r.error != NotFound {
      return;
    }
    r := Finish(table, journal, k);
  }

  class Provider {
    const operationID: string
    const table: ChallengeTable
    const journal: ChallengeJournal

    constructor (operationID: string, table: ChallengeTable, journal: ChallengeJournal)
      ensures this.operationID == operationID && this.table == table && this.journal == journal
    {
      this.operationID, this.table, this.journal := operationID, table, journal;
    }

    /** Entry first, then the row, then its row ID. Cut anywhere, the row has its entry; a row is orphaned exactly
        when an insert that took effect was reported as failed and the entry was then dropped. */
    method Present(domain: string, token: string, key: string) returns (r: Outcome, ghost inserted: bool,
                   ghost dropped: bool)
      requires Consistent(table, journal)
      modifies table`rows, table`nextID, journal`pending, journal`own, journal`orphans, journal.env`now
      ensures Consistent(table, journal) && journal.env.now >= old(journal.env.now)
      ensures old(Isolated(table, journal)) && old(FreshToken(table.rows, journal.pending, domain, token)) ==>
              Isolated(table, journal)
      ensures Foreign(table, journal) == old(Foreign(table, journal))
      ensures forall q <- old(journal.pending) :: q in journal.pending && journal.pending[q] == old(journal.pending)[q]
      ensures var k, id := Key(operationID, domain, token), old(table.nextID);
              && (journal.orphans == if inserted && dropped then old(journal.orphans) + {id} else old(journal.orphans))
              && (!inserted || dropped ==> journal.own == old(journal.own))
              && (inserted && !dropped ==> journal.own == old(journal.own)[id := k]
                                           || (r.Err? && journal.own == old(journal.own)
                                                      && table.rows == old(table.rows)))
              && (journal.pending.Keys <= old(journal.pending).Keys + {k})
              && (r.Ok? ==> && inserted && !dropped && journal.own == old(journal.own)[id := k]
                            && k !in old(journal.pending) && k in journal.pending && journal.pending[k].rowID == id
                            && table.rows == old(table.rows)[id := Challenge(id, 0, domain, token, key,
                                                                             journal.pending[k].createdAt)])
      ensures r.Ok? ==> var at := journal.pending[Key(operationID, domain, token)].createdAt;
                        at * SECOND <= old(journal.env.now) < (at + 1) * SECOND
      ensures r.Err? ==> r.error in {Crashed, InvalidArgument, Conflict, Constraint} || External(r.error)
      ensures journal.env.calm ==> r != Err(Crashed)
    {
      hide Covered, Unshared;
      inserted, dropped := false, false;
      if domain == "" || token == "" || key == "" {
        return Err(InvalidArgument), inserted, dropped;
      }
      var p := Pending(operationID, domain, token, 0, Unix(journal.env.now));
      r := Begin(p);
      if r.Ok? {
        r, inserted, dropped := InsertBegun(p, key);
      }
    }

    /** The entry is there: its row, and then the row ID. */
    method InsertBegun(p: Pending, key: string) returns (r: Outcome, ghost inserted: bool, ghost dropped: bool)
      requires Consistent(table, journal) && p.AsKey() in journal.pending && journal.pending[p.AsKey()] == p
      requires p.rowID == 0 && p.createdAt != 0 && forall q <- journal.own :: journal.own[q] != p.AsKey()
      modifies table`rows, table`nextID, journal`pending, journal`own, journal`orphans, journal.env`now
      ensures Consistent(table, journal) && journal.env.now >= old(journal.env.now)
      ensures && old(Isolated(table, journal))
              && (forall k <- old(journal.pending) :: k.domain == p.domain && k.token == p.token ==> k == p.AsKey()) ==>
                Isolated(table, journal)
      ensures Foreign(table, journal) == old(Foreign(table, journal))
              && journal.pending.Keys <= old(journal.pending).Keys
      ensures forall q <- old(journal.pending) :: q != p.AsKey() ==>
                q in journal.pending && journal.pending[q] == old(journal.pending)[q]
      ensures var k, id := p.AsKey(), old(table.nextID);
              && (journal.orphans == if inserted && dropped then old(journal.orphans) + {id} else old(journal.orphans))
              && (!inserted || dropped ==> journal.own == old(journal.own))
              && (inserted && !dropped ==> journal.own == old(journal.own)[id := k]
                                           || (r.Err? && journal.own == old(journal.own)
                                                      && table.rows == old(table.rows)))
              && (r.Ok? ==> && inserted && !dropped && journal.own == old(journal.own)[id := k]
                            && k in journal.pending && journal.pending[k] == p.(rowID := id)
                            && table.rows == old(table.rows)[id := Challenge(id, 0, p.domain, p.token, key,
                                                                             p.createdAt)])
      ensures r.Err? ==> r.error in {Crashed, InvalidArgument, Conflict, Constraint} || External(r.error)
      ensures journal.env.calm ==> r != Err(Crashed)
    {
      hide Covered, Unshared;
      dropped := false;
      var k, id := p.AsKey(), table.nextID;
      var created;
      created, inserted := Insert(p, key);
      if created.Failure? {
        r := Err(created.error);
        if !r.IsCrash() {
          var completed;
          completed, dropped := Abandon(k, id, inserted);
          if completed.IsCrash() {
            r := completed;
          }
        }
        return;
      }
      r := Record(k, id);
      if r.Err? && !r.IsCrash() {
        var undone := Undo(k, created.value);
        if undone.IsCrash() {
          r := undone;
        }
      }
    }

    method Begin(p: Pending) returns (r: Outcome)
      requires Consistent(table, journal) && p.operationID == operationID && p.rowID == 0 && p.domain != ""
               && p.token != ""
      modifies journal`pending, journal.env`now
      ensures Consistent(table, journal) && journal.env.now >= old(journal.env.now)
      ensures old(Isolated(table, journal)) && old(FreshToken(table.rows, journal.pending, p.domain, p.token)) ==>
                && Isolated(table, journal)
                && forall k <- journal.pending :: k.domain == p.domain && k.token == p.token ==> k == p.AsKey()
      ensures var k := p.AsKey();
              && (journal.pending == old(journal.pending)
                  || (k !in old(journal.pending) && journal.pending == old(journal.pending)[k := p]))
              && (r.Ok? ==> k !in old(journal.pending) && journal.pending == old(journal.pending)[k := p]
                            && forall q <- journal.own :: journal.own[q] != k)
      ensures r.Err? ==> r.error in {Crashed, Conflict, Constraint} || External(r.error)
      ensures journal.env.calm ==> r != Err(Crashed)
    {
      hide Covered, Unshared;
      if p.AsKey() !in journal.pending {
        BeginKeeps(table.rows, journal.pending, journal.own, table.nextID, p);
      }
      r := journal.BeginChallenge(p);
    }

    method Insert(p: Pending, key: string) returns (r: Result<Challenge>, ghost inserted: bool)
      requires Consistent(table, journal) && p.AsKey() in journal.pending && journal.pending[p.AsKey()] == p
               && p.rowID == 0
      requires p.createdAt != 0
      requires forall q <- journal.own :: journal.own[q] != p.AsKey()
      modifies table`rows, table`nextID, journal`own, journal.env`now
      ensures Consistent(table, journal) && journal.env.now >= old(journal.env.now)
      ensures old(Isolated(table, journal)) &&
              (forall k <- journal.pending :: k.domain == p.domain && k.token == p.token ==> k == p.AsKey()) ==>
                Isolated(table, journal)
      ensures Foreign(table, journal) == old(Foreign(table, journal)) && old(table.nextID) !in old(journal.own)
              && old(table.nextID) !in old(table.rows) && old(table.nextID) > 0
      ensures var item := Challenge(old(table.nextID), 0, p.domain, p.token, key, p.createdAt);
              && (if inserted
                     then table.rows == old(table.rows)[item.id := item]
                          && journal.own == old(journal.own)[item.id := p.AsKey()]
                  else table.rows == old(table.rows) && journal.own == old(journal.own))
              && (r.Success? ==> inserted && r.value == item)
      ensures r.Failure? ==> r.error in {Crashed, InvalidArgument} || External(r.error)
      ensures journal.env.calm ==> r != Failure(Crashed)
    {
      hide Unshared;
      var item := Challenge(0, 0, p.domain, p.token, key, p.createdAt);
      InsertKeeps(table.rows, journal.pending, journal.own, table.nextID, p, item.(id := table.nextID));
      assert table.nextID !in table.rows && table.nextID !in journal.own;
      hide Covered;
      r, inserted := table.Create(item);
      if inserted {
        journal.own := journal.own[old(table.nextID) := p.AsKey()];
      }
    }

    /** The error path of a failed insert: the entry goes, whether the row is there or not. */
    method Abandon(k: Key, id: int, ghost inserted: bool) returns (r: Outcome, ghost dropped: bool)
      requires Consistent(table, journal)
      requires if inserted then id in journal.own && journal.own[id] == k && id in table.rows
               else forall q <- journal.own :: journal.own[q] != k
      modifies journal`pending, journal`own, journal`orphans, journal.env`now
      ensures Consistent(table, journal) && journal.env.now >= old(journal.env.now)
      ensures old(Isolated(table, journal)) ==> Isolated(table, journal)
      ensures Foreign(table, journal) == old(Foreign(table, journal))
      ensures journal.pending == if dropped then old(journal.pending) - {k} else old(journal.pending)
      ensures if inserted && dropped
              then journal.own == old(journal.own) - {id} && journal.orphans == old(journal.orphans) + {id}
              else journal.own == old(journal.own) && journal.orphans == old(journal.orphans)
      ensures r.Err? ==> r.error == Crashed || External(r.error)
      ensures journal.env.calm ==> r != Err(Crashed)
    {
      hide Covered, Unshared;
      if inserted {
        OrphanKeeps(table.rows, journal.pending, journal.own, table.nextID, k, id);
      } else {
        CompleteKeeps(table.rows, journal.pending, journal.own, table.nextID, k);
      }
      r := journal.CompleteChallenge(k);
      dropped := journal.pending != old(journal.pending) || (k !in old(journal.pending) && r.Ok?);
      if inserted && dropped {
        journal.own, journal.orphans := journal.own - {id}, journal.orphans + {id};
      }
    }

    method Record(k: Key, id: int) returns (r: Outcome)
      requires Consistent(table, journal) && id in journal.own && journal.own[id] == k && id > 0
      requires k in journal.pending && journal.pending[k].rowID == 0
      modifies journal`pending, journal.env`now
      ensures Consistent(table, journal) && journal.env.now >= old(journal.env.now)
      ensures old(Isolated(table, journal)) ==> Isolated(table, journal)
      ensures journal.pending in {old(journal.pending),
                                  old(journal.pending)[k := old(journal.pending)[k].(rowID := id)]}
      ensures r.Ok? ==> journal.pending == old(journal.pending)[k := old(journal.pending)[k].(rowID := id)]
      ensures r.Err? ==> r.error in {Crashed, InvalidArgument, Conflict} || External(r.error)
      ensures journal.env.calm ==> r != Err(Crashed)
    {
      hide Covered, Unshared;
      RecordKeeps(table.rows, journal.pending, journal.own, table.nextID, k, id);
      r := journal.SetChallengeRowID(k, id);
    }

    /** The error path of an unrecorded row ID: the row goes, and its entry only after it. */
    method Undo(k: Key, item: Challenge) returns (r: Outcome)
      requires Consistent(table, journal) && k in journal.pending
      requires item.id in journal.own && journal.own[item.id] == k && item.id in table.rows
               && table.rows[item.id] == item
      modifies table`rows, journal`pending, journal`own, journal.env`now
      ensures Consistent(table, journal) && journal.env.now >= old(journal.env.now)
      ensures old(Isolated(table, journal)) ==> Isolated(table, journal)
      ensures Foreign(table, journal) == old(Foreign(table, journal))
      ensures || (table.rows == old(table.rows) && journal.own == old(journal.own)
                  && journal.pending == old(journal.pending))
              || (table.rows == old(table.rows) - {item.id} && journal.own == old(journal.own) - {item.id}
                  && (journal.pending == old(journal.pending) || journal.pending == old(journal.pending) - {k}))
      ensures r.Err? ==> r.error in {Crashed, InvalidArgument} || External(r.error)
      ensures journal.env.calm ==> r != Err(Crashed)
    {
      hide Unshared;
      DeleteKeeps(table.rows, journal.pending, journal.own, table.nextID, item.id);
      assert forall q <- journal.own - {item.id} :: journal.own[q] != k;
      hide Covered;
      ghost var deleted;
      r, deleted := table.Delete(item);
      if deleted {
        journal.own := journal.own - {item.id};
      }
      if r.Ok? || r.error == NotFound {
        r := Finish(table, journal, k);
      }
    }

    /** Deletes the row and the entry of one challenge; an entry that matches no row or several rows stays. */
    method CleanUp(domain: string, token: string) returns (r: Outcome)
      requires Consistent(table, journal)
      modifies table`rows, journal`pending, journal`own, journal`orphans, journal.env`now
      ensures Consistent(table, journal) && journal.env.now >= old(journal.env.now)
      ensures old(Isolated(table, journal)) ==> && Isolated(table, journal)
                                                && Foreign(table, journal) == old(Foreign(table, journal))
                                                && journal.orphans == old(journal.orphans)
      ensures var k := Key(operationID, domain, token);
              && OneRowAtMost(old(table.rows), table.rows, old(journal.own), journal.own, k,
                              old(Isolated(table, journal)))
              && (journal.pending == old(journal.pending) || journal.pending == old(journal.pending) - {k})
              && (r.Ok? ==> k !in journal.pending && forall q <- journal.own :: journal.own[q] != k)
              && (k !in old(journal.pending) || (r.Err? && r.error in {NotFound, Ambiguous}) ==>
                    table.rows == old(table.rows) && journal.pending == old(journal.pending))
              && (r.Err? && r.error in {NotFound, Ambiguous} ==>
                    && k in journal.pending && journal.pending[k].rowID == 0
                    && forall c :: !Sole(table.rows, journal.pending[k], c))
      ensures r.Err? ==> r.error in {Crashed, NotFound, Ambiguous, InvalidArgument} || External(r.error)
      ensures journal.env.calm ==> r != Err(Crashed)
    {
      hide Unshared;
      var k := Key(operationID, domain, token);
      var entry := journal.PendingChallenge(k);
      if entry == Failure(NotFound) {
        return Ok;
      }
      if entry.Failure? {
        return Err(entry.error);
      }
      var item := ResolveOwned(table, entry.value);
      if item.Failure? {
        return Err(item.error);
      }
      r := Settle(table, journal, k, item.value);
      ForeignStays(old(table.rows), table.rows, old(journal.own), journal.own, journal.orphans, k,
                   old(Isolated(table, journal)));
    }
  }

  lemma ForeignStays(before: Table, after: Table, own: map<int, Key>, ownAfter: map<int, Key>, orphans: set<int>,
                     k: Key,
                     isolated: bool)
    requires OneRowAtMost(before, after, own, ownAfter, k, isolated)
    ensures isolated ==> Others(after, ownAfter) - orphans == Others(before, own) - orphans
  {
  }

  lemma NoEntriesNoRows(rows: Table, journal: Journal, own: map<int, Key>, nextID: int)
    requires Covered(rows, journal, own, nextID) && journal == map[]
    ensures own == map[]
  {
    assert forall r <- own :: own[r] in journal;
  }

  /** Settles one entry: its row goes first, then the entry; an entry without a row just goes. */
  method RecoverOne(table: ChallengeTable, journal: ChallengeJournal, k: Key) returns (r: Outcome)
    requires Consistent(table, journal) && k in journal.pending
    modifies table`rows, journal`pending, journal`own, journal`orphans, journal.env`now
    ensures Consistent(table, journal) && journal.env.now >= old(journal.env.now)
    ensures old(Isolated(table, journal)) ==> && Isolated(table, journal) && journal.orphans == old(journal.orphans)
                                              && Foreign(table, journal) == old(Foreign(table, journal))
    ensures OneRowAtMost(old(table.rows), table.rows, old(journal.own), journal.own, k, old(Isolated(table, journal)))
    ensures journal.pending == old(journal.pending) || journal.pending == old(journal.pending) - {k}
    ensures r.Ok? ==> journal.pending == old(journal.pending) - {k}
    ensures r == Err(Ambiguous) ==> && table.rows == old(table.rows) && journal.pending == old(journal.pending)
                                    && !old(Isolated(table, journal))
    ensures r.Err? ==> r.error in {Crashed, InvalidArgument, Ambiguous} || External(r.error)
    ensures journal.env.calm && table.checked && old(Isolated(table, journal)) ==> r.Ok?
  {
    hide Unshared, Matches, Selected;
    var p := journal.pending[k];
    assert k.domain != "" && k.token != "" && p.AsKey() == k;
    var item := ResolveOwned(table, p);
    if item == Failure(NotFound) {
      NothingSelected(table.rows, journal.pending, journal.own, table.nextID, k);
      hide Covered;
      r := Finish(table, journal, k);
      return;
    }
    if item.Failure? {
      if item.error == Ambiguous && Isolated(table, journal) {
        var c, d :| c in table.rows && d in table.rows && c != d && Matches(table.rows[c], p)
            && Matches(table.rows[d], p);
        UnsharedIsUnambiguous(table.rows, journal.pending, journal.own, table.nextID, k, c, d);
      }
      return Err(item.error);
    }
    SoleMatches(table.rows, p, item.value);
    hide Covered, Sole;
    r := Settle(table, journal, k, item.value);
    ForeignStays(old(table.rows), table.rows, old(journal.own), journal.own, journal.orphans, k,
                 old(Isolated(table, journal)));
  }

  lemma SoleMatches(rows: Table, p: Pending, item: Challenge)
    ensures Sole(rows, p, item.id) && item == rows[item.id] ==>
              item.taskID == 0 && item.domain == p.domain && item.token == p.token
  {
  }

  /** Brings the table back to the rows of everybody else. It may be cut anywhere and run again; while an entry
      is ambiguous it stops and keeps that entry. */
  method Recover(table: ChallengeTable, journal: ChallengeJournal) returns (r: Outcome)
    requires Consistent(table, journal)
    modifies table`rows, journal`pending, journal`own, journal`orphans, journal.env`now
    ensures Consistent(table, journal) && journal.env.now >= old(journal.env.now)
    ensures old(Isolated(table, journal)) ==> && Isolated(table, journal) && journal.orphans == old(journal.orphans)
                                              && Foreign(table, journal) == old(Foreign(table, journal))
    ensures forall k <- journal.pending :: k in old(journal.pending) && journal.pending[k] == old(journal.pending)[k]
    ensures r.Ok? ==> journal.pending == map[] && journal.own == map[]
    ensures old(journal.pending) == map[] ==> table.rows == old(table.rows)
    ensures r == Err(Ambiguous) ==> !old(Isolated(table, journal)) && journal.pending != map[]
    ensures r.Err? ==> r.error in {Crashed, InvalidArgument, Ambiguous} || External(r.error)
    ensures journal.env.calm && table.checked && old(Isolated(table, journal)) ==> r.Ok?
  {
    hide Covered, Unshared, OneRowAtMost;
    var items := journal.ListPendingChallenges();
    if items.Failure? {
      return Err(items.error);
    }
    var keys := items.value;
    assert keys != [] ==> keys[0] in journal.pending;
    ghost var settled: set<Key> := {};
    for i := 0 to |keys|
      invariant Consistent(table, journal) && journal.env.now >= old(journal.env.now)
      invariant old(Isolated(table, journal)) ==> && Isolated(table, journal) && journal.orphans == old(journal.orphans)
                                                  && Foreign(table, journal) == old(Foreign(table, journal))
      invariant journal.pending == old(journal.pending) - settled
      invariant forall j :: 0 <= j < |keys| ==> (keys[j] in settled <==> j < i)
      invariant keys == [] ==> table.rows == old(table.rows)
    {
      r := RecoverOne(table, journal, keys[i]);
      if r.Err? {
        return;
      }
      settled := settled + {keys[i]};
    }
    NoEntriesNoRows(table.rows, journal.pending, journal.own, table.nextID);
    r := Ok;
  }
}
