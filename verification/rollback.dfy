/** The rollback snapshot directory: one complete JSON file per operation, written through a temporary
    file and an atomic rename. */
module Rollback {
  import opened Outcomes
  import opened Environments
  import opened Operations
  import opened GoEdge
  import opened Lexicographic

  const SNAPSHOT_VERSION := 1

  datatype Snapshot = Snapshot(version: int, operationID: string, ipv4: string, certID: int,
                               newFingerprint: string, oldFingerprint: string, previous: CertificateInput)

  /** What a file holds: a prefix of a document, or a whole document. */
  datatype Content = Partial | Json(snapshot: Snapshot)

  datatype Entry = Directory | File(content: Content)

  function NewSnapshot(operationID: string, ip: string, newFingerprint: string, oldFingerprint: string,
                       previous: CertificateInput): Snapshot
  {
    Snapshot(SNAPSHOT_VERSION, operationID, ip, previous.id, newFingerprint, oldFingerprint, previous)
  }

  predicate Complete(s: Snapshot)
  {
    && s.version == SNAPSHOT_VERSION && IsOperationID(s.operationID)
    && s.ipv4 != "" && s.certID > 0 && s.newFingerprint != "" && s.oldFingerprint != ""
    && s.previous.id == s.certID && !s.previous.certData.Empty? && s.previous.keyData != ""
  }

  lemma CompleteSays(s: Snapshot)
    requires Complete(s)
    ensures s.version == 1 && |s.operationID| == 32 && s.ipv4 != "" && s.certID > 0 && s.newFingerprint != ""
    ensures s.oldFingerprint != "" && s.previous.id == s.certID && s.previous.certData != CertBytes.Empty
    ensures s.previous.keyData != ""
  {
  }

  const TEMP_PREFIX := ".rollback-"

  predicate IsTemp(name: string) { TEMP_PREFIX <= name }

  function FileOf(id: string): string { id + ".json" }

  /** The part of a file name before `.json`, when it is an operation identifier. */
  predicate NamesSnapshot(name: string)
  {
    |name| == 37 && name[32..] == ".json" && IsOperationID(name[..32])
  }

  lemma FileNames(id: string)
    requires IsOperationID(id)
    ensures NamesSnapshot(FileOf(id)) && FileOf(id)[..32] == id && !IsTemp(FileOf(id))
  {
    var name := FileOf(id);
    assert name[..32] == id && name[32..] == ".json";
    assert name[0] == id[0] && id[0] in id && TEMP_PREFIX[0] == '.';
  }

  /** Every entry is a leftover temporary file or the file of a published snapshot. */
  ghost predicate DirectoryOf(entries: map<string, Entry>, snapshots: map<string, Snapshot>)
  {
    && (forall id <- snapshots :: Complete(snapshots[id]) && snapshots[id].operationID == id)
    && (forall id <- snapshots :: FileOf(id) in entries && entries[FileOf(id)] == File(Json(snapshots[id])))
    && (forall name <- entries ::
          if IsTemp(name) then entries[name].File? else NamesSnapshot(name) && name[..32] in snapshots)
  }

  lemma TempIsInvisible(entries: map<string, Entry>, snapshots: map<string, Snapshot>, temp: string, content: Content)
    requires DirectoryOf(entries, snapshots) && IsTemp(temp)
    ensures DirectoryOf(entries[temp := File(content)], snapshots)
    ensures DirectoryOf(entries - {temp}, snapshots)
  {
    forall id | id in snapshots
      ensures FileOf(id) != temp
    {
      FileNames(id);
    }
  }

  lemma RenamePublishes(entries: map<string, Entry>, snapshots: map<string, Snapshot>, temp: string, s: Snapshot)
    requires DirectoryOf(entries, snapshots) && IsTemp(temp) && Complete(s)
    ensures DirectoryOf((entries - {temp})[FileOf(s.operationID) := File(Json(s))], snapshots[s.operationID := s])
  {
    TempIsInvisible(entries, snapshots, temp, Partial);
    FileNames(s.operationID);
    forall id | id in snapshots && id != s.operationID
      ensures FileOf(id) != FileOf(s.operationID)
    {
      FileNames(id);
    }
  }

  lemma RemoveUnpublishes(entries: map<string, Entry>, snapshots: map<string, Snapshot>, id: string)
    requires DirectoryOf(entries, snapshots) && IsOperationID(id)
    ensures DirectoryOf(entries - {FileOf(id)}, snapshots - {id})
    ensures id !in snapshots ==> FileOf(id) !in entries
  {
    FileNames(id);
    forall other | other in snapshots && other != id
      ensures FileOf(other) != FileOf(id)
    {
      FileNames(other);
    }
    forall name | name in entries && name != FileOf(id) && !IsTemp(name)
      ensures NamesSnapshot(name) && name[..32] in snapshots - {id}
    {
      assert name == name[..32] + name[32..];
    }
  }

  /** A listing: the published snapshots, strictly by identifier. */
  ghost predicate Lists(snapshots: map<string, Snapshot>, list: seq<Snapshot>)
  {
    && (forall i :: 0 <= i < |list| ==> list[i].operationID in snapshots && snapshots[list[i].operationID] == list[i])
    && (forall i, j :: 0 <= i < j < |list| ==> Less(list[i].operationID, list[j].operationID))
    && (forall id <- snapshots :: exists i :: 0 <= i < |list| && list[i].operationID == id)
  }

  class SnapshotStore {
    const env: Environment
    var entries: map<string, Entry>
    ghost var snapshots: map<string, Snapshot>

    ghost predicate Valid()
      reads this
    {
      DirectoryOf(entries, snapshots)
    }

    ghost predicate Clean()
      reads this
    {
      forall name <- entries :: !IsTemp(name)
    }

    constructor (env: Environment)
      ensures this.env == env && Valid() && Clean() && snapshots == map[]
    {
      this.env := env;
      entries, snapshots := map[], map[];
    }

    /** `NewStore` on an existing directory: removes the temporary files an interrupted run left. */
    method Open() returns (r: Outcome)
      requires Valid()
      modifies this`entries, env`now
      ensures Valid() && env.now > old(env.now)
      ensures r.Ok? ==> Clean()
      ensures r.Err? ==> r.error == Crashed || External(r.error)
      ensures env.calm ==> r.Ok?
    {
      var fate := env.Draw();
      r := env.Report(fate);
      if r.Err? {
        return;
      }
      var rest := set name | name in entries && IsTemp(name) && entries[name].File?;
      while rest != {}
        invariant Valid() && env.now > old(env.now) && r.Ok?
        invariant rest <= entries.Keys
        invariant forall name <- rest :: IsTemp(name)
        invariant forall name <- entries :: IsTemp(name) ==> name in rest
        decreases rest
      {
        var name :| name in rest;
        fate := env.Draw();
        if fate.TakesEffect() {
          TempIsInvisible(entries, snapshots, name, Partial);
          entries := entries - {name};
        }
        r := env.Report(fate);
        if r.Err? {
          return;
        }
        rest := rest - {name};
      }
    }

    /** One file-system call that only changes a temporary file. */
    method Touch(temp: string, content: Option<Content>) returns (r: Outcome)
      requires Valid() && IsTemp(temp)
      modifies this`entries, env`now
      ensures Valid() && env.now > old(env.now)
      ensures r.Ok? && content.Some? ==> temp in entries && entries[temp] == File(content.value)
      ensures r.Err? ==> r.error == Crashed || External(r.error)
      ensures env.calm ==> r.Ok?
    {
      var fate := env.Draw();
      if fate.TakesEffect() {
        if content.Some? {
          TempIsInvisible(entries, snapshots, temp, content.value);
          entries := entries[temp := File(content.value)];
        } else {
          TempIsInvisible(entries, snapshots, temp, Partial);
          entries := entries - {temp};
        }
      }
      r := env.Report(fate);
    }

    /** The rename replaces the file of the snapshot in one step. */
    method Rename(temp: string, s: Snapshot) returns (r: Outcome)
      requires Valid() && IsTemp(temp) && Complete(s) && temp in entries && entries[temp] == File(Json(s))
      modifies this`entries, this`snapshots, env`now
      ensures Valid() && env.now > old(env.now)
      ensures snapshots == old(snapshots) || snapshots == old(snapshots)[s.operationID := s]
      ensures r.Ok? ==> snapshots == old(snapshots)[s.operationID := s]
      ensures r.Err? ==> r.error == Crashed || External(r.error)
      ensures env.calm ==> r.Ok?
    {
      hide DirectoryOf, IsTemp, Complete, FileOf;
      var fate := env.Draw();
      if fate.TakesEffect() {
        RenamePublishes(entries, snapshots, temp, s);
        entries := (entries - {temp})[FileOf(s.operationID) := entries[temp]];
        snapshots := snapshots[s.operationID := s];
      }
      r := env.Report(fate);
    }

    /** Creates, fills and renames a temporary file; the rename is the only step that publishes. */
    method Save(s: Snapshot) returns (r: Outcome)
      requires Valid()
      modifies this`entries, this`snapshots, env`now
      ensures Valid() && env.now >= old(env.now)
      ensures snapshots == old(snapshots) || (Complete(s) && snapshots == old(snapshots)[s.operationID := s])
      ensures r.Ok? ==> Complete(s) && snapshots == old(snapshots)[s.operationID := s]
      ensures r.Ok? || snapshots != old(snapshots) ==>
                && s.version == 1 && |s.operationID| == 32 && s.ipv4 != "" && s.certID > 0 && s.newFingerprint != ""
                && s.oldFingerprint != "" && s.previous.id == s.certID && s.previous.certData != CertBytes.Empty
                && s.previous.keyData != ""
      ensures r.Err? ==> r.error in {Crashed, InvalidArgument} || External(r.error)
      ensures r == Err(InvalidArgument) ==> !Complete(s)
      ensures env.calm && Complete(s) ==> r.Ok?
    {
      hide DirectoryOf, Complete;
      if !Complete(s) {
        return Err(InvalidArgument);
      }
      CompleteSays(s);
      var suffix: string := *;
      var temp := TEMP_PREFIX + suffix;
      assert IsTemp(temp);
      hide IsTemp;
      r := Touch(temp, Some(Partial));
      if r.Ok? {
        r := Touch(temp, Some(Json(s)));
      }
      if r.Ok? {
        r := Rename(temp, s);
      }
      if r.Ok? {
        var fate := env.Draw();
        r := env.Report(fate);
      }
      if !r.IsCrash() {
        var removed := Touch(temp, None);
        if removed.IsCrash() {
          r := removed;
        }
      }
    }

    method Load(id: string) returns (r: Result<Snapshot>)
      requires Valid()
      modifies env`now
      ensures env.now >= old(env.now)
      ensures r.Success? ==> id in snapshots && r.value == snapshots[id]
      ensures r.Failure? ==> r.error in {Crashed, NotFound, Rejected, InvalidArgument} || External(r.error)
      ensures env.calm && id in snapshots ==> r.Success?
    {
      if !IsOperationID(id) {
        return Failure(InvalidArgument);
      }
      var fate := env.Draw();
      var o := env.Report(fate);
      if o.Err? {
        return Failure(o.error);
      }
      FileNames(id);
      if FileOf(id) !in entries {
        return Failure(NotFound);
      }
      var entry := entries[FileOf(id)];
      if entry.Directory? || entry.content.Partial? || !Complete(entry.content.snapshot)
         || entry.content.snapshot.operationID != id {
        return Failure(Rejected);
      }
      return Success(entry.content.snapshot);
    }

    /** Any unknown entry fails the listing; otherwise every file is loaded in the order of its identifier. */
    method List() returns (r: Result<seq<Snapshot>>)
      requires Valid()
      modifies env`now
      ensures env.now > old(env.now)
      ensures r.Success? ==> Lists(snapshots, r.value)
      ensures r.Failure? ==> r.error in {Crashed, NotFound, Rejected, InvalidArgument} || External(r.error)
      ensures env.calm && Clean() ==> r.Success?
    {
      var fate := env.Draw();
      var o := env.Report(fate);
      if o.Err? {
        return Failure(o.error);
      }
      var ids: seq<string> := [];
      var rest := entries.Keys;
      while rest != {}
        modifies {}
        invariant rest <= entries.Keys
        invariant forall i :: 0 <= i < |ids| ==> IsOperationID(ids[i]) && FileOf(ids[i]) in entries.Keys - rest
        invariant forall i, j :: 0 <= i < j < |ids| ==> ids[i] != ids[j]
        invariant forall name <- entries.Keys - rest :: NamesSnapshot(name) && name[..32] in ids
        decreases rest
      {
        var name :| name in rest;
        if !NamesSnapshot(name) {
          return Failure(Rejected);
        }
        var id := name[..32];
        assert name == FileOf(id);
        rest := rest - {name};
        ids := ids + [id];
        assert ids[|ids| - 1] == id;
      }
      IdentifiersOfFiles(entries, snapshots, ids);
      var sorted := SortBy(ids, (s: string) => s);
      SortedIdentifiers(ids, sorted);
      r := LoadAll(sorted);
    }

    lemma LoadedList(ids: seq<string>, list: seq<Snapshot>)
      requires Valid() && StrictlyAscending(ids) && (forall id :: id in ids <==> id in snapshots) && |list| == |ids|
      requires forall i :: 0 <= i < |list| ==> list[i] == snapshots[ids[i]]
      ensures Lists(snapshots, list)
    {
      hide Less;
      assert forall i :: 0 <= i < |list| ==> list[i].operationID == ids[i];
    }

    method LoadAll(ids: seq<string>) returns (r: Result<seq<Snapshot>>)
      requires Valid()
      requires StrictlyAscending(ids) && forall id :: id in ids <==> id in snapshots
      modifies env`now
      ensures env.now >= old(env.now)
      ensures r.Success? ==> Lists(snapshots, r.value)
      ensures r.Failure? ==> r.error in {Crashed, NotFound, Rejected, InvalidArgument} || External(r.error)
      ensures env.calm ==> r.Success?
    {
      hide DirectoryOf, StrictlyAscending, Lists;
      var list: seq<Snapshot> := [];
      for n := 0 to |ids|
        invariant env.now >= old(env.now)
        invariant |list| == n
        invariant forall i :: 0 <= i < n ==> list[i] == snapshots[ids[i]]
      {
        var loaded := Load(ids[n]);
        if loaded.Failure? {
          return Failure(loaded.error);
        }
        list := list + [loaded.value];
      }
      LoadedList(ids, list);
      return Success(list);
    }

    method Delete(id: string) returns (r: Outcome)
      requires Valid()
      modifies this`entries, this`snapshots, env`now
      ensures Valid() && env.now >= old(env.now)
      ensures snapshots == old(snapshots) || snapshots == old(snapshots) - {id}
      ensures r.Ok? ==> snapshots == old(snapshots) - {id}
      ensures r.Err? ==> r.error in {Crashed, InvalidArgument} || External(r.error)
      ensures r == Err(InvalidArgument) ==> !IsOperationID(id)
      ensures old(Clean()) ==> Clean()
      ensures env.calm && IsOperationID(id) ==> r.Ok?
    {
      if !IsOperationID(id) {
        return Err(InvalidArgument);
      }
      var fate := env.Draw();
      RemoveUnpublishes(entries, snapshots, id);
      if FileOf(id) !in entries && !fate.IsCrash() {
        FileNames(id);
        assert id !in snapshots;
        assert snapshots == snapshots - {id};
        return Ok;
      }
      if fate.TakesEffect() {
        entries := entries - {FileOf(id)};
        snapshots := snapshots - {id};
      }
      r := env.Report(fate);
    }
  }

  lemma IdentifiersOfFiles(entries: map<string, Entry>, snapshots: map<string, Snapshot>, ids: seq<string>)
    requires DirectoryOf(entries, snapshots)
    requires forall i :: 0 <= i < |ids| ==> IsOperationID(ids[i]) && FileOf(ids[i]) in entries
    requires forall name <- entries :: NamesSnapshot(name) && name[..32] in ids
    ensures forall id :: id in ids <==> id in snapshots
  {
    forall id
      ensures id in ids <==> id in snapshots
    {
      if id in snapshots || id in ids {
        FileNames(id);
        assert FileOf(id) in entries;
      }
    }
  }

  lemma SortedIdentifiers(ids: seq<string>, sorted: seq<string>)
    requires multiset(sorted) == multiset(ids) && Ascending(sorted, (s: string) => s)
    requires forall i, j :: 0 <= i < j < |ids| ==> ids[i] != ids[j]
    ensures StrictlyAscending(sorted)
    ensures forall id :: id in sorted <==> id in ids
  {
    forall id
      ensures id in sorted <==> id in ids
    {
      assert id in multiset(sorted) <==> id in multiset(ids);
    }
    forall i, j | 0 <= i < j < |sorted|
      ensures Less(sorted[i], sorted[j])
    {
      PermutationKeepsDistinct(ids, sorted, i, j);
      LessIsTotal(sorted[i], sorted[j]);
    }
  }

  // ---------------------------------------------------------------- atomicity over whole histories

  datatype Write = Put(snapshot: Snapshot) | Remove(id: string) {
    function Target(): string { if Put? then snapshot.operationID else id }
  }

  function Effect(snapshots: map<string, Snapshot>, write: Write): map<string, Snapshot>
  {
    match write
    case Put(s) => snapshots[s.operationID := s]
    case Remove(id) => snapshots - {id}
  }

  /** The directory after some writes, of which exactly the marked ones took place. */
  function Replay(snapshots: map<string, Snapshot>, writes: seq<Write>, took: seq<bool>): map<string, Snapshot>
    requires |took| == |writes|
  {
    if writes == [] then snapshots
    else
      var n := |writes| - 1;
      var before := Replay(snapshots, writes[..n], took[..n]);
      if took[n] then Effect(before, writes[n]) else before
  }

  /** The newest write to an identifier that took place decides: its rename leaves exactly what was saved, its
      removal leaves nothing, and without one the identifier keeps what it had. */
  lemma {:induction false} NewestWriteDecides(snapshots: map<string, Snapshot>, writes: seq<Write>, took: seq<bool>,
                                              id: string, k: int)
    requires |took| == |writes| && -1 <= k < |writes|
    requires forall i :: k < i < |writes| && took[i] ==> writes[i].Target() != id
    requires k >= 0 ==> took[k] && writes[k].Target() == id
    ensures var after := Replay(snapshots, writes, took);
            if k < 0 then (id in after <==> id in snapshots) && (id in after ==> after[id] == snapshots[id])
            else if writes[k].Put? then id in after && after[id] == writes[k].snapshot
            else id !in after
  {
    var n := |writes| - 1;
    if k < n {
      NewestWriteDecides(snapshots, writes[..n], took[..n], id, k);
    }
  }

  /** What the caller was told fits what took place: a reported success did, and only a crash ends the
      sequence early. */
  ghost predicate Reported(writes: seq<Write>, reports: seq<Outcome>, took: seq<bool>)
  {
    && |took| == |writes| && |reports| <= |writes|
    && (forall i :: 0 <= i < |reports| && reports[i].Ok? ==> took[i])
    && (forall i :: |reports| <= i < |writes| ==> !took[i])
    && (|reports| < |writes| ==> |reports| > 0 && reports[|reports| - 1].IsCrash())
  }

  /** Runs the writes in order, whatever each reports, until the process stops. */
  method WriteAll(store: SnapshotStore, writes: seq<Write>) returns (reports: seq<Outcome>, ghost took: seq<bool>)
    requires store.Valid()
    modifies store, store.env`now
    ensures store.Valid()
    ensures Reported(writes, reports, took) && store.snapshots == Replay(old(store.snapshots), writes, took)
  {
    hide DirectoryOf;
    reports, took := [], [];
    for n := 0 to |writes|
      invariant store.Valid() && |took| == |reports| == n
                && store.snapshots == Replay(old(store.snapshots), writes[..n], took)
      invariant forall i :: 0 <= i < n && reports[i].Ok? ==> took[i]
    {
      ghost var before := store.snapshots;
      var r;
      match writes[n] {
        case Put(s) => r := store.Save(s);
        case Remove(id) => r := store.Delete(id);
      }
      ghost var taken := store.snapshots == Effect(before, writes[n]);
      ReplayOneMore(old(store.snapshots), writes, took, n, taken);
      reports, took := reports + [r], took + [taken];
      if r.IsCrash() {
        ReplayNothing(old(store.snapshots), writes, took, n + 1);
        took := took + seq(|writes| - n - 1, i => false);
        return;
      }
    }
    assert writes[..|writes|] == writes;
  }

  lemma ReplayOneMore(snapshots: map<string, Snapshot>, writes: seq<Write>, took: seq<bool>, n: nat, taken: bool)
    requires n < |writes| && |took| == n
    ensures Replay(snapshots, writes[..n + 1], took + [taken])
            == if taken then Effect(Replay(snapshots, writes[..n], took), writes[n])
               else Replay(snapshots, writes[..n], took)
  {
    assert writes[..n + 1][..n] == writes[..n];
    assert (took + [taken])[..n] == took;
  }

  lemma {:induction false} ReplayNothing(snapshots: map<string, Snapshot>, writes: seq<Write>, took: seq<bool>, n: nat)
    requires n <= |writes| && |took| == n
    ensures Replay(snapshots, writes, took + seq(|writes| - n, i => false)) == Replay(snapshots, writes[..n], took)
    decreases |writes| - n
  {
    if n < |writes| {
      ReplayOneMore(snapshots, writes, took, n, false);
      ReplayNothing(snapshots, writes, took + [false], n + 1);
      assert took + [false] + seq(|writes| - n - 1, i => false) == took + seq(|writes| - n, i => false);
    } else {
      assert took + seq(|writes| - n, i => false) == took;
      assert writes[..n] == writes;
    }
  }

  /** The atomicity of the directory: any writes, interrupted anywhere, then an undisturbed start. The listing
      succeeds and holds, by identifier, exactly the snapshots whose rename happened and whose removal did not. */
  method WriteThenList(store: SnapshotStore, writes: seq<Write>)
    returns (reports: seq<Outcome>, list: seq<Snapshot>, ghost took: seq<bool>)
    requires store.Valid()
    modifies store, store.env
    ensures store.Valid()
    ensures Reported(writes, reports, took) && Lists(Replay(old(store.snapshots), writes, took), list)
  {
    hide DirectoryOf, Lists, Reported;
    reports, took := WriteAll(store, writes);
    store.env.calm := true;
    var cleaned := store.Open();
    var listed := store.List();
    list := listed.value;
  }
}
