/** putSymbolFile and DeleteSymbolFile as runs of the protocol's steps. */
module SymbolService {
  import opened Blobs
  import opened Options
  import opened SymbolFiles

  // deleteBlobs over the keys a transaction left to delete.
  function Cleanup(w: World, p: nat, deleted: bool): World {
    if p in w.processes && w.processes[p].Deleting? && |w.processes[p].keys| == 1 then
      DeleteObjectStep(w, p, TheKey(w.processes[p].keys), deleted)
    else w
  }

  function TheKey(keys: set<Key>): (k: Key)
    requires |keys| == 1
    ensures keys == {k}
  {
    SingletonOf(keys);
    var k :| keys == {k};
    k
  }

  lemma SingletonOf(keys: set<Key>)
    requires |keys| == 1
    ensures exists k :: keys == {k}
  {
    var k :| k in keys;
    assert |keys - {k}| == 0;
    assert keys == {k};
  }

  function UploadRun(
      w: World, p: nat, file: File, data: Bytes, put: PutOutcome, committed: bool, deleted: bool): World
  {
    Cleanup(SwapStep(PutUploadStep(w, p, file, data, put), p, committed), p, deleted)
  }

  lemma {:induction false} UploadRunKeeps(
      w: World, p: nat, file: File, data: Bytes, put: PutOutcome, committed: bool, deleted: bool)
    requires Inv(w)
    ensures Inv(UploadRun(w, p, file, data, put, committed, deleted))
  {
    PutUploadKeeps(w, p, file, data, put);
    var w1 := PutUploadStep(w, p, file, data, put);
    SwapKeeps(w1, p, committed);
    var w2 := SwapStep(w1, p, committed);
    if p in w2.processes && w2.processes[p].Deleting? && |w2.processes[p].keys| == 1 {
      DeleteObjectKeeps(w2, p, TheKey(w2.processes[p].keys), deleted);
    }
  }

  class Service {
    var rows: map<File, Row>
    var objects: map<Key, Bytes>
    var nextKey: nat
    ghost var processes: map<nat, Process>
    ghost var content: map<Key, Bytes>
    ghost var leaked: set<Key>

    ghost function State(): World
      reads this
    {
      World(rows, objects, processes, nextKey, content, leaked)
    }

    ghost method Moved(w: World)
      modifies `processes, `content, `leaked
      ensures processes == w.processes && content == w.content && leaked == w.leaked
    {
      processes, content, leaked := w.processes, w.content, w.leaked;
    }

    // The put under a fresh key.
    method Put(p: nat, file: File, data: Bytes, outcome: PutOutcome) returns (key: Key)
      requires p !in processes
      modifies this
      ensures State() == PutUploadStep(old(State()), p, file, data, outcome)
      ensures key == old(nextKey)
    {
      ghost var w := PutUploadStep(State(), p, file, data, outcome);
      key := nextKey;
      if !outcome.PutRefused? {
        objects := objects[key := data];
        nextKey := nextKey + 1;
      }
      Moved(w);
    }

    // The transaction: the previous key under the row's lock, then the upsert.
    method SwapRow(p: nat, file: File, key: Key, data: Bytes) returns (prev: Option<Key>)
      requires Inv(State()) && p in processes && processes[p] == Uploading(file, key)
      requires key in content && content[key] == data && Free(State(), p, file)
      modifies this
      ensures State() == SwapStep(old(State()), p, true)
      ensures prev == if file in old(rows) then old(rows)[file].key else None
    {
      ghost var w := SwapStep(State(), p, true);
      prev := if file in rows then rows[file].key else None;
      rows := rows[file := Row(Some(key), data)];
      Moved(w);
    }

    method DeleteBlob(p: nat, key: Key, deleted: bool)
      requires p in processes && processes[p].Deleting? && key in processes[p].keys
      modifies this
      ensures State() == DeleteObjectStep(old(State()), p, key, deleted)
    {
      ghost var w := DeleteObjectStep(State(), p, key, deleted);
      if deleted {
        objects := objects - {key};
      }
      Moved(w);
    }

    // No lock on the row is held by another transaction when this one runs.
    method PutSymbolFile(
        p: nat, file: File, data: Bytes, put: PutOutcome, committed: bool, deleted: bool) returns (ok: bool)
      requires Inv(State()) && p !in processes && Free(State(), p, file)
      modifies this
      ensures State() == UploadRun(old(State()), p, file, data, put, committed, deleted)
      ensures ok == (put.PutDone? && committed)
      ensures Inv(State())
      ensures if ok then
          rows == old(rows)[file := Row(Some(old(nextKey)), data)] && old(nextKey) in objects
          && objects[old(nextKey)] == data
        else rows == old(rows)
    {
      ghost var start := State();
      UploadRunKeeps(start, p, file, data, put, committed, deleted);
      assert Inv(PutUploadStep(start, p, file, data, put)) by {
        PutUploadKeeps(start, p, file, data, put);
      }
      var key := Put(p, file, data, put);
      if !put.PutDone? {
        assert SwapStep(State(), p, committed) == State();
        return false;
      }
      if !committed {
        ghost var w := SwapStep(State(), p, false);
        Moved(w);
        DeleteBlob(p, key, deleted);
        return false;
      }
      assert Inv(SwapStep(State(), p, true)) by {
        SwapKeeps(State(), p, true);
      }
      var prev := SwapRow(p, file, key, data);
      assert RowOk(State(), rows[file]);
      if prev.Some? {
        DeleteBlob(p, prev.value, deleted);
      }
      assert RowOk(State(), rows[file]);
      return true;
    }

    // DeleteSymbolFile: the row, then its object.
    method DeleteSymbolFile(p: nat, file: File, deleted: bool) returns (found: bool)
      requires Inv(State()) && p !in processes
      modifies this
      ensures found == (file in old(rows)) && rows == old(rows) - {file}
      ensures State() == Cleanup(DeleteFilesStep(old(State()), p, {file}), p, deleted)
      ensures Inv(State())
    {
      DeleteFilesKeeps(State(), p, {file});
      ghost var w := DeleteFilesStep(State(), p, {file});
      found := file in rows;
      var key := if found then rows[file].key else None;
      assert w.processes[p].keys == if key.Some? then {key.value} else {};
      rows := rows - {file};
      Moved(w);
      if key.Some? {
        DeleteObjectKeeps(State(), p, key.value, deleted);
        DeleteBlob(p, key.value, deleted);
      }
    }
  }
}
