/**
 * Which objects a symbol-file run leaves behind: every present object is a
 * row's, in a process's hands, or among the leaks with a known cause.
 */
module SymbolLeaks {
  import opened Blobs
  import opened Options
  import opened SymbolFiles

  predicate InHand(w: World, k: Key) {
    exists p :: p in w.processes && (k in Holds(w.processes[p]) || k in Dooms(w.processes[p]))
  }

  predicate Placed(w: World, k: Key) {
    k in w.leaked || !AllAvoid(w.rows, {k}) || InHand(w, k)
  }

  predicate AllPlaced(w: World) {
    forall k :: k in w.objects ==> Placed(w, k)
  }

  // A chunk has seen every key its writes replace.
  predicate RowsSeen(w: World, c: Process)
    requires c.Chunk?
  {
    forall f :: f in Final(c) && f in w.rows && w.rows[f].key.Some? ==> w.rows[f].key.value in c.replaced
  }

  // Each object it put is for a row, or to be deleted, or lost.
  predicate Used(w: World, c: Process, k: Key)
    requires c.Chunk?
  {
    || k in w.leaked || k in c.replaced || !AllAvoid(Final(c), {k})
    || (c.staged.Some? && c.staged.value.1 == k)
  }

  predicate PendingUsed(w: World, c: Process)
    requires c.Chunk?
  {
    forall k :: k in c.pending ==> Used(w, c, k)
  }

  predicate ChunksAccount(w: World) {
    forall p :: p in w.processes && w.processes[p].Chunk? ==>
      RowsSeen(w, w.processes[p]) && PendingUsed(w, w.processes[p])
  }

  predicate Accounted(w: World) {
    Inv(w) && AllPlaced(w) && ChunksAccount(w)
  }

  /* ---- what a step must account for ---- */

  predicate NewObjectsPlaced(w: World, w': World, p: nat) {
    forall k :: k in w'.objects ==> k in w.objects || k in Holds(Mine(w', p)) || k in w'.leaked
  }

  predicate HandAccounted(w: World, w': World, p: nat) {
    && (forall k :: k in Holds(Mine(w, p)) && k in w'.objects ==> Handed(w', p, k))
    && (forall k :: k in Dooms(Mine(w, p)) && k in w'.objects ==> Handed(w', p, k))
  }

  predicate Handed(w': World, p: nat, k: Key) {
    k in w'.leaked || k in Holds(Mine(w', p)) || k in Dooms(Mine(w', p)) || !AllAvoid(w'.rows, {k})
  }

  predicate RowAccounted(w: World, w': World, p: nat, f: File)
    requires f in w.rows
  {
    || (f in w'.rows && w'.rows[f] == w.rows[f])
    || w.rows[f].key.None? || w.rows[f].key.value in Dooms(Mine(w', p)) || w.rows[f].key.value in w'.leaked
  }

  predicate RowsAccounted(w: World, w': World, p: nat) {
    forall f :: f in w.rows ==> RowAccounted(w, w', p, f)
  }

  lemma InOwnHand(w: World, p: nat, k: Key)
    requires k in Holds(Mine(w, p)) || k in Dooms(Mine(w, p))
    ensures Placed(w, k)
  {
    assert p in w.processes;
  }

  lemma PlacedCarries(w: World, w': World, p: nat, k: Key)
    requires Accounted(w) && OthersStay(w, w', p) && w.leaked <= w'.leaked
    requires NewObjectsPlaced(w, w', p) && HandAccounted(w, w', p) && RowsAccounted(w, w', p)
    requires k in w'.objects
    ensures Placed(w', k)
  {
    if k in Holds(Mine(w', p)) || k in Dooms(Mine(w', p)) {
      InOwnHand(w', p, k);
    } else if k in w.objects && k !in w'.leaked {
      assert Placed(w, k);
      if !AllAvoid(w.rows, {k}) {
        var f :| f in w.rows && !Avoids(w.rows[f], {k});
        assert RowAccounted(w, w', p, f);
        assert !Avoids(w'.rows[f], {k});
      } else {
        var q :| q in w.processes && (k in Holds(w.processes[q]) || k in Dooms(w.processes[q]));
        if q == p {
          assert Handed(w', p, k);
        } else {
          assert q in w'.processes && w'.processes[q] == w.processes[q];
        }
      }
    }
  }

  lemma SeenCarries(w: World, w': World, p: nat, q: nat)
    requires Accounted(w) && Behaves(w, w', p)
    requires q in w.processes && q != p && w.processes[q].Chunk?
    ensures RowsSeen(w', w.processes[q])
  {
    var c := w.processes[q];
    forall f | f in Final(c) && f in w'.rows && w'.rows[f].key.Some?
      ensures w'.rows[f].key.value in c.replaced
    {
      assert RowMove(w, w', p, f) && f in LockedBy(c);
    }
  }

  lemma ChunkCarries(w: World, w': World, p: nat, q: nat)
    requires Accounted(w) && Behaves(w, w', p) && w.leaked <= w'.leaked
    requires q in w.processes && q != p && w.processes[q].Chunk?
    ensures RowsSeen(w', w.processes[q]) && PendingUsed(w', w.processes[q])
  {
    var c := w.processes[q];
    SeenCarries(w, w', p, q);
    forall k | k in c.pending
      ensures Used(w', c, k)
    {
      assert Used(w, c, k);
    }
  }

  lemma {:induction false} CarryAccount(w: World, w': World, p: nat)
    requires Accounted(w) && Inv(w') && Behaves(w, w', p) && w.leaked <= w'.leaked
    requires NewObjectsPlaced(w, w', p) && HandAccounted(w, w', p) && RowsAccounted(w, w', p)
    requires p in w'.processes && w'.processes[p].Chunk? ==>
      RowsSeen(w', w'.processes[p]) && PendingUsed(w', w'.processes[p])
    ensures Accounted(w')
  {
    forall k | k in w'.objects
      ensures Placed(w', k)
    {
      PlacedCarries(w, w', p, k);
    }
    forall q | q in w'.processes && w'.processes[q].Chunk?
      ensures RowsSeen(w', w'.processes[q]) && PendingUsed(w', w'.processes[q])
    {
      if q != p {
        ChunkCarries(w, w', p, q);
      }
    }
  }

  // The same for a step that leaves the rows alone.
  lemma {:induction false} CarrySameRows(w: World, w': World, p: nat)
    requires Accounted(w) && Inv(w') && SameRowsMove(w, w', p)
    requires p in w'.processes && w'.processes[p].Chunk? ==>
      RowsSeen(w', w'.processes[p]) && PendingUsed(w', w'.processes[p])
    ensures Accounted(w')
  {
    forall f | f in w'.rows
      ensures RowMove(w, w', p, f) && RowAccounted(w, w', p, f)
    {
    }
    CarryAccount(w, w', p);
  }

  // What CarrySameRows asks of a step, but for the chunk's own books.
  predicate SameRowsMove(w: World, w': World, p: nat) {
    && w'.rows == w.rows && ObjectsMove(w, w', p) && OthersStay(w, w', p) && w.leaked <= w'.leaked
    && NewObjectsPlaced(w, w', p) && HandAccounted(w, w', p)
  }

  lemma PutUploadMoves(w: World, p: nat, file: File, data: Bytes, outcome: PutOutcome)
    requires KeysOk(w)
    ensures SameRowsMove(w, PutUploadStep(w, p, file, data, outcome), p)
  {
    PutMoves(w, data, p);
  }

  lemma PutLineMoves(w: World, p: nat, file: File, data: Bytes, outcome: PutOutcome)
    requires KeysOk(w)
    ensures SameRowsMove(w, PutLineStep(w, p, file, data, outcome), p)
  {
    PutMoves(w, data, p);
  }

  lemma QueueLineMoves(w: World, p: nat)
    ensures SameRowsMove(w, QueueLineStep(w, p), p)
  {
  }

  lemma DeletingMoves(w: World, p: nat, keys: set<Key>)
    requires p in w.processes && keys >= Holds(w.processes[p]) + Dooms(w.processes[p])
    ensures SameRowsMove(w, With(w, p, Deleting(keys)), p)
  {
  }

  lemma OwnMoves(w: World, p: nat, c: Process)
    requires Holds(c) >= Holds(Mine(w, p)) && Dooms(c) >= Dooms(Mine(w, p))
    ensures SameRowsMove(w, With(w, p, c), p)
  {
  }

  lemma CrashMoves(w: World, p: nat)
    ensures SameRowsMove(w, CrashStep(w, p), p)
  {
  }

  lemma DeleteObjectMoves(w: World, p: nat, k: Key, deleted: bool)
    ensures SameRowsMove(w, DeleteObjectStep(w, p, k, deleted), p)
  {
  }

  lemma SwapHands(w: World, p: nat)
    requires CanSwap(w, p)
    ensures var w' := SwapStep(w, p, true);
      NewObjectsPlaced(w, w', p) && HandAccounted(w, w', p) && RowsAccounted(w, w', p)
  {
    assert !Avoids(SwapStep(w, p, true).rows[w.processes[p].file], {w.processes[p].key});
  }

  /* ---- every step accounts ---- */

  lemma PutUploadAccounts(w: World, p: nat, file: File, data: Bytes, outcome: PutOutcome)
    requires Accounted(w)
    ensures Accounted(PutUploadStep(w, p, file, data, outcome))
  {
    var w' := PutUploadStep(w, p, file, data, outcome);
    if w' != w {
      PutUploadKeeps(w, p, file, data, outcome);
      PutUploadMoves(w, p, file, data, outcome);
      CarrySameRows(w, w', p);
    }
  }

  lemma OpenChunkAccounts(w: World, p: nat, blobs: bool)
    requires Accounted(w)
    ensures Accounted(OpenChunkStep(w, p, blobs))
  {
    var w' := OpenChunkStep(w, p, blobs);
    if w' != w {
      OpenChunkKeeps(w, p, blobs);
      OwnMoves(w, p, w'.processes[p]);
      assert Final(w'.processes[p]) == map[];
      CarrySameRows(w, w', p);
    }
  }

  lemma PutLineAccounts(w: World, p: nat, file: File, data: Bytes, outcome: PutOutcome)
    requires Accounted(w)
    ensures Accounted(PutLineStep(w, p, file, data, outcome))
  {
    var w' := PutLineStep(w, p, file, data, outcome);
    if w' != w {
      PutLineKeeps(w, p, file, data, outcome);
      PutLineMoves(w, p, file, data, outcome);
      if outcome.PutDone? {
        StagedUsed(w, w', w.processes[p], w'.processes[p]);
      }
      CarrySameRows(w, w', p);
    }
  }

  lemma StagedUsed(w: World, w': World, c: Process, c': Process)
    requires c.Chunk? && RowsSeen(w, c) && PendingUsed(w, c) && w'.rows == w.rows && w'.leaked == w.leaked
    requires c.staged.None?
    requires exists file :: c' == c.(pending := c.pending + {w.nextKey}, staged := Some((file, w.nextKey)))
    ensures RowsSeen(w', c') && PendingUsed(w', c')
  {
    assert Final(c') == Final(c);
    forall k | k in c'.pending
      ensures Used(w', c', k)
    {
      assert k in c.pending ==> Used(w, c, k);
    }
  }

  lemma {:induction false} QueueLineAccounts(w: World, p: nat)
    requires Accounted(w)
    ensures Accounted(QueueLineStep(w, p))
  {
    var w' := QueueLineStep(w, p);
    if CanQueue(w, p) {
      var c := w.processes[p];
      QueueLineKeeps(w, p);
      QueueLineMoves(w, p);
      assert ProcessOk(w, c);
      QueuedUsed(w, w', c);
      CarrySameRows(w, w', p);
    }
  }

  lemma {:induction false} PlainLineAccounts(w: World, p: nat, file: File, data: Bytes)
    requires Accounted(w)
    ensures Accounted(PlainLineStep(w, p, file, data))
  {
    if CanQueuePlain(w, p, file) {
      var c, w' := w.processes[p], PlainLineStep(w, p, file, data);
      PlainLineKeeps(w, p, file, data);
      OwnMoves(w, p, w'.processes[p]);
      QueuedSeen(w, c, file, Row(None, data));
      assert ProcessOk(w, c);
      CarrySameRows(w, w', p);
    }
  }

  lemma {:induction false} QueuedUsed(w: World, w': World, c: Process)
    requires c.Chunk? && c.staged.Some? && c.staged.value.1 in w.content && ProcessOk(w, c)
    requires RowsSeen(w, c) && PendingUsed(w, c) && w'.rows == w.rows
    requires w'.leaked == w.leaked + KeyAt(c.queue, c.staged.value.0)
    ensures RowsSeen(w', Queued(w, c)) && PendingUsed(w', Queued(w, c))
  {
    var c' := Queued(w, c);
    var (file, key) := c.staged.value;
    assert Final(c') == Final(c)[file := c'.queue[file]];
    QueuedSeen(w, c, file, StagedRow(w, c));
    forall k | k in c'.pending
      ensures Used(w', c', k)
    {
      assert Used(w, c, k);
      if k == key {
        assert !Avoids(Final(c')[file], {k});
      } else if !AllAvoid(Final(c), {k}) {
        QueuedUse(w, w', c, k);
      }
    }
  }

  lemma QueuedUse(w: World, w': World, c: Process, k: Key)
    requires c.Chunk? && c.staged.Some? && c.staged.value.1 in w.content && !AllAvoid(Final(c), {k})
    requires w'.leaked == w.leaked + KeyAt(c.queue, c.staged.value.0)
    requires Final(Queued(w, c)) == Final(c)[c.staged.value.0 := Queued(w, c).queue[c.staged.value.0]]
    ensures Used(w', Queued(w, c), k)
  {
    var c' := Queued(w, c);
    var file := c.staged.value.0;
    var f :| f in Final(c) && !Avoids(Final(c)[f], {k});
    if f != file {
      assert !Avoids(Final(c')[f], {k});
    } else if f !in c.queue {
      assert k in Seen(w, c, file);
    }
  }

  lemma QueuedSeen(w: World, c: Process, file: File, row: Row)
    requires c.Chunk? && RowsSeen(w, c)
    ensures RowsSeen(w, QueueRow(w, c, file, row))
  {
    var c' := QueueRow(w, c, file, row);
    forall f | f in Final(c') && f in w.rows && w.rows[f].key.Some?
      ensures w.rows[f].key.value in c'.replaced
    {
      if f == file && f !in c.flushed {
        assert w.rows[f].key.value in Seen(w, c, file);
      } else {
        assert f in Final(c);
      }
    }
  }

  lemma FlushChunkAccounts(w: World, p: nat)
    requires Accounted(w)
    ensures Accounted(FlushChunkStep(w, p))
  {
    if p in w.processes && w.processes[p].Chunk? {
      var c, w' := w.processes[p], FlushChunkStep(w, p);
      FlushChunkKeeps(w, p);
      OwnMoves(w, p, w'.processes[p]);
      FlushedUsed(w, w', c);
      CarrySameRows(w, w', p);
    }
  }

  lemma FlushedUsed(w: World, w': World, c: Process)
    requires c.Chunk? && RowsSeen(w, c) && PendingUsed(w, c) && w'.rows == w.rows && w'.leaked == w.leaked
    ensures var c' := c.(flushed := Final(c), queue := map[]); RowsSeen(w', c') && PendingUsed(w', c')
  {
    var c' := c.(flushed := Final(c), queue := map[]);
    assert Final(c') == Final(c);
    forall k | k in c'.pending
      ensures Used(w', c', k)
    {
      assert Used(w, c, k);
    }
  }

  lemma AbortChunkAccounts(w: World, p: nat)
    requires Accounted(w)
    ensures Accounted(AbortChunkStep(w, p))
  {
    var w' := AbortChunkStep(w, p);
    if w' != w {
      AbortChunkKeeps(w, p);
      DeletingMoves(w, p, w.processes[p].pending);
      CarrySameRows(w, w', p);
    }
  }

  lemma DeleteObjectAccounts(w: World, p: nat, k: Key, deleted: bool)
    requires Accounted(w)
    ensures Accounted(DeleteObjectStep(w, p, k, deleted))
  {
    var w' := DeleteObjectStep(w, p, k, deleted);
    if w' != w {
      DeleteObjectKeeps(w, p, k, deleted);
      DeleteObjectMoves(w, p, k, deleted);
      CarrySameRows(w, w', p);
    }
  }

  lemma CrashAccounts(w: World, p: nat)
    requires Accounted(w)
    ensures Accounted(CrashStep(w, p))
  {
    if p in w.processes {
      CrashKeeps(w, p);
      CrashMoves(w, p);
      CarrySameRows(w, CrashStep(w, p), p);
    }
  }

  lemma OpenReadAccounts(w: World, p: nat, file: File)
    requires Accounted(w)
    ensures Accounted(OpenReadStep(w, p, file))
  {
    var w' := OpenReadStep(w, p, file);
    if w' != w {
      OpenReadKeeps(w, p, file);
      OwnMoves(w, p, w'.processes[p]);
      CarrySameRows(w, w', p);
    }
  }

  lemma FetchAccounts(w: World, p: nat)
    requires Accounted(w)
    ensures Accounted(FetchStep(w, p))
  {
    var w' := FetchStep(w, p);
    if w' != w {
      FetchKeeps(w, p);
      OwnMoves(w, p, w'.processes[p]);
      CarrySameRows(w, w', p);
    }
  }

  lemma SwapAccounts(w: World, p: nat, committed: bool)
    requires Accounted(w)
    ensures Accounted(SwapStep(w, p, committed))
  {
    var w' := SwapStep(w, p, committed);
    if w' != w {
      SwapKeeps(w, p, committed);
      if committed {
        SwappedRows(w, p);
        SwapHands(w, p);
        CarryAccount(w, w', p);
      } else {
        DeletingMoves(w, p, {w.processes[p].key});
        CarrySameRows(w, w', p);
      }
    }
  }

  lemma PlainUploadAccounts(w: World, p: nat, file: File, data: Bytes)
    requires Accounted(w)
    ensures Accounted(PlainUploadStep(w, p, file, data))
  {
    if p !in w.processes {
      PlainUploadKeeps(w, p, file, data);
      CarryAccount(w, PlainUploadStep(w, p, file, data), p);
    }
  }

  lemma CommitChunkAccounts(w: World, p: nat, committed: bool)
    requires Accounted(w)
    ensures Accounted(CommitChunkStep(w, p, committed))
  {
    var w' := CommitChunkStep(w, p, committed);
    if w' != w {
      CommitChunkKeeps(w, p, committed);
      if committed {
        CommittedBehaves(w, p);
        CommittedAccounts(w, p);
        CarryAccount(w, w', p);
      } else {
        DeletingMoves(w, p, w.processes[p].pending);
        CarrySameRows(w, w', p);
      }
    }
  }

  lemma CommittedAccounts(w: World, p: nat)
    requires Accounted(w) && CommitChunkStep(w, p, true) != w
    ensures var w' := CommitChunkStep(w, p, true); HandAccounted(w, w', p) && RowsAccounted(w, w', p)
  {
    var c, w' := w.processes[p], CommitChunkStep(w, p, true);
    assert Final(c) == c.flushed && RowsSeen(w, c) && PendingUsed(w, c);
    PendingHanded(w, w', c, p);
    ReplacedAccounted(w, w', c, p);
  }

  // What a committed chunk replaced is about to be deleted, or leaked.
  predicate Settled(w': World, c: Process, p: nat)
    requires c.Chunk?
  {
    forall k :: k in c.replaced ==> k in Dooms(Mine(w', p)) || k in w'.leaked
  }

  lemma ReplacedAccounted(w: World, w': World, c: Process, p: nat)
    requires c.Chunk? && Final(c) == c.flushed && RowsSeen(w, c)
    requires w'.rows == w.rows + c.flushed && Settled(w', c, p)
    ensures RowsAccounted(w, w', p)
  {
  }

  lemma PendingHanded(w: World, w': World, c: Process, p: nat)
    requires c.Chunk? && Final(c) == c.flushed && c.staged.None? && PendingUsed(w, c)
    requires w'.rows == w.rows + c.flushed && Settled(w', c, p) && w.leaked <= w'.leaked
    ensures forall k :: k in c.pending ==> Handed(w', p, k)
  {
    forall k | k in c.pending
      ensures Handed(w', p, k)
    {
      assert Used(w, c, k);
      if !AllAvoid(c.flushed, {k}) {
        var f :| f in c.flushed && !Avoids(c.flushed[f], {k});
        assert !Avoids(w'.rows[f], {k});
      }
    }
  }

  lemma DeleteFilesAccounts(w: World, p: nat, files: set<File>)
    requires Accounted(w)
    ensures Accounted(DeleteFilesStep(w, p, files))
  {
    if p !in w.processes {
      DeleteFilesKeeps(w, p, files);
      CarryAccount(w, DeleteFilesStep(w, p, files), p);
    }
  }

  lemma NextAccounts(w: World, step: Step)
    requires Accounted(w)
    ensures Accounted(Next(w, step))
  {
    match step
    case PutUpload(p, file, data, outcome) => PutUploadAccounts(w, p, file, data, outcome);
    case Swap(p, committed) => SwapAccounts(w, p, committed);
    case PlainUpload(p, file, data) => PlainUploadAccounts(w, p, file, data);
    case OpenChunk(p, blobs) => OpenChunkAccounts(w, p, blobs);
    case PutLine(p, file, data, outcome) => PutLineAccounts(w, p, file, data, outcome);
    case QueueLine(p) => QueueLineAccounts(w, p);
    case PlainLine(p, file, data) => PlainLineAccounts(w, p, file, data);
    case FlushChunk(p) => FlushChunkAccounts(w, p);
    case CommitChunk(p, committed) => CommitChunkAccounts(w, p, committed);
    case AbortChunk(p) => AbortChunkAccounts(w, p);
    case DeleteFiles(p, files) => DeleteFilesAccounts(w, p, files);
    case DeleteObject(p, k, deleted) => DeleteObjectAccounts(w, p, k, deleted);
    case Crash(p) => CrashAccounts(w, p);
    case OpenRead(p, file) => OpenReadAccounts(w, p, file);
    case Fetch(p) => FetchAccounts(w, p);
  }

  lemma {:induction false} RunAccounts(w: World, steps: seq<Step>)
    requires Accounted(w)
    ensures Accounted(Run(w, steps))
    decreases |steps|
  {
    if steps != [] {
      NextAccounts(w, steps[0]);
      RunAccounts(Next(w, steps[0]), steps[1..]);
    }
  }

  /* ---- the theorems ---- */

  // In every state of every run each present object is some row's, in the
  // hands of a process that will give it to a row or delete it, or leaked.
  lemma EveryObjectIsPlaced(steps: seq<Step>, k: Key)
    requires k in Run(Init(), steps).objects
    ensures Placed(Run(Init(), steps), k)
  {
    RunAccounts(Init(), steps);
  }

  // What leaks an object: an unacknowledged put, an upload or an import by a
  // process without a blob store over an object's row, a failed delete, a crash
  // -- and an import that queues one file twice before its batch is sent.
  predicate LeakCause(w: World, step: Step) {
    match step
    case PutUpload(_, _, _, outcome) => outcome.PutUnacknowledged?
    case PlainUpload(_, file, _) => KeyAt(w.rows, file) != {}
    case PutLine(_, _, _, outcome) => outcome.PutUnacknowledged?
    case QueueLine(p) => CanQueue(w, p) && w.processes[p].staged.value.0 in w.processes[p].queue
    case CommitChunk(p, committed) =>
      committed && p in w.processes && w.processes[p].Chunk? && !w.processes[p].blobs && w.processes[p].replaced != {}
    case DeleteObject(_, _, deleted) => !deleted
    case Crash(p) => p in w.processes && Holds(w.processes[p]) + Dooms(w.processes[p]) != {}
    case _ => false
  }

  lemma LeaksHaveACause(w: World, step: Step)
    requires Next(w, step).leaked != w.leaked
    ensures LeakCause(w, step)
  {
  }

  /* ---- what stays leaked ---- */

  // An object no row names and no process will touch again.
  predicate Abandoned(w: World, k: Key) {
    && k in w.objects && k < w.nextKey && AllAvoid(w.rows, {k})
    && forall p :: p in w.processes ==>
         k !in Holds(w.processes[p]) && k !in Dooms(w.processes[p]) && k !in Replaces(w.processes[p])
  }

  lemma {:induction false} AbandonedStays(w: World, step: Step, k: Key)
    requires Inv(w) && Abandoned(w, k)
    ensures Abandoned(Next(w, step), k)
  {
    NextKeeps(w, step);
    MovesAvoid(w, Next(w, step), step.p, k);
  }

  lemma MovesAvoid(w: World, w': World, p: nat, k: Key)
    requires Moves(w, w', p) && Abandoned(w, k)
    ensures Abandoned(w', k)
  {
    forall f | f in w'.rows
      ensures Avoids(w'.rows[f], {k})
    {
      assert RowMove(w, w', p, f) && (f in w.rows ==> Avoids(w.rows[f], {k}));
    }
  }

  // Once abandoned, an object stays for good: no step goes looking for it.
  lemma {:induction false} AbandonedForGood(w: World, steps: seq<Step>, k: Key)
    requires Inv(w) && Abandoned(w, k)
    ensures k in Run(w, steps).objects && Abandoned(Run(w, steps), k)
    decreases |steps|
  {
    if steps != [] {
      NextKeeps(w, steps[0]);
      AbandonedStays(w, steps[0], k);
      AbandonedForGood(Next(w, steps[0]), steps[1..], k);
    }
  }

  // In any run an abandoned object is among the leaks, whose causes are known.
  lemma {:induction false} AbandonedIsLeaked(steps: seq<Step>, k: Key)
    requires Abandoned(Run(Init(), steps), k)
    ensures k in Run(Init(), steps).leaked
  {
    EveryObjectIsPlaced(steps, k);
  }

  /* ---- one file twice in a chunk ---- */

  // The line queued, the batch sent, the chunk committed.
  function Finished(w: World, p: nat): World {
    CommitChunkStep(FlushChunkStep(QueueLineStep(w, p), p), p, true)
  }

  predicate SecondLine(w: World, p: nat) {
    CanQueue(w, p) && w.processes[p].blobs && w.processes[p].staged.value.0 in Final(w.processes[p])
  }

  // The object an earlier line put for the same file.
  function FirstObject(w: World, p: nat): Option<Key>
    requires SecondLine(w, p)
  {
    Final(w.processes[p])[w.processes[p].staged.value.0].key
  }

  lemma FinishedIs(w: World, p: nat)
    requires SecondLine(w, p)
    ensures var c := w.processes[p];
      && Finished(w, p).rows == w.rows + Final(c)[c.staged.value.0 := StagedRow(w, c)]
      && Finished(w, p).processes == w.processes[p := Deleting(c.replaced + Seen(w, c, c.staged.value.0))]
      && Finished(w, p).objects == w.objects && Finished(w, p).nextKey == w.nextKey
  {
    var c := w.processes[p];
    var w1 := QueueLineStep(w, p);
    assert w1.processes[p] == Queued(w, c);
    var w2 := FlushChunkStep(w1, p);
    assert w2.processes[p].flushed == Final(Queued(w, c)) == Final(c)[c.staged.value.0 := StagedRow(w, c)];
  }

  // The replaced objects of the chunk hold the first line's exactly when its row
  // has been sent.
  lemma {:induction false} FirstIsSeenIff(w: World, p: nat, k: Key)
    requires Inv(w) && SecondLine(w, p) && FirstObject(w, p) == Some(k)
    ensures var c := w.processes[p];
      k in c.pending && (k in c.replaced + Seen(w, c, c.staged.value.0) <==> c.staged.value.0 !in c.queue)
  {
    var c := w.processes[p];
    var file := c.staged.value.0;
    assert ProcessOk(w, c) && Pending(w, Final(c)[file], c.pending) && Avoids(Final(c)[file], c.replaced);
    if file in w.rows {
      assert Avoids(w.rows[file], Holds(c));
    }
  }

  lemma {:induction false} FirstIsNoRows(w: World, p: nat, k: Key)
    requires Inv(w) && SecondLine(w, p) && FirstObject(w, p) == Some(k)
    ensures AllAvoid(Finished(w, p).rows, {k})
  {
    var c := w.processes[p];
    var file := c.staged.value.0;
    FirstIsSeenIff(w, p, k);
    FinishedIs(w, p);
    assert ProcessOk(w, c);
    forall f | f in Finished(w, p).rows
      ensures Avoids(Finished(w, p).rows[f], {k})
    {
      if f == file {
        assert Avoids(Final(c)[file], {c.staged.value.1});
      } else if f in Final(c) {
        assert Final(c)[f].key.Some? ==> Final(c)[f].key != Final(c)[file].key;
      } else {
        assert Avoids(w.rows[f], Holds(c));
      }
    }
  }

  // One file twice in a chunk, in any world: after the commit the first line's
  // object is no row's, and it is deleted if and only if the batch was sent
  // between the two lines; otherwise it stays for good.
  lemma {:induction false} DuplicateLineLeaks(w: World, p: nat, k: Key)
    requires Inv(w) && SecondLine(w, p) && FirstObject(w, p) == Some(k)
    ensures var end := Finished(w, p);
      && k in end.objects && AllAvoid(end.rows, {k})
      && (k in Dooms(Mine(end, p)) <==> w.processes[p].staged.value.0 !in w.processes[p].queue)
      && (Abandoned(end, k) <==> w.processes[p].staged.value.0 in w.processes[p].queue)
  {
    FirstIsSeenIff(w, p, k);
    FirstIsNoRows(w, p, k);
    FinishedIs(w, p);
    HeldByOne(w, p, k);
    OnlyMine(w, Finished(w, p), p, k);
  }

  // An object one process holds is there, and nobody else's.
  lemma HeldByOne(w: World, p: nat, k: Key)
    requires Inv(w) && p in w.processes && k in Holds(w.processes[p])
    ensures k in w.objects && k < w.nextKey && UnheldByOthers(w, p, k)
  {
    assert ProcessOk(w, w.processes[p]);
    forall q | q in w.processes && q != p
      ensures k !in Holds(w.processes[q]) && k !in Dooms(w.processes[q]) && k !in Replaces(w.processes[q])
    {
      assert Apart(w.processes[p], w.processes[q]) && Apart(w.processes[q], w.processes[p]);
    }
  }

  predicate UnheldByOthers(w: World, p: nat, k: Key) {
    forall q :: q in w.processes && q != p ==>
      k !in Holds(w.processes[q]) && k !in Dooms(w.processes[q]) && k !in Replaces(w.processes[q])
  }

  lemma OnlyMine(w: World, end: World, p: nat, k: Key)
    requires UnheldByOthers(w, p, k) && p in end.processes && end.processes[p].Deleting?
    requires end.processes == w.processes[p := end.processes[p]]
    requires k in end.objects && k < end.nextKey && AllAvoid(end.rows, {k})
    ensures Abandoned(end, k) <==> k !in end.processes[p].keys
  {
  }

  function Twice(f: File, a: Bytes, b: Bytes): seq<Step> {
    [OpenChunk(0, true), PutLine(0, f, a, PutDone), QueueLine(0), PutLine(0, f, b, PutDone)]
  }

  // Such a chunk: two lines for one file and nothing sent in between.
  lemma {:induction false} TwiceIs(f: File, a: Bytes, b: Bytes)
    ensures var w := Run(Init(), Twice(f, a, b));
      && SecondLine(w, 0) && FirstObject(w, 0) == Some(0)
      && f in w.processes[0].queue && w.processes[0].staged.value.0 == f
  {
    var steps := Twice(f, a, b);
    var open := OpenChunkStep(Init(), 0, true);
    var first := PutLineStep(open, 0, f, a, PutDone);
    assert CanQueue(first, 0);
    var queued := QueueLineStep(first, 0);
    assert queued.processes[0].queue == map[f := Row(Some(0), a)];
    var w := PutLineStep(queued, 0, f, b, PutDone);
    assert CanQueue(w, 0);
    assert steps[1..][1..] == [QueueLine(0), PutLine(0, f, b, PutDone)];
    assert steps[1..][1..][1..] == [PutLine(0, f, b, PutDone)];
    assert Run(first, steps[1..][1..]) == Run(queued, [PutLine(0, f, b, PutDone)]) == Run(w, []);
  }

  // An import of a dump that names one file twice, from the empty tables: after
  // its commit the first line's object is there for good.
  lemma {:induction false} DuplicateImportLeaks(f: File, a: Bytes, b: Bytes)
    ensures Abandoned(Finished(Run(Init(), Twice(f, a, b)), 0), 0)
  {
    TwiceIs(f, a, b);
    RunKeeps(Init(), Twice(f, a, b));
    DuplicateLineLeaks(Run(Init(), Twice(f, a, b)), 0, 0);
  }
}
