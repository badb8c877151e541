/**
 * Symbol files in the blob store: uploads, chunked imports, deletes, expiry
 * and readers as one state machine. An object is put under a fresh key, the
 * row's pointer swapped in a transaction under the row's lock, and the object
 * it replaced deleted afterwards; any process may crash between two steps.
 */
module SymbolFiles {
  import opened Blobs
  import opened Options

  type File = string           // a row's unique key: project, kind, release, filename
  type Key = nat
  type Bytes = seq<nat>

  // Where a row's bytes are: in its data column, or under its blob_key. bytes
  // is history: what the row was written with.
  datatype Row = Row(key: Option<Key>, bytes: Bytes)

  datatype Process =
    | Uploading(file: File, key: Key)
    // One transaction of an import; queue holds the rows not yet sent, blobs
    // says whether the process has a blob store.
    | Chunk(
        pending: set<Key>, replaced: set<Key>, flushed: map<File, Row>, queue: map<File, Row>,
        staged: Option<(File, Key)>, blobs: bool)
    | Deleting(keys: set<Key>)
    | Reading(file: File, row: Row)
    | Read(file: File, row: Row, got: Option<Bytes>, changed: bool)

  // content and leaked are history: what was put under each key, and the
  // objects given up by a crash, a failed delete, or a writer that did not
  // look at the key it replaced.
  datatype World = World(
    rows: map<File, Row>,
    objects: map<Key, Bytes>,
    processes: map<nat, Process>,
    nextKey: nat,
    content: map<Key, Bytes>,
    leaked: set<Key>)

  datatype Step =
    | PutUpload(p: nat, file: File, data: Bytes, outcome: PutOutcome)
    | Swap(p: nat, committed: bool)
    | PlainUpload(p: nat, file: File, data: Bytes)
    | OpenChunk(p: nat, blobs: bool)
    | PutLine(p: nat, file: File, data: Bytes, outcome: PutOutcome)
    | QueueLine(p: nat)
    | PlainLine(p: nat, file: File, data: Bytes)
    | FlushChunk(p: nat)
    | CommitChunk(p: nat, committed: bool)
    | AbortChunk(p: nat)
    | DeleteFiles(p: nat, files: set<File>)
    | DeleteObject(p: nat, k: Key, deleted: bool)
    | Crash(p: nat)
    | OpenRead(p: nat, file: File)
    | Fetch(p: nat)

  function Init(): World {
    World(map[], map[], map[], 0, map[], {})
  }

  function KeyAt(rows: map<File, Row>, file: File): set<Key> {
    if file in rows && rows[file].key.Some? then {rows[file].key.value} else {}
  }

  // The chunk's writes, later over earlier.
  function Final(c: Process): map<File, Row>
    requires c.Chunk?
  {
    c.flushed + c.queue
  }

  function LockedBy(c: Process): set<File> {
    if c.Chunk? then Final(c).Keys else {}
  }

  // The keys a process has put and not yet given to a row.
  function Holds(c: Process): set<Key> {
    match c
    case Uploading(_, key) => {key}
    case Chunk(pending, _, _, _, _, _) => pending
    case _ => {}
  }

  function Dooms(c: Process): set<Key> {
    if c.Deleting? then c.keys else {}
  }

  function Replaces(c: Process): set<Key> {
    if c.Chunk? then c.replaced else {}
  }

  // LockSymbolFile: no other open transaction has written the file.
  predicate Free(w: World, p: nat, file: File) {
    forall q :: q in w.processes && q != p ==> file !in LockedBy(w.processes[q])
  }

  function Put(w: World, data: Bytes): World {
    w.(objects := w.objects[w.nextKey := data], content := w.content[w.nextKey := data], nextKey := w.nextKey + 1)
  }

  function With(w: World, p: nat, c: Process): World {
    w.(processes := w.processes[p := c])
  }

  function PutUploadStep(w: World, p: nat, file: File, data: Bytes, outcome: PutOutcome): World {
    if p in w.processes then w
    else
      match outcome
      case PutRefused => w
      case PutUnacknowledged => Put(w, data).(leaked := w.leaked + {w.nextKey})
      case PutDone => With(Put(w, data), p, Uploading(file, w.nextKey))
  }

  // The upload's transaction: lock, read the previous key, upsert. On an error
  // the new object is deleted, otherwise the one it replaced.
  function SwapStep(w: World, p: nat, committed: bool): World {
    if p !in w.processes || !w.processes[p].Uploading? then w
    else
      var c := w.processes[p];
      if !committed then With(w, p, Deleting({c.key}))
      else if !Free(w, p, c.file) || c.key !in w.content then w
      else
        With(w, p, Deleting(KeyAt(w.rows, c.file))).(rows := w.rows[c.file := Row(Some(c.key), w.content[c.key])])
  }

  // An upload by a process without a blob store: the bytes go into the row, and
  // the key it pointed at is not looked at.
  function PlainUploadStep(w: World, p: nat, file: File, data: Bytes): World {
    if p in w.processes then w
    else w.(rows := w.rows[file := Row(None, data)], leaked := w.leaked + KeyAt(w.rows, file))
  }

  function OpenChunkStep(w: World, p: nat, blobs: bool): World {
    if p in w.processes then w else With(w, p, Chunk({}, {}, map[], map[], None, blobs))
  }

  predicate CanPut(w: World, p: nat) {
    p in w.processes && w.processes[p].Chunk? && w.processes[p].blobs && w.processes[p].staged.None?
  }

  // importer.line puts the object first; a failed Put fails the chunk.
  function PutLineStep(w: World, p: nat, file: File, data: Bytes, outcome: PutOutcome): World {
    if !CanPut(w, p) then w
    else
      var c := w.processes[p];
      match outcome
      case PutRefused => With(w, p, Deleting(c.pending))
      case PutUnacknowledged => With(Put(w, data), p, Deleting(c.pending)).(leaked := w.leaked + {w.nextKey})
      case PutDone => With(Put(w, data), p, c.(pending := c.pending + {w.nextKey}, staged := Some((file, w.nextKey))))
  }

  // The key the transaction sees on the row: its own flushed write, or the
  // committed one. Rows still queued are not seen.
  function Seen(w: World, c: Process, file: File): set<Key>
    requires c.Chunk?
  {
    if file in c.flushed then KeyAt(c.flushed, file) else KeyAt(w.rows, file)
  }

  predicate CanQueue(w: World, p: nat) {
    && p in w.processes && w.processes[p].Chunk? && w.processes[p].staged.Some?
    && Free(w, p, w.processes[p].staged.value.0) && w.processes[p].staged.value.1 in w.content
  }

  function QueueRow(w: World, c: Process, file: File, row: Row): Process
    requires c.Chunk?
  {
    c.(replaced := c.replaced + Seen(w, c, file), queue := c.queue[file := row], staged := None)
  }

  function Queued(w: World, c: Process): Process
    requires c.Chunk? && c.staged.Some? && c.staged.value.1 in w.content
  {
    QueueRow(w, c, c.staged.value.0, StagedRow(w, c))
  }

  function StagedRow(w: World, c: Process): Row
    requires c.Chunk? && c.staged.Some? && c.staged.value.1 in w.content
  {
    Row(Some(c.staged.value.1), w.content[c.staged.value.1])
  }

  // Then the row's lock, the key it replaces, and the queued upsert.
  function QueueLineStep(w: World, p: nat): World {
    if !CanQueue(w, p) then w
    else
      var c := w.processes[p];
      With(w, p, Queued(w, c)).(leaked := w.leaked + KeyAt(c.queue, c.staged.value.0))
  }

  predicate CanQueuePlain(w: World, p: nat, file: File) {
    && p in w.processes && w.processes[p].Chunk? && !w.processes[p].blobs && w.processes[p].staged.None?
    && Free(w, p, file)
  }

  // A line without a blob store: the bytes go into the row, the key it replaces
  // is noted all the same.
  function PlainLineStep(w: World, p: nat, file: File, data: Bytes): World {
    if !CanQueuePlain(w, p, file) then w else With(w, p, QueueRow(w, w.processes[p], file, Row(None, data)))
  }

  function FlushChunkStep(w: World, p: nat): World {
    if p !in w.processes || !w.processes[p].Chunk? then w
    else With(w, p, w.processes[p].(flushed := Final(w.processes[p]), queue := map[]))
  }

  // endChunk: the replaced objects after a commit, its own after a failure. A
  // process without a blob store deletes none.
  function CommitChunkStep(w: World, p: nat, committed: bool): World {
    if p !in w.processes || !w.processes[p].Chunk? ||
      w.processes[p].queue != map[] || w.processes[p].staged.Some? then w
    else
      var c := w.processes[p];
      if committed && c.blobs then With(w, p, Deleting(c.replaced)).(rows := w.rows + c.flushed)
      else if committed then With(w, p, Deleting({})).(rows := w.rows + c.flushed, leaked := w.leaked + c.replaced)
      else With(w, p, Deleting(c.pending))
  }

  function AbortChunkStep(w: World, p: nat): World {
    if p !in w.processes || !w.processes[p].Chunk? then w else With(w, p, Deleting(w.processes[p].pending))
  }

  function KeysOf(rows: map<File, Row>, files: set<File>): set<Key> {
    set f | f in files && f in rows && rows[f].key.Some? :: rows[f].key.value
  }

  // DeleteSymbolFile and ExpireSymbolFiles: the rows go, then their objects.
  function DeleteFilesStep(w: World, p: nat, files: set<File>): World {
    if p in w.processes then w
    else With(w, p, Deleting(KeysOf(w.rows, files))).(rows := w.rows - files)
  }

  function DeleteObjectStep(w: World, p: nat, k: Key, deleted: bool): World {
    if p !in w.processes || !w.processes[p].Deleting? || k !in w.processes[p].keys then w
    else
      var w' := With(w, p, Deleting(w.processes[p].keys - {k}));
      if deleted then w'.(objects := w.objects - {k}) else w'.(leaked := w.leaked + {k})
  }

  function CrashStep(w: World, p: nat): World {
    if p !in w.processes then w
    else
      w.(processes := w.processes - {p}, leaked := w.leaked + Holds(w.processes[p]) + Dooms(w.processes[p]))
  }

  function OpenReadStep(w: World, p: nat, file: File): World {
    if p in w.processes || file !in w.rows then w else With(w, p, Reading(file, w.rows[file]))
  }

  // symbolBytes.
  function FetchStep(w: World, p: nat): World {
    if p !in w.processes || !w.processes[p].Reading? then w
    else
      var c := w.processes[p];
      var got := if c.row.key.None? then Some(c.row.bytes)
                 else if c.row.key.value in w.objects then Some(w.objects[c.row.key.value]) else None;
      With(w, p, Read(c.file, c.row, got, c.file !in w.rows || w.rows[c.file].key != c.row.key))
  }

  function Next(w: World, step: Step): World {
    match step
    case PutUpload(p, file, data, outcome) => PutUploadStep(w, p, file, data, outcome)
    case Swap(p, committed) => SwapStep(w, p, committed)
    case PlainUpload(p, file, data) => PlainUploadStep(w, p, file, data)
    case OpenChunk(p, blobs) => OpenChunkStep(w, p, blobs)
    case PutLine(p, file, data, outcome) => PutLineStep(w, p, file, data, outcome)
    case QueueLine(p) => QueueLineStep(w, p)
    case PlainLine(p, file, data) => PlainLineStep(w, p, file, data)
    case FlushChunk(p) => FlushChunkStep(w, p)
    case CommitChunk(p, committed) => CommitChunkStep(w, p, committed)
    case AbortChunk(p) => AbortChunkStep(w, p)
    case DeleteFiles(p, files) => DeleteFilesStep(w, p, files)
    case DeleteObject(p, k, deleted) => DeleteObjectStep(w, p, k, deleted)
    case Crash(p) => CrashStep(w, p)
    case OpenRead(p, file) => OpenReadStep(w, p, file)
    case Fetch(p) => FetchStep(w, p)
  }

  function Run(w: World, steps: seq<Step>): World
    decreases |steps|
  {
    if steps == [] then w else Run(Next(w, steps[0]), steps[1..])
  }

  /* ---- the invariant ---- */

  // Keys are never reused, and an object is what was put under its key.
  predicate KeysOk(w: World) {
    && (forall k :: k in w.content ==> k < w.nextKey)
    && (forall k :: k in w.objects ==> k in w.content && w.objects[k] == w.content[k])
  }

  // A row that names a key names a present object with its bytes.
  predicate RowOk(w: World, row: Row) {
    row.key.Some? ==>
      row.key.value in w.objects && row.key.value in w.content && w.content[row.key.value] == row.bytes
  }

  predicate RowsOk(w: World) {
    && (forall f :: f in w.rows ==> RowOk(w, w.rows[f]))
    && Unshared(w.rows)
  }

  predicate Unshared(rows: map<File, Row>) {
    forall f, g :: f in rows && g in rows && f != g && rows[f].key.Some? ==> rows[f].key != rows[g].key
  }

  predicate Avoids(row: Row, keys: set<Key>) {
    row.key.Some? ==> row.key.value !in keys
  }

  predicate AllAvoid(rows: map<File, Row>, keys: set<Key>) {
    forall f :: f in rows ==> Avoids(rows[f], keys)
  }

  // Held objects are there and no row's; doomed ones are no row's either.
  predicate KeysSeparate(w: World, c: Process) {
    && (forall k :: k in Holds(c) ==> k in w.objects)
    && (forall k :: k in Dooms(c) ==> k < w.nextKey)
    && (forall k :: k in Replaces(c) ==> k < w.nextKey)
    && AllAvoid(w.rows, Holds(c)) && AllAvoid(w.rows, Dooms(c))
  }

  predicate Pending(w: World, row: Row, pending: set<Key>) {
    row.key.Some? ==> row.key.value in pending && RowOk(w, row)
  }

  predicate AllPending(w: World, rows: map<File, Row>, pending: set<Key>) {
    forall f :: f in rows ==> Pending(w, rows[f], pending)
  }

  // A replaced key still named by a row is one this chunk will overwrite.
  predicate WillOverwrite(rows: map<File, Row>, replaced: set<Key>, files: set<File>) {
    forall f :: f in rows && !Avoids(rows[f], replaced) ==> f in files
  }

  predicate ChunkOk(w: World, c: Process)
    requires c.Chunk?
  {
    && Unshared(Final(c)) && AllPending(w, Final(c), c.pending) && AllPending(w, c.flushed, c.pending)
    && AllAvoid(Final(c), c.replaced) && OverwritesSeen(c)
    && WillOverwrite(w.rows, c.replaced, Final(c).Keys)
    && (c.staged.Some? ==> StagedOk(c, c.staged.value.1))
    && (!c.blobs ==> c.pending == {})
  }

  // A flushed row that a queued one overwrites has been seen as replaced.
  predicate OverwritesSeen(c: Process)
    requires c.Chunk?
  {
    forall f :: f in c.flushed && f in c.queue && c.flushed[f].key.Some? ==> c.flushed[f].key.value in c.replaced
  }

  predicate StagedOk(c: Process, k: Key)
    requires c.Chunk?
  {
    k in c.pending && k !in c.replaced && AllAvoid(Final(c), {k}) && AllAvoid(c.flushed, {k})
  }

  // A read that finds no object is one whose row has moved on.
  predicate ReaderOk(w: World, c: Process) {
    match c
    case Reading(_, row) => row.key.Some? ==> row.key.value in w.content && w.content[row.key.value] == row.bytes
    case Read(_, row, got, changed) => got == Some(row.bytes) || (got == None && changed)
    case _ => true
  }

  predicate ProcessOk(w: World, c: Process) {
    KeysSeparate(w, c) && ReaderOk(w, c) && (c.Chunk? ==> ChunkOk(w, c))
  }

  predicate ProcessesOk(w: World) {
    forall p :: p in w.processes ==> ProcessOk(w, w.processes[p])
  }

  // Two processes never hold one key, doom or replace what another holds, or
  // write one file.
  predicate Apart(a: Process, b: Process) {
    && Holds(a) !! Holds(b) && Dooms(a) !! Holds(b) && Replaces(a) !! Holds(b) && LockedBy(a) !! LockedBy(b)
  }

  predicate AllApart(w: World) {
    forall p, q :: p in w.processes && q in w.processes && p != q ==> Apart(w.processes[p], w.processes[q])
  }

  predicate Inv(w: World) {
    KeysOk(w) && RowsOk(w) && ProcessesOk(w) && AllApart(w)
  }

  /* ---- what one process may do ---- */

  function Mine(w: World, p: nat): Process {
    if p in w.processes then w.processes[p] else Deleting({})
  }

  // A row is left alone, loses its key, or gets a key its writer held.
  predicate RowMove(w: World, w': World, p: nat, f: File)
    requires f in w'.rows
  {
    || (f in w.rows && w'.rows[f] == w.rows[f])
    || w'.rows[f].key.None?
    || (w'.rows[f].key.value in Holds(Mine(w, p)) && Free(w, p, f))
  }

  predicate ObjectsMove(w: World, w': World, p: nat) {
    && w.nextKey <= w'.nextKey
    && (forall k :: k in w.content ==> k in w'.content && w'.content[k] == w.content[k])
    && (forall k :: k in w.objects && k !in Dooms(Mine(w, p)) ==> k in w'.objects)
  }

  predicate OthersStay(w: World, w': World, p: nat) {
    && (forall q :: q in w.processes && q != p ==> q in w'.processes && w'.processes[q] == w.processes[q])
    && (forall q :: q in w'.processes && q != p ==> q in w.processes)
  }

  predicate Behaves(w: World, w': World, p: nat) {
    ObjectsMove(w, w', p) && OthersStay(w, w', p) && forall f :: f in w'.rows ==> RowMove(w, w', p, f)
  }

  // A key some row names, or one the process already has in hand.
  predicate Known(w: World, c: Process, k: Key) {
    k in Holds(c) || k in Dooms(c) || k in Replaces(c) || !AllAvoid(w.rows, {k})
  }

  predicate Grows(w: World, p: nat, c: Process) {
    && (forall k :: k in Holds(c) ==> k in Holds(Mine(w, p)) || k >= w.nextKey)
    && (forall k :: k in Dooms(c) ==> Known(w, Mine(w, p), k))
    && (forall k :: k in Replaces(c) ==> Known(w, Mine(w, p), k))
    && (forall f :: f in LockedBy(c) ==> Free(w, p, f))
  }

  // All that process p's step may do to the world.
  predicate Moves(w: World, w': World, p: nat) {
    Behaves(w, w', p) && (p in w'.processes ==> Grows(w, p, w'.processes[p]))
  }

  lemma OtherRow(w: World, w': World, p: nat, q: nat, f: File)
    requires Inv(w) && Behaves(w, w', p) && q in w.processes && q != p && f in w'.rows
    ensures Avoids(w'.rows[f], Holds(w.processes[q])) && Avoids(w'.rows[f], Dooms(w.processes[q]))
    ensures w.processes[q].Chunk? && !Avoids(w'.rows[f], Replaces(w.processes[q])) ==> f in LockedBy(w.processes[q])
  {
    var c := w.processes[q];
    assert ProcessOk(w, c) && RowMove(w, w', p, f);
    if p in w.processes {
      assert Apart(w.processes[p], c) && Apart(c, w.processes[p]);
    }
  }

  lemma {:induction false} OtherKeeps(w: World, w': World, p: nat, q: nat)
    requires Inv(w) && Behaves(w, w', p) && q in w.processes && q != p
    ensures ProcessOk(w', w.processes[q])
  {
    var c := w.processes[q];
    assert ProcessOk(w, c);
    forall f | f in w'.rows
      ensures Avoids(w'.rows[f], Holds(c)) && Avoids(w'.rows[f], Dooms(c))
      ensures c.Chunk? && !Avoids(w'.rows[f], Replaces(c)) ==> f in LockedBy(c)
    {
      OtherRow(w, w', p, q, f);
    }
    assert p in w.processes ==> Apart(w.processes[p], c);
    if c.Chunk? {
      PendingStays(w, w', p, Final(c), c.pending);
      PendingStays(w, w', p, c.flushed, c.pending);
    }
  }

  lemma PendingStays(w: World, w': World, p: nat, rows: map<File, Row>, pending: set<Key>)
    requires ObjectsMove(w, w', p) && AllPending(w, rows, pending) && Dooms(Mine(w, p)) !! pending
    ensures AllPending(w', rows, pending)
  {
    forall f | f in rows
      ensures Pending(w', rows[f], pending)
    {
      assert Pending(w, rows[f], pending);
    }
  }

  lemma GrowsApart(w: World, p: nat, c: Process, q: nat)
    requires Inv(w) && Grows(w, p, c) && q in w.processes && q != p
    ensures Apart(c, w.processes[q]) && Apart(w.processes[q], c)
  {
    var d := w.processes[q];
    assert ProcessOk(w, d);
    if p in w.processes {
      assert Apart(w.processes[p], d) && Apart(d, w.processes[p]);
    }
    forall k | k in Dooms(d) || k in Replaces(d)
      ensures k !in Holds(c)
    {
    }
    forall k | k in Holds(d)
      ensures k !in Holds(c) && k !in Dooms(c) && k !in Replaces(c)
    {
      assert k in w.objects && k < w.nextKey;
      assert AllAvoid(w.rows, {k});
    }
  }

  lemma {:induction false} Carry(w: World, w': World, p: nat)
    requires Inv(w) && KeysOk(w') && RowsOk(w') && Behaves(w, w', p)
    requires p in w'.processes ==> ProcessOk(w', w'.processes[p]) && Grows(w, p, w'.processes[p])
    ensures Inv(w') && Moves(w, w', p)
  {
    forall q | q in w'.processes
      ensures ProcessOk(w', w'.processes[q])
    {
      if q != p {
        OtherKeeps(w, w', p, q);
      }
    }
    forall q, r | q in w'.processes && r in w'.processes && q != r
      ensures Apart(w'.processes[q], w'.processes[r])
    {
      if q == p {
        GrowsApart(w, p, w'.processes[p], r);
      } else if r == p {
        GrowsApart(w, p, w'.processes[p], q);
      } else {
        assert Apart(w.processes[q], w.processes[r]);
      }
    }
  }

  // A step that leaves the rows alone.
  lemma {:induction false} CarryProcess(w: World, w': World, p: nat)
    requires Inv(w) && KeysOk(w') && w'.rows == w.rows && ObjectsMove(w, w', p) && OthersStay(w, w', p)
    requires p in w'.processes ==> ProcessOk(w', w'.processes[p]) && Grows(w, p, w'.processes[p])
    ensures Inv(w') && Moves(w, w', p)
  {
    assert p in w.processes ==> ProcessOk(w, w.processes[p]);
    forall f | f in w'.rows
      ensures RowOk(w', w'.rows[f]) && RowMove(w, w', p, f)
    {
      assert RowOk(w, w.rows[f]) && Avoids(w.rows[f], Dooms(Mine(w, p)));
    }
    Carry(w, w', p);
  }

  lemma PutMoves(w: World, data: Bytes, p: nat)
    requires KeysOk(w)
    ensures KeysOk(Put(w, data)) && ObjectsMove(w, Put(w, data), p)
  {
  }

  // A step after which the process only has objects to delete.
  lemma {:induction false} CarryDeleting(w: World, w': World, p: nat, keys: set<Key>)
    requires Inv(w) && KeysOk(w') && w'.rows == w.rows && ObjectsMove(w, w', p)
    requires w'.processes == w.processes[p := Deleting(keys)]
    requires AllAvoid(w.rows, keys) && forall k :: k in keys ==> k < w.nextKey && Known(w, Mine(w, p), k)
    ensures Inv(w') && Moves(w, w', p)
  {
    CarryProcess(w, w', p);
  }

  lemma SameTables(w: World, w': World, c: Process)
    requires w'.rows == w.rows && w'.objects == w.objects && w'.content == w.content && w'.nextKey == w.nextKey
    requires ProcessOk(w, c)
    ensures ProcessOk(w', c)
  {
  }

  // A step that only changes the process itself.
  lemma {:induction false} CarryOwn(w: World, w': World, p: nat, c: Process)
    requires Inv(w) && w'.processes == w.processes[p := c]
    requires w'.rows == w.rows && w'.objects == w.objects && w'.content == w.content && w'.nextKey == w.nextKey
    requires ProcessOk(w, c) && Grows(w, p, c)
    ensures Inv(w') && Moves(w, w', p)
  {
    SameTables(w, w', c);
    CarryProcess(w, w', p);
  }

  lemma HeldAreKnown(w: World, p: nat)
    requires Inv(w) && p in w.processes
    ensures var keys := Holds(w.processes[p]);
      AllAvoid(w.rows, keys) && forall k :: k in keys ==> k < w.nextKey && Known(w, Mine(w, p), k)
  {
    assert ProcessOk(w, w.processes[p]);
  }

  /* ---- every step keeps it ---- */

  lemma {:induction false} PutUploadKeeps(w: World, p: nat, file: File, data: Bytes, outcome: PutOutcome)
    requires Inv(w)
    ensures Inv(PutUploadStep(w, p, file, data, outcome)) && Moves(w, PutUploadStep(w, p, file, data, outcome), p)
  {
    var w' := PutUploadStep(w, p, file, data, outcome);
    if w' != w {
      PutMoves(w, data, p);
      FreshIsAvoided(w);
      if outcome.PutDone? {
        assert ProcessOk(w', w'.processes[p]) && Grows(w, p, w'.processes[p]);
      }
      CarryProcess(w, w', p);
    } else {
      StillMoves(w, p);
    }
  }

  lemma FreshIsAvoided(w: World)
    requires KeysOk(w) && RowsOk(w)
    ensures AllAvoid(w.rows, {w.nextKey})
  {
    forall f | f in w.rows
      ensures Avoids(w.rows[f], {w.nextKey})
    {
      assert RowOk(w, w.rows[f]);
    }
  }

  lemma {:induction false} OpenChunkKeeps(w: World, p: nat, blobs: bool)
    requires Inv(w)
    ensures Inv(OpenChunkStep(w, p, blobs)) && Moves(w, OpenChunkStep(w, p, blobs), p)
  {
    var empty := Chunk({}, {}, map[], map[], None, blobs);
    assert ProcessOk(w, empty) && Final(empty) == map[];
    if p !in w.processes {
      CarryOwn(w, OpenChunkStep(w, p, blobs), p, empty);
    } else {
      StillMoves(w, p);
    }
  }

  lemma StagedKeeps(w: World, p: nat, file: File, data: Bytes)
    requires Inv(w) && CanPut(w, p)
    ensures var c := w.processes[p];
      var c' := c.(pending := c.pending + {w.nextKey}, staged := Some((file, w.nextKey)));
      ProcessOk(With(Put(w, data), p, c'), c') && Grows(w, p, c')
  {
    var c := w.processes[p];
    var c' := c.(pending := c.pending + {w.nextKey}, staged := Some((file, w.nextKey)));
    var w' := With(Put(w, data), p, c');
    assert ProcessOk(w, c) && Final(c') == Final(c) && Replaces(c') == Replaces(c) == c.replaced;
    PendingGrows(w, w', Final(c), c.pending, c'.pending);
    PendingGrows(w, w', c.flushed, c.pending, c'.pending);
    StagedAvoided(w, c);
  }

  lemma StagedAvoided(w: World, c: Process)
    requires KeysOk(w) && RowsOk(w) && ProcessOk(w, c) && c.Chunk?
    ensures AllAvoid(w.rows, c.pending + {w.nextKey})
  {
    forall f | f in w.rows
      ensures Avoids(w.rows[f], c.pending + {w.nextKey})
    {
      assert RowOk(w, w.rows[f]) && Avoids(w.rows[f], Holds(c));
    }
  }

  lemma PendingGrows(w: World, w': World, rows: map<File, Row>, pending: set<Key>, pending': set<Key>)
    requires AllPending(w, rows, pending) && pending <= pending' && KeysOk(w)
    requires forall k :: k in w.objects ==> k in w'.objects
    requires forall k :: k in w.content ==> k in w'.content && w'.content[k] == w.content[k]
    ensures AllPending(w', rows, pending') && AllAvoid(rows, {w.nextKey})
  {
    forall f | f in rows
      ensures Pending(w', rows[f], pending') && Avoids(rows[f], {w.nextKey})
    {
      assert Pending(w, rows[f], pending);
    }
  }

  lemma {:induction false} PutLineKeeps(w: World, p: nat, file: File, data: Bytes, outcome: PutOutcome)
    requires Inv(w)
    ensures Inv(PutLineStep(w, p, file, data, outcome)) && Moves(w, PutLineStep(w, p, file, data, outcome), p)
  {
    if CanPut(w, p) {
      PutMoves(w, data, p);
      HeldAreKnown(w, p);
      if outcome.PutDone? {
        StagedKeeps(w, p, file, data);
        CarryProcess(w, PutLineStep(w, p, file, data, outcome), p);
      } else {
        CarryDeleting(w, PutLineStep(w, p, file, data, outcome), p, w.processes[p].pending);
      }
    } else {
      StillMoves(w, p);
    }
  }

  // A row that can be queued: it names no key, or one put for this chunk alone.
  predicate Queueable(w: World, c: Process, row: Row)
    requires c.Chunk?
  {
    Pending(w, row, c.pending) && (row.key.Some? ==> StagedOk(c, row.key.value))
  }

  // The queued row and the key it replaces.
  lemma {:induction false} QueuedOk(w: World, c: Process, file: File, row: Row)
    requires c.Chunk? && ProcessOk(w, c) && Unshared(w.rows) && Queueable(w, c, row)
    ensures ChunkOk(w, QueueRow(w, c, file, row))
  {
    var c' := QueueRow(w, c, file, row);
    QueuedRows(w, c, file, row);
    assert Final(c') == Final(c)[file := row];
    QueuedOverwrites(w, c, file, row);
  }

  lemma QueuedOverwrites(w: World, c: Process, file: File, row: Row)
    requires c.Chunk? && ProcessOk(w, c) && Unshared(w.rows)
    ensures WillOverwrite(w.rows, QueueRow(w, c, file, row).replaced, Final(QueueRow(w, c, file, row)).Keys)
  {
    assert file in c.flushed ==> Pending(w, c.flushed[file], c.pending);
    forall f | f in w.rows && !Avoids(w.rows[f], QueueRow(w, c, file, row).replaced)
      ensures f in Final(QueueRow(w, c, file, row))
    {
      assert Avoids(w.rows[f], Holds(c));
    }
  }

  lemma QueuedRows(w: World, c: Process, file: File, row: Row)
    requires c.Chunk? && ProcessOk(w, c) && Queueable(w, c, row)
    ensures var final := Final(c)[file := row];
      AllPending(w, final, c.pending) && AllAvoid(final, c.replaced + Seen(w, c, file)) && Unshared(final)
  {
    var final := Final(c)[file := row];
    forall f | f in final
      ensures Pending(w, final[f], c.pending) && Avoids(final[f], c.replaced + Seen(w, c, file))
      ensures f != file && row.key.Some? ==> Avoids(final[f], {row.key.value})
    {
      if f == file {
        NewRowAvoids(w, c, file, row);
      } else {
        OldRowAvoids(w, c, file, f);
      }
    }
  }

  lemma NewRowAvoids(w: World, c: Process, file: File, row: Row)
    requires c.Chunk? && ProcessOk(w, c) && Queueable(w, c, row)
    ensures Avoids(row, c.replaced + Seen(w, c, file))
  {
    if row.key.Some? && file in c.flushed {
      assert Avoids(c.flushed[file], {row.key.value});
    } else if row.key.Some? && file in w.rows {
      assert Avoids(w.rows[file], Holds(c));
    }
  }

  lemma OldRowAvoids(w: World, c: Process, file: File, f: File)
    requires c.Chunk? && ProcessOk(w, c) && f in Final(c) && f != file
    ensures Pending(w, Final(c)[f], c.pending) && Avoids(Final(c)[f], c.replaced + Seen(w, c, file))
  {
    assert Pending(w, Final(c)[f], c.pending) && Avoids(Final(c)[f], c.replaced);
    if file in c.flushed && file !in c.queue {
      assert Final(c)[file] == c.flushed[file];
    } else if file !in c.flushed && file in w.rows {
      assert Avoids(w.rows[file], Holds(c));
    }
  }

  lemma {:induction false} QueueLineKeeps(w: World, p: nat)
    requires Inv(w)
    ensures Inv(QueueLineStep(w, p)) && Moves(w, QueueLineStep(w, p), p)
  {
    if CanQueue(w, p) {
      var c := w.processes[p];
      assert ProcessOk(w, c);
      QueueKeeps(w, QueueLineStep(w, p), p, c.staged.value.0, StagedRow(w, c));
    } else {
      StillMoves(w, p);
    }
  }

  lemma {:induction false} PlainLineKeeps(w: World, p: nat, file: File, data: Bytes)
    requires Inv(w)
    ensures Inv(PlainLineStep(w, p, file, data)) && Moves(w, PlainLineStep(w, p, file, data), p)
  {
    if CanQueuePlain(w, p, file) {
      QueueKeeps(w, PlainLineStep(w, p, file, data), p, file, Row(None, data));
    } else {
      StillMoves(w, p);
    }
  }

  lemma {:induction false} QueueKeeps(w: World, w': World, p: nat, file: File, row: Row)
    requires Inv(w) && p in w.processes && w.processes[p].Chunk?
    requires Queueable(w, w.processes[p], row) && Free(w, p, file)
    requires w' == With(w, p, QueueRow(w, w.processes[p], file, row)).(leaked := w'.leaked)
    ensures Inv(w') && Moves(w, w', p)
  {
    var c := w.processes[p];
    assert ProcessOk(w, c);
    QueuedOk(w, c, file, row);
    SeenIsKnown(w, p, file);
    QueuedSeparate(w, c, file, row);
    QueuedGrows(w, p, file, row);
    CarryOwn(w, w', p, QueueRow(w, c, file, row));
  }

  lemma QueuedSeparate(w: World, c: Process, file: File, row: Row)
    requires c.Chunk? && KeysSeparate(w, c)
    requires forall k :: k in Seen(w, c, file) ==> k < w.nextKey
    ensures KeysSeparate(w, QueueRow(w, c, file, row))
  {
    assert Replaces(c) == c.replaced && Replaces(QueueRow(w, c, file, row)) == c.replaced + Seen(w, c, file);
  }

  lemma QueuedGrows(w: World, p: nat, file: File, row: Row)
    requires Inv(w) && p in w.processes && w.processes[p].Chunk? && Free(w, p, file)
    requires forall k :: k in Seen(w, w.processes[p], file) ==> Known(w, w.processes[p], k)
    ensures Grows(w, p, QueueRow(w, w.processes[p], file, row))
  {
    var c := w.processes[p];
    var c' := QueueRow(w, c, file, row);
    assert Replaces(c) == c.replaced && Replaces(c') == c.replaced + Seen(w, c, file);
    forall f | f in LockedBy(c')
      ensures Free(w, p, f)
    {
      assert f in LockedBy(c) || f == file;
      if f in LockedBy(c) {
        LocksAreFree(w, p, f);
      }
    }
  }

  lemma LocksAreFree(w: World, p: nat, f: File)
    requires Inv(w) && p in w.processes && f in LockedBy(w.processes[p])
    ensures Free(w, p, f)
  {
    forall q | q in w.processes && q != p
      ensures f !in LockedBy(w.processes[q])
    {
      assert Apart(w.processes[p], w.processes[q]);
    }
  }

  lemma SeenIsKnown(w: World, p: nat, file: File)
    requires Inv(w) && p in w.processes && w.processes[p].Chunk?
    ensures var c := w.processes[p]; forall k :: k in Seen(w, c, file) ==> k < w.nextKey && Known(w, c, k)
  {
    var c := w.processes[p];
    assert ProcessOk(w, c);
    if file in c.flushed {
      assert Pending(w, c.flushed[file], c.pending);
    } else {
      KeyAtKnown(w, c, file);
    }
  }

  // A step that is none.
  lemma StillMoves(w: World, p: nat)
    requires Inv(w)
    ensures Moves(w, w, p)
  {
    if p in w.processes {
      forall f | f in LockedBy(w.processes[p])
        ensures Free(w, p, f)
      {
        LocksAreFree(w, p, f);
      }
    }
  }

  lemma FlushedOk(w: World, c: Process)
    requires c.Chunk? && ProcessOk(w, c)
    ensures var c' := c.(flushed := Final(c), queue := map[]);
      ProcessOk(w, c') && Final(c') == Final(c)
  {
    var c' := c.(flushed := Final(c), queue := map[]);
    assert Final(c') == Final(c) && Replaces(c') == Replaces(c);
  }

  lemma {:induction false} FlushChunkKeeps(w: World, p: nat)
    requires Inv(w)
    ensures Inv(FlushChunkStep(w, p)) && Moves(w, FlushChunkStep(w, p), p)
  {
    if p in w.processes && w.processes[p].Chunk? {
      var c := w.processes[p];
      FlushedOk(w, c);
      assert forall f :: f in LockedBy(c) ==> Free(w, p, f);
      assert FlushChunkStep(w, p).processes == w.processes[p := c.(flushed := Final(c), queue := map[])];
      CarryOwn(w, FlushChunkStep(w, p), p, c.(flushed := Final(c), queue := map[]));
    } else {
      StillMoves(w, p);
    }
  }

  lemma {:induction false} AbortChunkKeeps(w: World, p: nat)
    requires Inv(w)
    ensures Inv(AbortChunkStep(w, p)) && Moves(w, AbortChunkStep(w, p), p)
  {
    if p in w.processes && w.processes[p].Chunk? {
      HeldAreKnown(w, p);
      CarryDeleting(w, AbortChunkStep(w, p), p, w.processes[p].pending);
    } else {
      StillMoves(w, p);
    }
  }

  lemma {:induction false} DeleteObjectKeeps(w: World, p: nat, k: Key, deleted: bool)
    requires Inv(w)
    ensures Inv(DeleteObjectStep(w, p, k, deleted)) && Moves(w, DeleteObjectStep(w, p, k, deleted), p)
  {
    if p in w.processes && w.processes[p].Deleting? && k in w.processes[p].keys {
      assert ProcessOk(w, w.processes[p]);
      CarryDeleting(w, DeleteObjectStep(w, p, k, deleted), p, w.processes[p].keys - {k});
    } else {
      StillMoves(w, p);
    }
  }

  lemma {:induction false} CrashKeeps(w: World, p: nat)
    requires Inv(w)
    ensures Inv(CrashStep(w, p)) && Moves(w, CrashStep(w, p), p)
  {
    CarryProcess(w, CrashStep(w, p), p);
  }

  lemma {:induction false} OpenReadKeeps(w: World, p: nat, file: File)
    requires Inv(w)
    ensures Inv(OpenReadStep(w, p, file)) && Moves(w, OpenReadStep(w, p, file), p)
  {
    if p !in w.processes && file in w.rows {
      assert RowOk(w, w.rows[file]);
      CarryOwn(w, OpenReadStep(w, p, file), p, Reading(file, w.rows[file]));
    } else {
      StillMoves(w, p);
    }
  }

  lemma ReadIsOk(w: World, p: nat)
    requires Inv(w) && p in w.processes && w.processes[p].Reading?
    ensures ReaderOk(w, FetchStep(w, p).processes[p])
  {
    var c := w.processes[p];
    assert ProcessOk(w, c);
    if c.file in w.rows && w.rows[c.file].key == c.row.key {
      assert RowOk(w, w.rows[c.file]);
    }
  }

  lemma {:induction false} FetchKeeps(w: World, p: nat)
    requires Inv(w)
    ensures Inv(FetchStep(w, p)) && Moves(w, FetchStep(w, p), p)
  {
    var w' := FetchStep(w, p);
    if w' != w {
      var c := w.processes[p];
      assert ProcessOk(w, c);
      ReadIsOk(w, p);
      CarryOwn(w, w', p, w'.processes[p]);
    } else {
      StillMoves(w, p);
    }
  }

  lemma {:induction false} SwapKeeps(w: World, p: nat, committed: bool)
    requires Inv(w)
    ensures Inv(SwapStep(w, p, committed)) && Moves(w, SwapStep(w, p, committed), p)
  {
    var w' := SwapStep(w, p, committed);
    if w' != w {
      HeldAreKnown(w, p);
      if committed {
        SwappedRows(w, p);
        SwappedOwn(w, p);
        Carry(w, w', p);
      } else {
        CarryDeleting(w, w', p, {w.processes[p].key});
      }
    } else {
      StillMoves(w, p);
    }
  }

  predicate CanSwap(w: World, p: nat) {
    && p in w.processes && w.processes[p].Uploading?
    && Free(w, p, w.processes[p].file) && w.processes[p].key in w.content
  }

  lemma SwappedRows(w: World, p: nat)
    requires Inv(w) && CanSwap(w, p)
    ensures var w' := SwapStep(w, p, true); RowsOk(w') && Behaves(w, w', p)
  {
    var c := w.processes[p];
    var w' := SwapStep(w, p, true);
    assert KeysSeparate(w, c) by {
      assert ProcessOk(w, c);
    }
    forall f | f in w'.rows
      ensures RowMove(w, w', p, f) && RowOk(w', w'.rows[f])
    {
      assert f != c.file ==> RowOk(w, w.rows[f]) && Avoids(w.rows[f], Holds(c));
    }
  }

  lemma SwappedOwn(w: World, p: nat)
    requires Inv(w) && CanSwap(w, p)
    ensures var w' := SwapStep(w, p, true); ProcessOk(w', w'.processes[p]) && Grows(w, p, w'.processes[p])
  {
    var c := w.processes[p];
    assert KeysSeparate(w, c) by {
      assert ProcessOk(w, c);
    }
    KeyAtKnown(w, c, c.file);
    SwappedOutAvoided(w, p);
  }

  lemma KeyAtKnown(w: World, c: Process, f: File)
    requires KeysOk(w) && RowsOk(w)
    ensures forall k :: k in KeyAt(w.rows, f) ==> k < w.nextKey && Known(w, c, k)
  {
    forall k | k in KeyAt(w.rows, f)
      ensures k < w.nextKey && Known(w, c, k)
    {
      assert RowOk(w, w.rows[f]) && !Avoids(w.rows[f], {k});
    }
  }

  lemma SwappedOutAvoided(w: World, p: nat)
    requires Inv(w) && CanSwap(w, p)
    ensures AllAvoid(SwapStep(w, p, true).rows, KeyAt(w.rows, w.processes[p].file))
  {
    assert ProcessOk(w, w.processes[p]);
  }

  lemma {:induction false} PlainUploadKeeps(w: World, p: nat, file: File, data: Bytes)
    requires Inv(w)
    ensures Inv(PlainUploadStep(w, p, file, data)) && Moves(w, PlainUploadStep(w, p, file, data), p)
  {
    PlainUploadBehaves(w, p, file, data);
    Carry(w, PlainUploadStep(w, p, file, data), p);
  }

  lemma PlainUploadBehaves(w: World, p: nat, file: File, data: Bytes)
    requires Inv(w)
    ensures var w' := PlainUploadStep(w, p, file, data); RowsOk(w') && Behaves(w, w', p)
  {
    var w' := PlainUploadStep(w, p, file, data);
    forall f | f in w'.rows
      ensures RowMove(w, w', p, f) && RowOk(w', w'.rows[f])
    {
      assert f in w.rows ==> RowOk(w, w.rows[f]);
    }
  }

  lemma {:induction false} CommitChunkKeeps(w: World, p: nat, committed: bool)
    requires Inv(w)
    ensures Inv(CommitChunkStep(w, p, committed)) && Moves(w, CommitChunkStep(w, p, committed), p)
  {
    if CommitChunkStep(w, p, committed) != w {
      if committed {
        CommittedKeeps(w, p);
      } else {
        HeldAreKnown(w, p);
        CarryDeleting(w, CommitChunkStep(w, p, false), p, w.processes[p].pending);
      }
    } else {
      StillMoves(w, p);
    }
  }

  lemma CommittedKeeps(w: World, p: nat)
    requires Inv(w) && CommitChunkStep(w, p, true) != w
    ensures Inv(CommitChunkStep(w, p, true)) && Moves(w, CommitChunkStep(w, p, true), p)
  {
    var w' := CommitChunkStep(w, p, true);
    CommittedBehaves(w, p);
    CommittedOwn(w, w', p);
    Carry(w, w', p);
  }

  lemma CommittedBehaves(w: World, p: nat)
    requires Inv(w) && CommitChunkStep(w, p, true) != w
    ensures var w' := CommitChunkStep(w, p, true);
      RowsOk(w') && Behaves(w, w', p) && AllAvoid(w'.rows, w.processes[p].replaced)
  {
    CommittedRows(w, p);
    CommittedMoves(w, p);
  }

  lemma CommittedMoves(w: World, p: nat)
    requires CommitChunkStep(w, p, true) != w
    requires var c := w.processes[p]; var rows := w.rows + c.flushed;
      forall f :: f in rows ==>
        && RowOk(w, rows[f])
        && (f in c.flushed ==> Free(w, p, f) && (rows[f].key.Some? ==> rows[f].key.value in c.pending))
    ensures var w' := CommitChunkStep(w, p, true);
      Behaves(w, w', p) && forall f :: f in w'.rows ==> RowOk(w', w'.rows[f])
  {
    var w' := CommitChunkStep(w, p, true);
    forall f | f in w'.rows
      ensures RowMove(w, w', p, f) && RowOk(w', w'.rows[f])
    {
      assert RowOk(w, w'.rows[f]);
    }
  }

  lemma CommittedOwn(w: World, w': World, p: nat)
    requires Inv(w) && p in w.processes && w.processes[p].Chunk? && AllAvoid(w'.rows, w.processes[p].replaced)
    requires w'.nextKey == w.nextKey
    ensures var c' := Deleting(if w.processes[p].blobs then w.processes[p].replaced else {});
      ProcessOk(w', c') && Grows(w, p, c')
  {
    assert KeysSeparate(w, w.processes[p]) && Replaces(w.processes[p]) == w.processes[p].replaced by {
      assert ProcessOk(w, w.processes[p]);
    }
  }

  lemma CommittedRows(w: World, p: nat)
    requires Inv(w) && p in w.processes && w.processes[p].Chunk? && w.processes[p].queue == map[]
    ensures var c := w.processes[p]; var rows := w.rows + c.flushed;
      && AllAvoid(rows, c.replaced) && Unshared(rows)
      && forall f :: f in rows ==>
        && RowOk(w, rows[f])
        && (f in c.flushed ==> Free(w, p, f) && (rows[f].key.Some? ==> rows[f].key.value in c.pending))
  {
    var c := w.processes[p];
    var rows := w.rows + c.flushed;
    assert ProcessOk(w, c) && Final(c) == c.flushed;
    forall f | f in rows
      ensures RowOk(w, rows[f]) && Avoids(rows[f], c.replaced)
      ensures f in c.flushed ==> Free(w, p, f) && (rows[f].key.Some? ==> rows[f].key.value in c.pending)
      ensures f !in c.flushed ==> Avoids(rows[f], c.pending)
    {
      if f in c.flushed {
        assert Pending(w, c.flushed[f], c.pending) && f in LockedBy(c);
      } else {
        assert RowOk(w, w.rows[f]) && Avoids(w.rows[f], Holds(c));
      }
    }
  }

  lemma {:induction false} DeleteFilesKeeps(w: World, p: nat, files: set<File>)
    requires Inv(w)
    ensures Inv(DeleteFilesStep(w, p, files)) && Moves(w, DeleteFilesStep(w, p, files), p)
  {
    if p !in w.processes {
      var keys := KeysOf(w.rows, files);
      forall k | k in keys
        ensures k < w.nextKey && Known(w, Mine(w, p), k)
      {
        var f :| f in files && f in w.rows && w.rows[f].key == Some(k);
        assert RowOk(w, w.rows[f]) && !Avoids(w.rows[f], {k});
      }
      Carry(w, DeleteFilesStep(w, p, files), p);
    } else {
      StillMoves(w, p);
    }
  }

  lemma {:induction false} NextKeeps(w: World, step: Step)
    requires Inv(w)
    ensures Inv(Next(w, step)) && Moves(w, Next(w, step), step.p)
  {
    match step
    case PutUpload(p, file, data, outcome) => PutUploadKeeps(w, p, file, data, outcome);
    case Swap(p, committed) => SwapKeeps(w, p, committed);
    case PlainUpload(p, file, data) => PlainUploadKeeps(w, p, file, data);
    case OpenChunk(p, blobs) => OpenChunkKeeps(w, p, blobs);
    case PutLine(p, file, data, outcome) => PutLineKeeps(w, p, file, data, outcome);
    case QueueLine(p) => QueueLineKeeps(w, p);
    case PlainLine(p, file, data) => PlainLineKeeps(w, p, file, data);
    case FlushChunk(p) => FlushChunkKeeps(w, p);
    case CommitChunk(p, committed) => CommitChunkKeeps(w, p, committed);
    case AbortChunk(p) => AbortChunkKeeps(w, p);
    case DeleteFiles(p, files) => DeleteFilesKeeps(w, p, files);
    case DeleteObject(p, k, deleted) => DeleteObjectKeeps(w, p, k, deleted);
    case Crash(p) => CrashKeeps(w, p);
    case OpenRead(p, file) => OpenReadKeeps(w, p, file);
    case Fetch(p) => FetchKeeps(w, p);
  }

  lemma {:induction false} RunKeeps(w: World, steps: seq<Step>)
    requires Inv(w)
    ensures Inv(Run(w, steps))
    decreases |steps|
  {
    if steps != [] {
      NextKeeps(w, steps[0]);
      RunKeeps(Next(w, steps[0]), steps[1..]);
    }
  }

  /* ---- the theorems ---- */

  // In every state of every run: a committed row that carries a blob key names a
  // present object holding that row's bytes, and no other row shares the key.
  lemma RowsHaveTheirObjects(steps: seq<Step>, f: File)
    requires var w := Run(Init(), steps); f in w.rows && w.rows[f].key.Some?
    ensures var w := Run(Init(), steps); var k := w.rows[f].key.value;
      && k in w.objects && w.objects[k] == w.rows[f].bytes
      && forall g :: g in w.rows && w.rows[g].key == Some(k) ==> g == f
  {
    RunKeeps(Init(), steps);
    var w := Run(Init(), steps);
    assert RowOk(w, w.rows[f]);
  }

  // An object is only deleted when no row names it, and none ever will: the
  // key is no process's to give to a row either.
  lemma DeletedIsUnreferenced(steps: seq<Step>, p: nat, k: Key)
    requires var w := Run(Init(), steps); p in w.processes && k in Dooms(w.processes[p])
    ensures var w := Run(Init(), steps); AllAvoid(w.rows, {k})
    ensures var w := Run(Init(), steps); forall q :: q in w.processes ==> k !in Holds(w.processes[q])
  {
    RunKeeps(Init(), steps);
    var w := Run(Init(), steps);
    assert ProcessOk(w, w.processes[p]);
    forall q | q in w.processes
      ensures k !in Holds(w.processes[q])
    {
      assert p != q ==> Apart(w.processes[p], w.processes[q]);
    }
  }

  // What an import line stores: with a blob store the line's own object holds its
  // bytes and the committed row names it, without one the row holds them.
  lemma {:induction false} ImportStoresLine(w: World, p: nat, file: File, data: Bytes)
    requires Inv(w) && CanPut(w, p) && Free(w, p, file)
    ensures var queued := QueueLineStep(PutLineStep(w, p, file, data, PutDone), p);
      var w' := CommitChunkStep(FlushChunkStep(queued, p), p, true);
      && file in w'.rows && w'.rows[file] == Row(Some(w.nextKey), data)
      && w.nextKey in w'.objects && w'.objects[w.nextKey] == data
  {
    var put := PutLineStep(w, p, file, data, PutDone);
    assert CanQueue(put, p);
    var queued := QueueLineStep(put, p);
    assert queued.processes[p].queue[file] == Row(Some(w.nextKey), data);
    var flushed := FlushChunkStep(queued, p);
    assert flushed.processes[p].flushed[file] == Row(Some(w.nextKey), data);
  }

  lemma {:induction false} PlainImportStoresLine(w: World, p: nat, file: File, data: Bytes)
    requires CanQueuePlain(w, p, file)
    ensures var w' := CommitChunkStep(FlushChunkStep(PlainLineStep(w, p, file, data), p), p, true);
      file in w'.rows && w'.rows[file] == Row(None, data)
  {
    var queued := PlainLineStep(w, p, file, data);
    assert queued.processes[p].queue[file] == Row(None, data);
    assert FlushChunkStep(queued, p).processes[p].flushed[file] == Row(None, data);
  }

  // So does an upload without a blob store.
  lemma PlainUploadStoresFile(w: World, p: nat, file: File, data: Bytes)
    requires p !in w.processes
    ensures var w' := PlainUploadStep(w, p, file, data);
      && file in w'.rows && w'.rows[file] == Row(None, data) && w'.rows - {file} == w.rows - {file}
      && w'.objects == w.objects && w'.processes == w.processes
  {
  }

  // A two-step read returns the bytes of the row it read, or not-found because
  // that row has moved to another key or gone.
  lemma ReadsAreExact(steps: seq<Step>, p: nat)
    requires var w := Run(Init(), steps); p in w.processes && w.processes[p].Read?
    ensures var r := Run(Init(), steps).processes[p];
      r.got == Some(r.row.bytes) || (r.got == None && r.changed)
  {
    RunKeeps(Init(), steps);
    assert ProcessOk(Run(Init(), steps), Run(Init(), steps).processes[p]);
  }
}
