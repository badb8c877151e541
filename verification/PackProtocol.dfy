/**
 * Event payloads in the blob store: the spool that ingest fills, the packers
 * that move it into objects, the week sweep and the two-step reader, as one
 * state machine. A step is one transaction, one auto-commit statement or one
 * blob-store call; any number of packers, sweepers and readers interleave, and
 * any packer or sweeper may crash between two of its steps.
 */
module PackProtocol {
  import opened Blobs
  import opened Calendar
  import opened Options
  import opened Sorting
  import opened Tables

  const PACK_BYTES := 8 * 0x10_0000
  const PACK_ROWS := 4096

  newtype Byte = x: int | 0 <= x < 256
  // A bytea column holds at most 1 GB; gzip output is never empty.
  type Payload = s: seq<Byte> | 0 < |s| <= 0x4000_0000 witness [0]

  predicate ByTime(a: EventKey, b: EventKey) {
    a.project < b.project ||
    (a.project == b.project && (a.at < b.at || (a.at == b.at && a.id < b.id)))
  }

  datatype EventRow = EventRow(column: Option<Payload>)
  datatype SpoolRow = SpoolRow(data: Payload, created: int)
  datatype Place = Place(pack: nat, off: int, len: int)
  datatype PackRow = PackRow(project: int, week: int, bytes: int)
  datatype BlobKey = PackKey(project: int, week: int, pack: nat)

  // The tables events, payload_spool, event_packs and packs.
  datatype Db = Db(
    events: map<EventKey, EventRow>,
    spool: map<EventKey, SpoolRow>,
    places: map<EventKey, Place>,
    packs: map<nat, PackRow>,
    nextPack: nat)

  type Objects = map<BlobKey, seq<Byte>>

  /* ---- one pack: which rows go in, and where ---- */

  datatype Entry = Entry(key: EventKey, off: int, len: int)
  datatype Cut = Cut(buf: seq<Byte>, entries: seq<Entry>)

  // Go's int32(x) conversion.
  function Int32(x: int): int {
    (x + 0x8000_0000) % 0x1_0000_0000 - 0x8000_0000
  }

  function GroupKeys(spool: map<EventKey, SpoolRow>, project: int, week: int): set<EventKey> {
    set k | k in spool && k.project == project && week <= k.at < week + WEEK
  }

  // SpoolRows: the group's first rows in (occurred_at, event_id) order.
  function SpoolRows(spool: map<EventKey, SpoolRow>, project: int, week: int): (rows: seq<EventKey>)
    ensures forall k :: k in rows ==> k in GroupKeys(spool, project, week)
    ensures Ascending(rows, ByTime)
    ensures |rows| == 0 <==> GroupKeys(spool, project, week) == {}
  {
    var all := Sorted(GroupKeys(spool, project, week), ByTime);
    assert |all| == 0 ==> forall k :: k !in GroupKeys(spool, project, week);
    if |all| <= PACK_ROWS then all else all[..PACK_ROWS]
  }

  predicate Full(buf: seq<Byte>, data: seq<Byte>) {
    |buf| > 0 && |buf| + |data| > PACK_BYTES
  }

  // The rows of packOne's loop, taken until the pack is full.
  function Add(c: Cut, k: EventKey, data: seq<Byte>): Cut {
    Cut(c.buf + data, c.entries + [Entry(k, Int32(|c.buf|), Int32(|data|))])
  }

  function Fill(c: Cut, spool: map<EventKey, SpoolRow>, rows: seq<EventKey>): Cut
    requires forall k :: k in rows ==> k in spool
    decreases |rows|
  {
    if rows == [] || Full(c.buf, spool[rows[0]].data) then c
    else Fill(Add(c, rows[0], spool[rows[0]].data), spool, rows[1..])
  }

  function CutOf(spool: map<EventKey, SpoolRow>, project: int, week: int): Cut {
    Fill(Cut([], []), spool, SpoolRows(spool, project, week))
  }

  // The transaction's upserts into event_packs, in order.
  function Placed(places: map<EventKey, Place>, pack: nat, entries: seq<Entry>): map<EventKey, Place> {
    if entries == [] then places
    else
      var e := entries[|entries| - 1];
      Placed(places, pack, entries[..|entries| - 1])[e.key := Place(pack, e.off, e.len)]
  }

  function CutKeys(entries: seq<Entry>): set<EventKey> {
    set i | 0 <= i < |entries| :: entries[i].key
  }

  /* ---- tables ---- */

  // ON DELETE CASCADE takes the pack's places with it.
  function DeletePack(db: Db, pack: nat): Db {
    db.(packs := db.packs - {pack},
        places := map k | k in db.places && db.places[k].pack != pack :: db.places[k])
  }

  // InsertEventPacks, DeleteSpoolRows, SetPackBytes in one transaction.
  function CommitTables(db: Db, pack: nat, cut: Cut): Db
    requires pack in db.packs
  {
    db.(places := Placed(db.places, pack, cut.entries),
        spool := db.spool - CutKeys(cut.entries),
        packs := db.packs[pack := db.packs[pack].(bytes := |cut.buf|)])
  }

  datatype Location = Spooled(data: Payload) | At(place: Place, week: int) | NoPayload

  // PayloadLocation: one statement, one snapshot.
  function Locate(db: Db, k: EventKey): Location {
    if k in db.spool then Spooled(db.spool[k].data)
    else if k in db.places && db.places[k].pack in db.packs then At(db.places[k], db.packs[db.places[k].pack].week)
    else NoPayload
  }

  datatype Got = Bytes(data: seq<Byte>) | Nothing | OutOfRange

  function GetRange(objects: Objects, key: BlobKey, off: int, len: int): Got {
    if key !in objects then Nothing
    else if off < 0 || len < 0 || off + len > |objects[key]| then OutOfRange
    else Bytes(objects[key][off..off + len])
  }

  /* ---- the state machine ---- */

  // Where packOne stands. Undoing and Forgetting are its error exits.
  datatype Packer =
    | Collected(project: int, week: int, cut: Cut)
    | Named(project: int, week: int, cut: Cut, pack: nat)
    | Stored(project: int, week: int, cut: Cut, pack: nat)
    | Undoing(project: int, week: int, pack: nat)
    | Forgetting(pack: nat)

  datatype Sweeper = Sweeper(cutoff: int, todo: map<nat, BlobKey>, gone: Option<nat>, listed: bool)

  // want and live are history: the payload ingested for the event, and
  // whether its week was unexpired when its place was looked up.
  datatype Reader =
    | Opened(key: EventKey, column: Option<Payload>)
    | Found(key: EventKey, loc: Location, want: Option<Payload>, live: bool)
    | Done(key: EventKey, got: Got, want: Option<Payload>, live: bool, late: bool)

  datatype World = World(
    db: Db,
    objects: Objects,
    packers: map<nat, Packer>,
    sweepers: map<nat, Sweeper>,
    readers: map<nat, Reader>,
    horizon: int,                      // the latest cutoff a sweep has used
    sent: map<EventKey, Payload>)      // history: the payload each event row was ingested with

  datatype PackerCall =
    | Collect(project: int, day: int)
    | NamePack
    | PutObject(outcome: PutOutcome)
    | CommitPack(committed: bool)
    | UndoObject(deleted: bool)
    | UndoRow(deleted: bool)
    | CrashPacker

  datatype SweeperCall =
    | DropWeeks(cutoff: int)
    | ListExpired
    | SweepObject(pack: nat, deleted: bool)
    | SweepRow
    | SweepSpool
    | CrashSweeper

  datatype ReaderCall = OpenEvent(k: EventKey) | FindPayload | FetchPayload

  datatype Step =
    | Ingest(k: EventKey, payload: Option<Payload>, inColumn: bool, now: int)
    | ByPacker(p: nat, packing: PackerCall)
    | BySweeper(q: nat, sweeping: SweeperCall)
    | ByReader(r: nat, reading: ReaderCall)

  function Init(): World {
    World(Db(map[], map[], map[], map[], 0), map[], map[], map[], map[], 0, map[])
  }

  predicate Unexpired(w: World, k: EventKey) {
    !WeekExpired(WeekStart(k.at), w.horizon)
  }

  // insertEventSpoolSQL: a conflict inserts nothing; a leftover spool row of
  // an expired event fails the transaction.
  function IngestStep(w: World, k: EventKey, payload: Option<Payload>, inColumn: bool, now: int): World {
    if k in w.db.events || (payload.Some? && !inColumn && k in w.db.spool) then w
    else
      var db := w.db.(events := w.db.events[k := EventRow(if inColumn then payload else None)]);
      var db' := if payload.Some? && !inColumn
                 then db.(spool := db.spool[k := SpoolRow(payload.value, now)]) else db;
      w.(db := db', sent := if payload.Some? then w.sent[k := payload.value] else w.sent - {k})
  }

  function KeyOf(p: Packer): BlobKey
    requires p.Named? || p.Stored? || p.Undoing?
  {
    PackKey(p.project, p.week, p.pack)
  }

  function CollectStep(w: World, id: nat, project: int, day: int): World {
    var week := WeekStart(day);
    if id in w.packers || GroupKeys(w.db.spool, project, week) == {} then w
    else w.(packers := w.packers[id := Collected(project, week, CutOf(w.db.spool, project, week))])
  }

  function NamePackStep(w: World, id: nat): World {
    if id !in w.packers || !w.packers[id].Collected? then w
    else
      var p := w.packers[id];
      var packs := w.db.packs[w.db.nextPack := PackRow(p.project, p.week, 0)];
      w.(db := w.db.(packs := packs, nextPack := w.db.nextPack + 1),
         packers := w.packers[id := Named(p.project, p.week, p.cut, w.db.nextPack)])
  }

  // A refused Put deletes the packs row; the object may have been written anyway.
  function PutObjectStep(w: World, id: nat, outcome: PutOutcome): World {
    if id !in w.packers || !w.packers[id].Named? then w
    else
      var p := w.packers[id];
      w.(objects := if outcome.PutRefused? then w.objects else w.objects[KeyOf(p) := p.cut.buf],
         packers := w.packers[id :=
           if outcome.PutDone? then Stored(p.project, p.week, p.cut, p.pack) else Forgetting(p.pack)])
  }

  // A commit that reports an error changed nothing; a missing packs row is
  // refused by event_packs' foreign key.
  function CommitPackStep(w: World, id: nat, committed: bool): World {
    if id !in w.packers || !w.packers[id].Stored? then w
    else
      var p := w.packers[id];
      if committed && p.pack in w.db.packs then
        w.(db := CommitTables(w.db, p.pack, p.cut), packers := w.packers - {id})
      else
        w.(packers := w.packers[id := Undoing(p.project, p.week, p.pack)])
  }

  function UndoObjectStep(w: World, id: nat, deleted: bool): World {
    if id !in w.packers || !w.packers[id].Undoing? then w
    else
      var p := w.packers[id];
      w.(objects := if deleted then w.objects - {KeyOf(p)} else w.objects,
         packers := w.packers[id := Forgetting(p.pack)])
  }

  function UndoRowStep(w: World, id: nat, deleted: bool): World {
    if id !in w.packers || !w.packers[id].Forgetting? then w
    else
      w.(db := if deleted then DeletePack(w.db, w.packers[id].pack) else w.db, packers := w.packers - {id})
  }

  function CrashPackerStep(w: World, id: nat): World {
    w.(packers := w.packers - {id})
  }

  function DropWeeksStep(w: World, id: nat, cutoff: int): World {
    if id in w.sweepers then w
    else
      var events := map k | k in w.db.events && !WeekExpired(WeekStart(k.at), cutoff) :: w.db.events[k];
      w.(db := w.db.(events := events),
         horizon := if cutoff > w.horizon then cutoff else w.horizon,
         sweepers := w.sweepers[id := Sweeper(cutoff, map[], None, false)])
  }

  function ListExpiredStep(w: World, id: nat): World {
    if id !in w.sweepers || w.sweepers[id].listed then w
    else
      var q := w.sweepers[id];
      var todo := map n | n in w.db.packs && SweepRule(w.db.packs[n].week, q.cutoff) ::
        PackKey(w.db.packs[n].project, w.db.packs[n].week, n);
      w.(sweepers := w.sweepers[id := Sweeper(q.cutoff, todo, q.gone, true)])
  }

  function SweepObjectStep(w: World, id: nat, pack: nat, deleted: bool): World {
    if id !in w.sweepers || w.sweepers[id].gone.Some? || pack !in w.sweepers[id].todo then w
    else
      var q := w.sweepers[id];
      w.(objects := if deleted then w.objects - {q.todo[pack]} else w.objects,
         sweepers := w.sweepers[id :=
           Sweeper(q.cutoff, q.todo - {pack}, if deleted then Some(pack) else None, q.listed)])
  }

  function SweepRowStep(w: World, id: nat): World {
    if id !in w.sweepers || w.sweepers[id].gone.None? then w
    else
      var q := w.sweepers[id];
      w.(db := DeletePack(w.db, q.gone.value), sweepers := w.sweepers[id := Sweeper(q.cutoff, q.todo, None, q.listed)])
  }

  function SweepSpoolStep(w: World, id: nat): World {
    if id !in w.sweepers || !w.sweepers[id].listed || w.sweepers[id].gone.Some? || w.sweepers[id].todo != map[] then w
    else
      var cutoff := w.sweepers[id].cutoff;
      var spool := map k | k in w.db.spool && !SweepRule(WeekStart(k.at), cutoff) :: w.db.spool[k];
      w.(db := w.db.(spool := spool), sweepers := w.sweepers - {id})
  }

  function CrashSweeperStep(w: World, id: nat): World {
    w.(sweepers := w.sweepers - {id})
  }

  function OpenEventStep(w: World, id: nat, k: EventKey): World {
    if id in w.readers || k !in w.db.events then w
    else w.(readers := w.readers[id := Opened(k, w.db.events[k].column)])
  }

  function FindPayloadStep(w: World, id: nat): World {
    if id !in w.readers || !w.readers[id].Opened? then w
    else
      var k := w.readers[id].key;
      var column := w.readers[id].column;
      var want := if k in w.sent then Some(w.sent[k]) else None;
      var loc := if column.Some? then Spooled(column.value) else Locate(w.db, k);
      w.(readers := w.readers[id := Found(k, loc, want, k in w.db.events && Unexpired(w, k))])
  }

  function Fetch(objects: Objects, k: EventKey, loc: Location): Got {
    match loc
    case Spooled(data) => Bytes(data)
    case NoPayload => Nothing
    case At(place, week) => GetRange(objects, PackKey(k.project, week, place.pack), place.off, place.len)
  }

  function FetchPayloadStep(w: World, id: nat): World {
    if id !in w.readers || !w.readers[id].Found? then w
    else
      var r := w.readers[id];
      w.(readers := w.readers[id := Done(r.key, Fetch(w.objects, r.key, r.loc), r.want, r.live, !Unexpired(w, r.key))])
  }

  function PackerNext(w: World, p: nat, call: PackerCall): World {
    match call
    case Collect(project, day) => CollectStep(w, p, project, day)
    case NamePack => NamePackStep(w, p)
    case PutObject(outcome) => PutObjectStep(w, p, outcome)
    case CommitPack(committed) => CommitPackStep(w, p, committed)
    case UndoObject(deleted) => UndoObjectStep(w, p, deleted)
    case UndoRow(deleted) => UndoRowStep(w, p, deleted)
    case CrashPacker => CrashPackerStep(w, p)
  }

  function SweeperNext(w: World, q: nat, call: SweeperCall): World {
    match call
    case DropWeeks(cutoff) => DropWeeksStep(w, q, cutoff)
    case ListExpired => ListExpiredStep(w, q)
    case SweepObject(pack, deleted) => SweepObjectStep(w, q, pack, deleted)
    case SweepRow => SweepRowStep(w, q)
    case SweepSpool => SweepSpoolStep(w, q)
    case CrashSweeper => CrashSweeperStep(w, q)
  }

  function ReaderNext(w: World, r: nat, call: ReaderCall): World {
    match call
    case OpenEvent(k) => OpenEventStep(w, r, k)
    case FindPayload => FindPayloadStep(w, r)
    case FetchPayload => FetchPayloadStep(w, r)
  }

  function Next(w: World, s: Step): World {
    match s
    case Ingest(k, payload, inColumn, now) => IngestStep(w, k, payload, inColumn, now)
    case ByPacker(p, call) => PackerNext(w, p, call)
    case BySweeper(q, call) => SweeperNext(w, q, call)
    case ByReader(r, call) => ReaderNext(w, r, call)
  }

  function Run(w: World, steps: seq<Step>): World
    decreases |steps|
  {
    if steps == [] then w else Run(Next(w, steps[0]), steps[1..])
  }

  /* ---- what a cut is ---- */

  // The entries tile the buffer: each starts where the one before it ends.
  ghost predicate Tiles(c: Cut) {
    && (forall i :: 0 <= i < |c.entries| ==>
          && c.entries[i].len >= 0
          && c.entries[i].off == (if i == 0 then 0 else c.entries[i - 1].off + c.entries[i - 1].len))
    && |c.buf| == (if |c.entries| == 0 then 0 else c.entries[|c.entries| - 1].off + c.entries[|c.entries| - 1].len)
  }

  ghost predicate EntryHolds(buf: seq<Byte>, e: Entry, data: seq<Byte>) {
    0 <= e.off && 0 <= e.len && e.off + e.len <= |buf| && buf[e.off..e.off + e.len] == data
  }

  ghost predicate CutHolds(c: Cut, spool: map<EventKey, SpoolRow>) {
    forall i :: 0 <= i < |c.entries| ==>
      c.entries[i].key in spool && EntryHolds(c.buf, c.entries[i], spool[c.entries[i].key].data)
  }

  ghost predicate CutSound(c: Cut, spool: map<EventKey, SpoolRow>) {
    && Tiles(c) && CutHolds(c, spool)
    && (|c.buf| <= PACK_BYTES || |c.entries| == 1)
  }

  lemma EntryKept(buf: seq<Byte>, more: seq<Byte>, e: Entry, data: seq<Byte>)
    requires EntryHolds(buf, e, data)
    ensures EntryHolds(buf + more, e, data)
  {
    assert (buf + more)[e.off..e.off + e.len] == buf[e.off..e.off + e.len];
  }

  lemma AddTiles(c: Cut, k: EventKey, data: Payload)
    requires Tiles(c) && |c.buf| <= PACK_BYTES
    ensures Tiles(Add(c, k, data))
    ensures EntryHolds(c.buf + data, Entry(k, Int32(|c.buf|), Int32(|data|)), data)
  {
    assert Int32(|c.buf|) == |c.buf| && Int32(|data|) == |data|;
    assert (c.buf + data)[|c.buf|..|c.buf| + |data|] == data;
  }

  lemma {:induction false} AddSound(c: Cut, spool: map<EventKey, SpoolRow>, k: EventKey)
    requires CutSound(c, spool) && k in spool && !Full(c.buf, spool[k].data)
    ensures CutSound(Add(c, k, spool[k].data), spool)
  {
    var data := spool[k].data;
    if |c.entries| == 1 {
      assert EntryHolds(c.buf, c.entries[0], spool[c.entries[0].key].data);
    }
    AddTiles(c, k, data);
    forall i | 0 <= i < |c.entries|
      ensures EntryHolds(c.buf + data, c.entries[i], spool[c.entries[i].key].data)
    {
      EntryKept(c.buf, data, c.entries[i], spool[c.entries[i].key].data);
    }
  }

  // The int32 columns never wrap, the entries tile the object, each range is
  // exactly its payload, and a pack over PACK_BYTES holds a single payload.
  lemma {:induction false} FillSound(c: Cut, spool: map<EventKey, SpoolRow>, rows: seq<EventKey>)
    requires forall k :: k in rows ==> k in spool
    requires CutSound(c, spool)
    ensures CutSound(Fill(c, spool, rows), spool)
    decreases |rows|
  {
    if rows != [] && !Full(c.buf, spool[rows[0]].data) {
      AddSound(c, spool, rows[0]);
      FillSound(Add(c, rows[0], spool[rows[0]].data), spool, rows[1..]);
    }
  }

  // The rows taken are a prefix of the rows read, cut only where the next one
  // would not fit.
  lemma {:induction false} FillTakesPrefix(c: Cut, spool: map<EventKey, SpoolRow>, rows: seq<EventKey>)
    requires forall k :: k in rows ==> k in spool
    ensures var f := Fill(c, spool, rows);
      && c.entries <= f.entries && |f.entries| <= |c.entries| + |rows|
      && (forall i :: |c.entries| <= i < |f.entries| ==> f.entries[i].key == rows[i - |c.entries|])
      && (|f.entries| < |c.entries| + |rows| ==> Full(f.buf, spool[rows[|f.entries| - |c.entries|]].data))
    decreases |rows|
  {
    if rows != [] && !Full(c.buf, spool[rows[0]].data) {
      FillTakesPrefix(Add(c, rows[0], spool[rows[0]].data), spool, rows[1..]);
    }
  }
}
