/**
 * Crash safety of the payload packs: what every step of PackProtocol keeps,
 * and what that gives a reader in any run.
 */
module PackSafety {
  import opened Blobs
  import opened Calendar
  import opened Options
  import opened Tables
  import opened PackProtocol

  /* ---- the invariant ---- */

  // The object named by a place holds exactly the payload in the place's range.
  ghost predicate Holds(objects: Objects, key: BlobKey, place: Place, data: seq<Byte>) {
    key in objects && GetRange(objects, key, place.off, place.len) == Bytes(data)
  }

  function PlaceKey(k: EventKey, place: Place): BlobKey {
    PackKey(k.project, WeekStart(k.at), place.pack)
  }

  // The pack id a packer owns, from InsertPack to the commit or the undo.
  function Owned(p: Packer): Option<nat> {
    if p.Collected? then None else Some(p.pack)
  }

  ghost predicate Unowned(w: World, pack: nat) {
    pack < w.db.nextPack && forall p :: p in w.packers ==> Owned(w.packers[p]) != Some(pack)
  }

  ghost predicate PackIdsOk(w: World) {
    && (forall n :: n in w.db.packs ==> n < w.db.nextPack)
    && (forall p :: p in w.packers && Owned(w.packers[p]).Some? ==> Owned(w.packers[p]).value < w.db.nextPack)
    && (forall p, q :: p in w.packers && q in w.packers && p != q && Owned(w.packers[p]).Some? ==>
          Owned(w.packers[p]) != Owned(w.packers[q]))
  }

  ghost predicate SpoolOk(w: World) {
    forall k :: k in w.db.spool && Unexpired(w, k) ==>
      k in w.db.events && k in w.sent && w.db.spool[k].data == w.sent[k] && w.db.events[k].column.None?
  }

  ghost predicate PlaceOk(w: World, k: EventKey)
    requires k in w.db.places
  {
    var place := w.db.places[k];
    && place.pack in w.db.packs && Unowned(w, place.pack)
    && w.db.packs[place.pack].project == k.project && w.db.packs[place.pack].week == WeekStart(k.at)
    && (Unexpired(w, k) ==>
          && k in w.db.events && k in w.sent && w.db.events[k].column.None?
          && Holds(w.objects, PlaceKey(k, place), place, w.sent[k]))
  }

  ghost predicate PlacesOk(w: World) {
    forall k :: k in w.db.places ==> PlaceOk(w, k)
  }

  // An unexpired payload is in its column, in the spool, or in a pack.
  ghost predicate Kept(w: World, k: EventKey)
    requires k in w.db.events && k in w.sent
  {
    w.db.events[k].column == Some(w.sent[k]) ||
    (w.db.events[k].column.None? && (k in w.db.spool || k in w.db.places))
  }

  ghost predicate EventsOk(w: World) {
    forall k :: k in w.db.events && Unexpired(w, k) ==>
      if k in w.sent then Kept(w, k) else w.db.events[k].column.None?
  }

  ghost predicate CutEntryOk(w: World, project: int, week: int, cut: Cut, e: Entry) {
    && e.key.project == project && WeekStart(e.key.at) == week
    && (Unexpired(w, e.key) ==>
          && e.key in w.db.events && e.key in w.sent && w.db.events[e.key].column.None?
          && EntryHolds(cut.buf, e, w.sent[e.key]))
  }

  ghost predicate CutOk(w: World, project: int, week: int, cut: Cut) {
    forall i :: 0 <= i < |cut.entries| ==> CutEntryOk(w, project, week, cut, cut.entries[i])
  }

  ghost predicate PackerOk(w: World, p: Packer) {
    match p
    case Collected(project, week, cut) => CutOk(w, project, week, cut)
    case Named(project, week, cut, pack) =>
      && CutOk(w, project, week, cut)
      && (pack in w.db.packs ==> w.db.packs[pack].project == project && w.db.packs[pack].week == week)
    case Stored(project, week, cut, pack) =>
      && CutOk(w, project, week, cut)
      && (pack in w.db.packs ==> w.db.packs[pack].project == project && w.db.packs[pack].week == week)
      && (!WeekExpired(week, w.horizon) ==> KeyOf(p) in w.objects && w.objects[KeyOf(p)] == cut.buf)
    case Undoing(_, _, _) => true
    case Forgetting(_) => true
  }

  ghost predicate PackersOk(w: World) {
    forall p :: p in w.packers ==> PackerOk(w, w.packers[p])
  }

  ghost predicate PackGone(w: World, n: nat) {
    n < w.db.nextPack && (n in w.db.packs ==> WeekExpired(w.db.packs[n].week, w.horizon))
  }

  // A sweep only ever holds packs of expired weeks.
  ghost predicate SweeperOk(w: World, q: Sweeper) {
    && q.cutoff <= w.horizon
    && (forall n :: n in q.todo ==> PackGone(w, n) && WeekExpired(q.todo[n].week, w.horizon))
    && (q.gone.Some? ==> PackGone(w, q.gone.value))
  }

  ghost predicate SweepersOk(w: World) {
    forall q :: q in w.sweepers ==> SweeperOk(w, w.sweepers[q])
  }

  // A place handed to a reader stays right as long as its object exists, and
  // the object exists as long as the week has not expired.
  ghost predicate ReaderOk(w: World, r: Reader) {
    match r
    case Opened(k, column) => Unexpired(w, k) ==>
      && k in w.db.events && w.db.events[k].column == column
    case Found(k, loc, want, live) => live ==> (
      match loc
      case Spooled(data) => want == Some(data)
      case NoPayload => want == None
      case At(place, week) =>
        && want.Some? && week == WeekStart(k.at) && Unowned(w, place.pack)
        && (Unexpired(w, k) ==> PlaceKey(k, place) in w.objects)
        && (PlaceKey(k, place) in w.objects ==> Holds(w.objects, PlaceKey(k, place), place, want.value)))
    case Done(k, got, want, live, late) => live ==>
      && (want.None? ==> got == Nothing)
      && (want.Some? ==> got == Bytes(want.value) || (got == Nothing && late))
  }

  ghost predicate ReadersOk(w: World) {
    forall r :: r in w.readers ==> ReaderOk(w, w.readers[r])
  }

  ghost predicate Inv(w: World) {
    && PackIdsOk(w) && SpoolOk(w) && PlacesOk(w) && EventsOk(w)
    && PackersOk(w) && SweepersOk(w) && ReadersOk(w)
  }

  /* ---- what a step may not disturb ---- */

  // Rows of unexpired events, and what was sent for them, stay as they are.
  ghost predicate EventsStable(w: World, w': World) {
    forall k :: k in w.db.events && Unexpired(w', k) ==>
      && k in w'.db.events && w'.db.events[k] == w.db.events[k]
      && (k in w.sent <==> k in w'.sent) && (k in w.sent ==> w'.sent[k] == w.sent[k])
  }

  // A pack row is inserted once: its project and week never change.
  ghost predicate PacksStable(w: World, w': World) {
    && w.db.nextPack <= w'.db.nextPack
    && (forall n :: n in w'.db.packs && n < w.db.nextPack ==>
          n in w.db.packs && w'.db.packs[n].project == w.db.packs[n].project
          && w'.db.packs[n].week == w.db.packs[n].week)
  }

  // An object is written once, and deleted only when its week has expired.
  ghost predicate ObjectStable(w: World, w': World, key: BlobKey) {
    && (key in w'.objects ==> key in w.objects && w'.objects[key] == w.objects[key])
    && (key in w.objects && !WeekExpired(key.week, w'.horizon) ==> key in w'.objects)
  }

  ghost predicate ObjectsStable(w: World, w': World) {
    && (forall key: BlobKey :: Unowned(w, key.pack) ==> ObjectStable(w, w', key))
    && (forall p :: p in w.packers && p in w'.packers && w.packers[p] == w'.packers[p] && w.packers[p].Stored? ==>
          ObjectStable(w, w', KeyOf(w.packers[p])))
  }

  ghost predicate Stable(w: World, w': World) {
    && w.horizon <= w'.horizon
    && EventsStable(w, w') && PacksStable(w, w') && ObjectsStable(w, w')
    && (forall n :: Unowned(w, n) ==> Unowned(w', n))
  }

  lemma StablePlace(w: World, w': World, k: EventKey)
    requires Stable(w, w') && k in w.db.places && PlaceOk(w, k)
    requires k in w'.db.places && w'.db.places[k] == w.db.places[k] && w'.db.places[k].pack in w'.db.packs
    ensures PlaceOk(w', k)
  {
    var place := w.db.places[k];
    assert place.pack < w.db.nextPack;
    if Unexpired(w', k) {
      assert Unexpired(w, k) && ObjectStable(w, w', PlaceKey(k, place));
    }
  }

  lemma StableCut(w: World, w': World, project: int, week: int, cut: Cut)
    requires Stable(w, w') && CutOk(w, project, week, cut)
    ensures CutOk(w', project, week, cut)
  {
    forall i | 0 <= i < |cut.entries|
      ensures CutEntryOk(w', project, week, cut, cut.entries[i])
    {
      assert CutEntryOk(w, project, week, cut, cut.entries[i]);
      if Unexpired(w', cut.entries[i].key) {
        assert Unexpired(w, cut.entries[i].key);
      }
    }
  }

  lemma StablePacker(w: World, w': World, p: nat)
    requires Stable(w, w') && p in w.packers && PackerOk(w, w.packers[p]) && PackIdsOk(w)
    requires p in w'.packers && w'.packers[p] == w.packers[p]
    ensures PackerOk(w', w'.packers[p])
  {
    var q := w.packers[p];
    if !q.Undoing? && !q.Forgetting? {
      StableCut(w, w', q.project, q.week, q.cut);
    }
  }

  lemma StableSweeper(w: World, w': World, q: Sweeper)
    requires Stable(w, w') && SweeperOk(w, q)
    ensures SweeperOk(w', q)
  {
    forall n | n in q.todo
      ensures PackGone(w', n) && WeekExpired(q.todo[n].week, w'.horizon)
    {
      assert PackGone(w, n);
    }
  }

  lemma StableReader(w: World, w': World, r: Reader)
    requires Stable(w, w') && ReaderOk(w, r)
    ensures ReaderOk(w', r)
  {
    match r
    case Opened(k, column) =>
      if Unexpired(w', k) {
        assert Unexpired(w, k);
      }
    case Found(k, At(place, week), want, live) =>
      if live {
        assert Unowned(w, place.pack) && ObjectStable(w, w', PlaceKey(k, place));
        if Unexpired(w', k) {
          assert Unexpired(w, k);
        }
      }
    case _ =>
  }

  ghost predicate Same<K, V>(m: map<K, V>, m': map<K, V>, k: K) {
    k in m && k in m' && m[k] == m'[k]
  }

  ghost predicate PlacesCarry(w: World, w': World) {
    forall k :: k in w'.db.places ==>
      (Same(w.db.places, w'.db.places, k) && w'.db.places[k].pack in w'.db.packs) || PlaceOk(w', k)
  }

  ghost predicate PackersCarry(w: World, w': World) {
    forall p :: p in w'.packers ==> Same(w.packers, w'.packers, p) || PackerOk(w', w'.packers[p])
  }

  ghost predicate SweepersCarry(w: World, w': World) {
    forall q :: q in w'.sweepers ==> Same(w.sweepers, w'.sweepers, q) || SweeperOk(w', w'.sweepers[q])
  }

  ghost predicate ReadersCarry(w: World, w': World) {
    forall r :: r in w'.readers ==> Same(w.readers, w'.readers, r) || ReaderOk(w', w'.readers[r])
  }

  lemma CarryPlaces(w: World, w': World)
    requires PlacesOk(w) && Stable(w, w') && PlacesCarry(w, w')
    ensures PlacesOk(w')
  {
    forall k | k in w'.db.places
      ensures PlaceOk(w', k)
    {
      if Same(w.db.places, w'.db.places, k) && w'.db.places[k].pack in w'.db.packs {
        StablePlace(w, w', k);
      }
    }
  }

  lemma CarryPackers(w: World, w': World)
    requires PackersOk(w) && PackIdsOk(w) && Stable(w, w') && PackersCarry(w, w')
    ensures PackersOk(w')
  {
    forall p | p in w'.packers
      ensures PackerOk(w', w'.packers[p])
    {
      if Same(w.packers, w'.packers, p) {
        StablePacker(w, w', p);
      }
    }
  }

  lemma CarryActors(w: World, w': World)
    requires SweepersOk(w) && ReadersOk(w) && Stable(w, w') && SweepersCarry(w, w') && ReadersCarry(w, w')
    ensures SweepersOk(w') && ReadersOk(w')
  {
    forall q | q in w'.sweepers
      ensures SweeperOk(w', w'.sweepers[q])
    {
      if Same(w.sweepers, w'.sweepers, q) {
        StableSweeper(w, w', w.sweepers[q]);
      }
    }
    forall r | r in w'.readers
      ensures ReaderOk(w', w'.readers[r])
    {
      if Same(w.readers, w'.readers, r) {
        StableReader(w, w', w.readers[r]);
      }
    }
  }

  // A stable step keeps the invariant if it is right about what it changed.
  lemma {:induction false} Carry(w: World, w': World)
    requires Inv(w) && Stable(w, w')
    requires PlacesCarry(w, w') && PackersCarry(w, w') && SweepersCarry(w, w') && ReadersCarry(w, w')
    requires PackIdsOk(w') && SpoolOk(w') && EventsOk(w')
    ensures Inv(w')
  {
    CarryPlaces(w, w');
    CarryPackers(w, w');
    CarryActors(w, w');
  }

  lemma TablesStable(w: World, w': World)
    requires w'.packers == w.packers && w'.objects == w.objects && w'.horizon == w.horizon
    requires EventsStable(w, w') && PacksStable(w, w')
    ensures Stable(w, w')
  {
  }

  // A step of a sweeper's or reader's own bookkeeping.
  lemma CarryOn(w: World, w': World)
    requires Inv(w) && w' == w.(sweepers := w'.sweepers, readers := w'.readers)
    requires SweepersCarry(w, w') && ReadersCarry(w, w')
    ensures Inv(w')
  {
    TablesStable(w, w');
    CarryActors(w, w');
    CarryPlaces(w, w');
    CarryPackers(w, w');
  }

  /* ---- who owns a pack id ---- */

  // Only packer id moves: it keeps its pack id, drops it, or takes the next one.
  ghost predicate OwnersStep(w: World, w': World, id: nat) {
    && w.db.nextPack <= w'.db.nextPack
    && (forall q :: q in w'.packers && q != id ==> Same(w.packers, w'.packers, q))
    && (id in w'.packers ==>
          var own := Owned(w'.packers[id]);
          || own.None?
          || (id in w.packers && Owned(w.packers[id]) == own)
          || (own == Some(w.db.nextPack) && w.db.nextPack < w'.db.nextPack))
  }

  lemma OwnersKeep(w: World, w': World, id: nat)
    requires PackIdsOk(w) && OwnersStep(w, w', id)
    requires forall n :: n in w'.db.packs ==> n < w'.db.nextPack
    ensures PackIdsOk(w') && (forall n :: Unowned(w, n) ==> Unowned(w', n))
  {
    forall n: nat | Unowned(w, n)
      ensures Unowned(w', n)
    {
      forall p | p in w'.packers
        ensures Owned(w'.packers[p]) != Some(n)
      {
        if p != id {
          assert Same(w.packers, w'.packers, p);
        }
      }
    }
    forall p, q | p in w'.packers && q in w'.packers && p != q && Owned(w'.packers[p]).Some?
      ensures Owned(w'.packers[p]) != Owned(w'.packers[q])
    {
      assert p != id ==> Same(w.packers, w'.packers, p);
      assert q != id ==> Same(w.packers, w'.packers, q);
    }
  }

  // The objects a packer's own step leaves alone: all but the one it owns.
  ghost predicate OnlyOwnObject(w: World, w': World, id: nat) {
    forall key: BlobKey :: (id in w.packers && Owned(w.packers[id]) == Some(key.pack)) || ObjectStable(w, w', key)
  }

  lemma PackerStable(w: World, w': World, id: nat)
    requires PackIdsOk(w) && OwnersStep(w, w', id) && OnlyOwnObject(w, w', id)
    requires forall n :: n in w'.db.packs ==> n < w'.db.nextPack
    requires w'.horizon == w.horizon && EventsStable(w, w') && PacksStable(w, w')
    requires id in w.packers && id in w'.packers ==> w.packers[id] != w'.packers[id]
    ensures Stable(w, w') && PackIdsOk(w')
  {
    OwnersKeep(w, w', id);
    forall p | p in w.packers && p in w'.packers && w.packers[p] == w'.packers[p] && w.packers[p].Stored?
      ensures ObjectStable(w, w', KeyOf(w.packers[p]))
    {
      assert p != id;
      assert Owned(w.packers[p]) == Some(KeyOf(w.packers[p]).pack);
    }
  }

  /* ---- every step keeps it ---- */

  lemma IngestStableEvents(w: World, k: EventKey, payload: Option<Payload>, inColumn: bool, now: int)
    ensures EventsStable(w, IngestStep(w, k, payload, inColumn, now))
  {
  }

  lemma {:induction false} IngestStable(w: World, k: EventKey, payload: Option<Payload>, inColumn: bool, now: int)
    ensures Stable(w, IngestStep(w, k, payload, inColumn, now))
  {
    IngestStableEvents(w, k, payload, inColumn, now);
    TablesStable(w, IngestStep(w, k, payload, inColumn, now));
  }

  lemma IngestTables(w: World, k: EventKey, payload: Option<Payload>, inColumn: bool, now: int)
    requires SpoolOk(w) && EventsOk(w) && PlacesOk(w)
    ensures var w' := IngestStep(w, k, payload, inColumn, now); SpoolOk(w') && EventsOk(w')
  {
  }

  lemma {:induction false} IngestKeeps(w: World, k: EventKey, payload: Option<Payload>, inColumn: bool, now: int)
    requires Inv(w)
    ensures Inv(IngestStep(w, k, payload, inColumn, now))
  {
    IngestStable(w, k, payload, inColumn, now);
    IngestTables(w, k, payload, inColumn, now);
    Carry(w, IngestStep(w, k, payload, inColumn, now));
  }

  lemma {:induction false} CollectedOk(w: World, project: int, day: int)
    requires SpoolOk(w)
    ensures CutOk(w, project, WeekStart(day), CutOf(w.db.spool, project, WeekStart(day)))
  {
    var week := WeekStart(day);
    var rows := SpoolRows(w.db.spool, project, week);
    var cut := CutOf(w.db.spool, project, week);
    FillSound(Cut([], []), w.db.spool, rows);
    FillTakesPrefix(Cut([], []), w.db.spool, rows);
    WeekStartIsMonday(day);
    forall i | 0 <= i < |cut.entries|
      ensures CutEntryOk(w, project, week, cut, cut.entries[i])
    {
      var k := cut.entries[i].key;
      assert k in rows && k in GroupKeys(w.db.spool, project, week);
      SameWeek(k.at, week);
    }
  }

  lemma {:induction false} CollectKeeps(w: World, id: nat, project: int, day: int)
    requires Inv(w)
    ensures Inv(CollectStep(w, id, project, day))
  {
    var w' := CollectStep(w, id, project, day);
    if w' != w {
      CollectedOk(w, project, day);
      PackerStable(w, w', id);
      StableCut(w, w', project, WeekStart(day), CutOf(w.db.spool, project, WeekStart(day)));
      Carry(w, w');
    }
  }

  lemma NamePackKeeps(w: World, id: nat)
    requires Inv(w)
    ensures Inv(NamePackStep(w, id))
  {
    var w' := NamePackStep(w, id);
    if w' != w {
      PackerStable(w, w', id);
      Carry(w, w');
    }
  }

  lemma PutObjectKeeps(w: World, id: nat, outcome: PutOutcome)
    requires Inv(w)
    ensures Inv(PutObjectStep(w, id, outcome))
  {
    var w' := PutObjectStep(w, id, outcome);
    if w' != w {
      PackerStable(w, w', id);
      Carry(w, w');
    }
  }

  // Every entry's key ends up at its own range of the pack; no other key moves.
  lemma {:induction false} PlacedAt(places: map<EventKey, Place>, pack: nat, entries: seq<Entry>, k: EventKey)
    ensures k !in CutKeys(entries) ==> (k in Placed(places, pack, entries) <==> k in places)
    ensures k !in CutKeys(entries) && k in places ==> Placed(places, pack, entries)[k] == places[k]
    ensures k in CutKeys(entries) ==> k in Placed(places, pack, entries)
    ensures k in CutKeys(entries) ==>
              exists i :: 0 <= i < |entries| && entries[i].key == k &&
                Placed(places, pack, entries)[k] == Place(pack, entries[i].off, entries[i].len)
    decreases |entries|
  {
    if entries != [] {
      var n := |entries| - 1;
      PlacedAt(places, pack, entries[..n], k);
      assert entries[n].key == k || (k in CutKeys(entries) <==> k in CutKeys(entries[..n])) by {
        assert forall i :: 0 <= i < n ==> entries[..n][i] == entries[i];
      }
    }
  }

  lemma CommitPlaces(w: World, w': World, id: nat)
    requires Inv(w) && Stable(w, w') && id in w.packers && w.packers[id].Stored? && w.packers[id].pack in w.db.packs
    requires w' == CommitPackStep(w, id, true)
    ensures PlacesCarry(w, w') && SpoolOk(w')
  {
    var p := w.packers[id];
    assert PackerOk(w, p);
    forall k | k in w'.db.places
      ensures (Same(w.db.places, w'.db.places, k) && w'.db.places[k].pack in w'.db.packs) || PlaceOk(w', k)
    {
      PlacedAt(w.db.places, p.pack, p.cut.entries, k);
      if k in CutKeys(p.cut.entries) {
        var i :| 0 <= i < |p.cut.entries| && p.cut.entries[i].key == k &&
          w'.db.places[k] == Place(p.pack, p.cut.entries[i].off, p.cut.entries[i].len);
        assert CutEntryOk(w, p.project, p.week, p.cut, p.cut.entries[i]);
        assert KeyOf(p) == PlaceKey(k, w'.db.places[k]);
        assert Unowned(w', p.pack);
      } else {
        assert PlaceOk(w, k);
      }
    }
  }

  lemma {:induction false} CommitEvents(w: World, id: nat)
    requires EventsOk(w) && id in w.packers && w.packers[id].Stored? && w.packers[id].pack in w.db.packs
    ensures EventsOk(CommitPackStep(w, id, true))
  {
    var p := w.packers[id];
    var w' := CommitPackStep(w, id, true);
    forall k | k in w'.db.events && Unexpired(w', k)
      ensures if k in w'.sent then Kept(w', k) else w'.db.events[k].column.None?
    {
      PlacedAt(w.db.places, p.pack, p.cut.entries, k);
    }
  }

  lemma CommitPackKeeps(w: World, id: nat, committed: bool)
    requires Inv(w)
    ensures Inv(CommitPackStep(w, id, committed))
  {
    var w' := CommitPackStep(w, id, committed);
    if w' != w {
      PackerStable(w, w', id);
      if id !in w'.packers {
        CommitPlaces(w, w', id);
        CommitEvents(w, id);
      }
      Carry(w, w');
    }
  }

  lemma UndoObjectKeeps(w: World, id: nat, deleted: bool)
    requires Inv(w)
    ensures Inv(UndoObjectStep(w, id, deleted))
  {
    var w' := UndoObjectStep(w, id, deleted);
    if w' != w {
      PackerStable(w, w', id);
      Carry(w, w');
    }
  }

  lemma UndoRowKeeps(w: World, id: nat, deleted: bool)
    requires Inv(w)
    ensures Inv(UndoRowStep(w, id, deleted))
  {
    var w' := UndoRowStep(w, id, deleted);
    if w' != w {
      PackerStable(w, w', id);
      Carry(w, w');
    }
  }

  lemma CrashPackerKeeps(w: World, id: nat)
    requires Inv(w)
    ensures Inv(CrashPackerStep(w, id))
  {
    var w' := CrashPackerStep(w, id);
    if w' != w {
      PackerStable(w, w', id);
      Carry(w, w');
    }
  }

  lemma DropWeeksStable(w: World, id: nat, cutoff: int)
    ensures Stable(w, DropWeeksStep(w, id, cutoff))
  {
  }

  lemma DropWeeksTables(w: World, id: nat, cutoff: int)
    requires SpoolOk(w) && EventsOk(w) && PackIdsOk(w)
    ensures var w' := DropWeeksStep(w, id, cutoff); PackIdsOk(w') && SpoolOk(w') && EventsOk(w')
  {
  }

  lemma {:induction false} DropWeeksKeeps(w: World, id: nat, cutoff: int)
    requires Inv(w)
    ensures Inv(DropWeeksStep(w, id, cutoff))
  {
    DropWeeksStable(w, id, cutoff);
    DropWeeksTables(w, id, cutoff);
    Carry(w, DropWeeksStep(w, id, cutoff));
  }

  lemma ListExpiredKeeps(w: World, id: nat)
    requires Inv(w)
    ensures Inv(ListExpiredStep(w, id))
  {
    CarryOn(w, ListExpiredStep(w, id));
  }

  lemma SweepObjectStable(w: World, id: nat, pack: nat, deleted: bool)
    requires SweepersOk(w)
    ensures Stable(w, SweepObjectStep(w, id, pack, deleted))
  {
  }

  lemma SweepObjectSweepers(w: World, id: nat, pack: nat, deleted: bool)
    requires SweepersOk(w)
    ensures SweepersOk(SweepObjectStep(w, id, pack, deleted))
  {
    forall q | q in w.sweepers
      ensures SweeperOk(SweepObjectStep(w, id, pack, deleted), SweepObjectStep(w, id, pack, deleted).sweepers[q])
    {
      assert SweeperOk(w, w.sweepers[q]);
    }
  }

  lemma SweepObjectKeeps(w: World, id: nat, pack: nat, deleted: bool)
    requires Inv(w)
    ensures Inv(SweepObjectStep(w, id, pack, deleted))
  {
    SweepObjectStable(w, id, pack, deleted);
    SweepObjectSweepers(w, id, pack, deleted);
    Carry(w, SweepObjectStep(w, id, pack, deleted));
  }

  lemma SweepRowStable(w: World, id: nat)
    ensures Stable(w, SweepRowStep(w, id))
  {
    TablesStable(w, SweepRowStep(w, id));
  }

  lemma SweepRowTables(w: World, id: nat)
    requires Inv(w)
    ensures var w' := SweepRowStep(w, id); PackIdsOk(w') && SpoolOk(w') && EventsOk(w')
  {
    if id in w.sweepers && w.sweepers[id].gone.Some? {
      assert SweeperOk(w, w.sweepers[id]);
      forall k | k in w.db.places && w.db.places[k].pack == w.sweepers[id].gone.value
        ensures !Unexpired(w, k)
      {
        assert PlaceOk(w, k);
      }
    }
  }

  lemma SweepRowKeeps(w: World, id: nat)
    requires Inv(w)
    ensures Inv(SweepRowStep(w, id))
  {
    SweepRowStable(w, id);
    SweepRowTables(w, id);
    Carry(w, SweepRowStep(w, id));
  }

  lemma SweepSpoolStable(w: World, id: nat)
    ensures Stable(w, SweepSpoolStep(w, id))
  {
    TablesStable(w, SweepSpoolStep(w, id));
  }

  lemma SweepSpoolKeeps(w: World, id: nat)
    requires Inv(w)
    ensures Inv(SweepSpoolStep(w, id))
  {
    SweepSpoolStable(w, id);
    Carry(w, SweepSpoolStep(w, id));
  }

  lemma CrashSweeperKeeps(w: World, id: nat)
    requires Inv(w)
    ensures Inv(CrashSweeperStep(w, id))
  {
    CarryOn(w, CrashSweeperStep(w, id));
  }

  lemma {:induction false} OpenEventKeeps(w: World, id: nat, k: EventKey)
    requires Inv(w)
    ensures Inv(OpenEventStep(w, id, k))
  {
    CarryOn(w, OpenEventStep(w, id, k));
  }

  lemma FindPayloadKeeps(w: World, id: nat)
    requires Inv(w)
    ensures Inv(FindPayloadStep(w, id))
  {
    CarryOn(w, FindPayloadStep(w, id));
  }

  lemma FetchPayloadKeeps(w: World, id: nat)
    requires Inv(w)
    ensures Inv(FetchPayloadStep(w, id))
  {
    CarryOn(w, FetchPayloadStep(w, id));
  }

  lemma {:induction false} PackerNextKeeps(w: World, p: nat, call: PackerCall)
    requires Inv(w)
    ensures Inv(PackerNext(w, p, call))
  {
    match call
    case Collect(project, day) => CollectKeeps(w, p, project, day);
    case NamePack => NamePackKeeps(w, p);
    case PutObject(outcome) => PutObjectKeeps(w, p, outcome);
    case CommitPack(committed) => CommitPackKeeps(w, p, committed);
    case UndoObject(deleted) => UndoObjectKeeps(w, p, deleted);
    case UndoRow(deleted) => UndoRowKeeps(w, p, deleted);
    case CrashPacker => CrashPackerKeeps(w, p);
  }

  lemma {:induction false} SweeperNextKeeps(w: World, q: nat, call: SweeperCall)
    requires Inv(w)
    ensures Inv(SweeperNext(w, q, call))
  {
    match call
    case DropWeeks(cutoff) => DropWeeksKeeps(w, q, cutoff);
    case ListExpired => ListExpiredKeeps(w, q);
    case SweepObject(pack, deleted) => SweepObjectKeeps(w, q, pack, deleted);
    case SweepRow => SweepRowKeeps(w, q);
    case SweepSpool => SweepSpoolKeeps(w, q);
    case CrashSweeper => CrashSweeperKeeps(w, q);
  }

  lemma {:induction false} NextKeeps(w: World, s: Step)
    requires Inv(w)
    ensures Inv(Next(w, s))
  {
    match s
    case Ingest(k, payload, inColumn, now) => IngestKeeps(w, k, payload, inColumn, now);
    case ByPacker(p, call) => PackerNextKeeps(w, p, call);
    case BySweeper(q, call) => SweeperNextKeeps(w, q, call);
    case ByReader(r, OpenEvent(k)) => OpenEventKeeps(w, r, k);
    case ByReader(r, FindPayload) => FindPayloadKeeps(w, r);
    case ByReader(r, FetchPayload) => FetchPayloadKeeps(w, r);
  }

  lemma {:induction false} RunKeeps(w: World, steps: seq<Step>)
    requires Inv(w)
    ensures Inv(Run(w, steps))
    decreases |steps|
  {
    if steps != [] {
      NextKeeps(w, steps[0]);
      RunKeeps(Next(w, steps[0]), steps[1..]);
    }
  }

  /* ---- the theorems ---- */

  // In every state of every run, the payload of an event whose week has not
  // expired is in its column, in its spool row, or byte for byte in its pack.
  lemma PayloadIsKept(steps: seq<Step>, k: EventKey)
    requires var w := Run(Init(), steps); k in w.db.events && k in w.sent && Unexpired(w, k)
    ensures var w := Run(Init(), steps);
      || w.db.events[k].column == Some(w.sent[k])
      || (k in w.db.spool && w.db.spool[k].data == w.sent[k])
      || (k in w.db.places && Holds(w.objects, PlaceKey(k, w.db.places[k]), w.db.places[k], w.sent[k]))
  {
    RunKeeps(Init(), steps);
    var w := Run(Init(), steps);
    assert Kept(w, k);
    if k in w.db.places {
      assert PlaceOk(w, k);
    }
  }

  // Whatever happens between a reader's three steps, a read that found its
  // event's place while the week was unexpired returns exactly the bytes
  // ingested, or nothing because the week expired before the object was read;
  // an event ingested without a payload reads as none.
  lemma ReadsAreExact(steps: seq<Step>, r: nat)
    requires var w := Run(Init(), steps); r in w.readers && w.readers[r].Done? && w.readers[r].live
    ensures var d := Run(Init(), steps).readers[r];
      if d.want.None? then d.got == Nothing
      else d.got == Bytes(d.want.value) || (d.got == Nothing && d.late)
  {
    RunKeeps(Init(), steps);
    var w := Run(Init(), steps);
    assert ReaderOk(w, w.readers[r]);
  }

  function ReadSteps(r: nat, k: EventKey): seq<Step> {
    [ByReader(r, OpenEvent(k)), ByReader(r, FindPayload), ByReader(r, FetchPayload)]
  }

  lemma {:induction false} ReadRuns(w: World, r: nat, k: EventKey)
    ensures Run(w, ReadSteps(r, k)) == FetchPayloadStep(FindPayloadStep(OpenEventStep(w, r, k), r), r)
  {
    var steps := ReadSteps(r, k);
    var w1 := OpenEventStep(w, r, k);
    var w2 := FindPayloadStep(w1, r);
    assert steps[1..] == [ByReader(r, FindPayload), ByReader(r, FetchPayload)];
    assert steps[1..][1..] == [ByReader(r, FetchPayload)] && steps[1..][1..][1..] == [];
    assert Run(w2, steps[1..][1..]) == FetchPayloadStep(w2, r);
    assert Run(w1, steps[1..]) == Run(w2, steps[1..][1..]);
  }

  // Reading an unexpired event finds its payload, whatever the packers and sweepers
  // are at.
  lemma {:induction false} ReadGoesThrough(w: World, r: nat, k: EventKey)
    requires Inv(w) && r !in w.readers && k in w.db.events && Unexpired(w, k)
    ensures var w' := Run(w, ReadSteps(r, k));
      && r in w'.readers && w'.readers[r].Done? && w'.(readers := w.readers) == w
      && w'.readers[r].got == if k in w.sent then Bytes(w.sent[k]) else Nothing
  {
    ReadEnds(w, r, k);
    RunKeeps(w, ReadSteps(r, k));
    ReadersHold(Run(w, ReadSteps(r, k)), r);
  }

  lemma ReadEnds(w: World, r: nat, k: EventKey)
    requires r !in w.readers && k in w.db.events && Unexpired(w, k)
    ensures var w' := Run(w, ReadSteps(r, k));
      && r in w'.readers && w'.readers[r].Done? && w'.(readers := w.readers) == w
      && w'.readers[r].want == (if k in w.sent then Some(w.sent[k]) else None)
      && w'.readers[r].live && !w'.readers[r].late
  {
    ReadRuns(w, r, k);
  }

  lemma ReadersHold(w: World, r: nat)
    requires Inv(w) && r in w.readers
    ensures ReaderOk(w, w.readers[r])
  {
  }

  // Why packOne may delete the object after a failed commit: it relies on a
  // commit that reports an error not having committed. Were the transaction
  // applied while the packer saw an error, its undo would lose the payload.
  lemma {:induction false} CommitMustBeDefinite(w: World, id: nat, i: nat)
    requires Inv(w) && id in w.packers && w.packers[id].Stored?
    requires w.packers[id].pack in w.db.packs && i < |w.packers[id].cut.entries|
    requires Unexpired(w, w.packers[id].cut.entries[i].key)
    ensures var p := w.packers[id]; var k := p.cut.entries[i].key;
      var applied := w.(db := CommitTables(w.db, p.pack, p.cut),
        packers := w.packers[id := Undoing(p.project, p.week, p.pack)]);
      var w' := UndoObjectStep(applied, id, true);
      && k in w'.db.events && k in w'.sent && Unexpired(w', k) && w'.db.events[k].column.None?
      && k !in w'.db.spool && k in w'.db.places && PlaceKey(k, w'.db.places[k]) !in w'.objects
  {
    var p := w.packers[id];
    var k := p.cut.entries[i].key;
    assert PackerOk(w, p) && CutEntryOk(w, p.project, p.week, p.cut, p.cut.entries[i]);
    assert k in CutKeys(p.cut.entries);
    PlacedAt(w.db.places, p.pack, p.cut.entries, k);
  }
}
