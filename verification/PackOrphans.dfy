/**
 * Objects nobody will ever delete: where every present object stands in any
 * run, which steps orphan one, and that no sweep deletes it afterwards.
 */
module PackOrphans {
  import opened Blobs
  import opened Calendar
  import opened Options
  import opened Tables
  import opened PackProtocol
  import opened PackSafety

  // Nobody will name the object again: its id is used up, has no packs row, and
  // is on no sweeper's list; a packer may at most be forgetting it.
  ghost predicate Orphan(w: World, key: BlobKey) {
    && key in w.objects && key.pack < w.db.nextPack && key.pack !in w.db.packs
    && (forall p :: p in w.packers ==> Harmless(w.packers[p], key.pack))
    && (forall q :: q in w.sweepers ==> key.pack !in w.sweepers[q].todo)
  }

  predicate Harmless(p: Packer, pack: nat) {
    p.Collected? || p.Forgetting? || p.pack != pack
  }

  lemma {:induction false} PackerLeavesOrphans(w: World, p: nat, call: PackerCall, key: BlobKey)
    requires Orphan(w, key)
    ensures Orphan(PackerNext(w, p, call), key)
  {
    assert p in w.packers ==> Harmless(w.packers[p], key.pack);
    match call
    case Collect(project, day) =>
    case NamePack =>
    case PutObject(outcome) =>
    case CommitPack(committed) =>
    case UndoObject(deleted) =>
    case UndoRow(deleted) =>
    case CrashPacker =>
  }

  lemma {:induction false} SweeperLeavesOrphans(w: World, q: nat, call: SweeperCall, key: BlobKey)
    requires Orphan(w, key) && TodoNamesItself(w)
    ensures Orphan(SweeperNext(w, q, call), key)
  {
    assert q in w.sweepers ==> NamesItself(w.sweepers[q]);
    match call
    case DropWeeks(cutoff) =>
    case ListExpired =>
    case SweepObject(pack, deleted) =>
    case SweepRow =>
    case SweepSpool =>
    case CrashSweeper =>
  }

  // A sweeper's list is empty until it is read, and names each pack's own object.
  predicate NamesItself(q: Sweeper) {
    (forall n :: n in q.todo ==> q.todo[n].pack == n) && (!q.listed ==> q.todo == map[])
  }

  predicate TodoNamesItself(w: World) {
    forall q :: q in w.sweepers ==> NamesItself(w.sweepers[q])
  }

  lemma {:induction false} SweeperTodo(w: World, q: nat, call: SweeperCall)
    requires TodoNamesItself(w)
    ensures TodoNamesItself(SweeperNext(w, q, call))
  {
    assert q in w.sweepers ==> NamesItself(w.sweepers[q]);
    match call
    case DropWeeks(cutoff) =>
    case ListExpired =>
    case SweepObject(pack, deleted) =>
    case SweepRow =>
    case SweepSpool =>
    case CrashSweeper =>
  }

  lemma {:induction false} TodoKeeps(w: World, s: Step)
    requires TodoNamesItself(w)
    ensures TodoNamesItself(Next(w, s))
  {
    if s.BySweeper? {
      SweeperTodo(w, s.q, s.sweeping);
    } else {
      assert Next(w, s).sweepers == w.sweepers;
    }
  }

  lemma {:induction false} NextLeavesOrphans(w: World, s: Step, key: BlobKey)
    requires Orphan(w, key) && TodoNamesItself(w)
    ensures Orphan(Next(w, s), key)
  {
    match s
    case Ingest(k, payload, inColumn, now) =>
    case ByPacker(p, call) => PackerLeavesOrphans(w, p, call, key);
    case BySweeper(q, call) => SweeperLeavesOrphans(w, q, call, key);
    case ByReader(r, call) =>
  }

  // Once orphaned, an object stays for good, whatever sweeps run.
  lemma {:induction false} OrphansStay(w: World, steps: seq<Step>, key: BlobKey)
    requires Orphan(w, key) && TodoNamesItself(w)
    ensures key in Run(w, steps).objects && Orphan(Run(w, steps), key)
    decreases |steps|
  {
    if steps != [] {
      NextLeavesOrphans(w, steps[0], key);
      TodoKeeps(w, steps[0]);
      OrphansStay(Next(w, steps[0]), steps[1..], key);
    }
  }

  /* ---- where every object stands ---- */

  function RowKey(db: Db, n: nat): BlobKey
    requires n in db.packs
  {
    PackKey(db.packs[n].project, db.packs[n].week, n)
  }

  // The packer still has the object's key in hand: it will commit or undo it.
  predicate HasKey(p: Packer, key: BlobKey) {
    (p.Named? || p.Stored? || p.Undoing?) && KeyOf(p) == key
  }

  ghost predicate Listed(w: World, pack: nat) {
    exists q :: q in w.sweepers && pack in w.sweepers[q].todo
  }

  // The keys that a pack id stands for somewhere.
  ghost predicate KeyInUse(w: World, key: BlobKey) {
    || key in w.objects || OnRow(w, key)
    || (exists p :: p in w.packers && HasKey(w.packers[p], key))
    || (exists q :: q in w.sweepers && OnList(w.sweepers[q], key))
  }

  predicate OnRow(w: World, key: BlobKey) {
    key.pack in w.db.packs && RowKey(w.db, key.pack) == key
  }

  predicate OnList(q: Sweeper, key: BlobKey) {
    key.pack in q.todo && q.todo[key.pack] == key
  }

  // A pack id stands for one object, and a packer that has not put its object
  // yet finds none under its key.
  ghost predicate Identified(w: World) {
    && TodoNamesItself(w)
    && (forall key :: KeyInUse(w, key) ==> key.pack < w.db.nextPack)
    && (forall a, b :: KeyInUse(w, a) && KeyInUse(w, b) && a.pack == b.pack ==> a == b)
    && (forall p :: p in w.packers && w.packers[p].Named? ==> KeyOf(w.packers[p]) !in w.objects)
  }

  // A step names no new key, but for InsertPack, which names the next one.
  ghost predicate Renames(w: World, w': World, key: BlobKey) {
    KeyInUse(w, key) || (key.pack == w.db.nextPack < w'.db.nextPack && OnRow(w', key))
  }

  lemma PackerKeys(w: World, p: nat, call: PackerCall, key: BlobKey)
    requires var w' := PackerNext(w, p, call); key in w'.objects || OnRow(w', key)
    ensures Renames(w, PackerNext(w, p, call), key)
  {
    assert p in w.packers && (w.packers[p].Named? || w.packers[p].Stored? || w.packers[p].Undoing?) ==>
      HasKey(w.packers[p], KeyOf(w.packers[p]));
  }

  lemma PackerHands(w: World, p: nat, call: PackerCall, q: nat, key: BlobKey)
    requires var w' := PackerNext(w, p, call); q in w'.packers && HasKey(w'.packers[q], key)
    ensures Renames(w, PackerNext(w, p, call), key)
  {
    if q == p {
      OwnHand(w, p, call, key);
    } else {
      OthersCame(w, p, call, q);
      assert KeyInUse(w, key);
    }
  }

  lemma OwnHand(w: World, p: nat, call: PackerCall, key: BlobKey)
    requires var w' := PackerNext(w, p, call); p in w'.packers && HasKey(w'.packers[p], key)
    ensures Renames(w, PackerNext(w, p, call), key)
  {
    assert p in w.packers && HasKey(w.packers[p], key) ==> KeyInUse(w, key);
  }

  lemma SweeperKeys(w: World, q: nat, call: SweeperCall, key: BlobKey)
    requires KeyInUse(SweeperNext(w, q, call), key)
    ensures KeyInUse(w, key)
  {
    var w' := SweeperNext(w, q, call);
    if r :| r in w'.sweepers && OnList(w'.sweepers[r], key) {
      assert (r in w.sweepers && OnList(w.sweepers[r], key)) || OnRow(w, key);
    }
  }

  // The step's new names.
  ghost predicate RenamesAll(w: World, w': World) {
    w.db.nextPack <= w'.db.nextPack && forall key :: KeyInUse(w', key) ==> Renames(w, w', key)
  }

  lemma PackerSweepers(w: World, p: nat, call: PackerCall)
    ensures var w' := PackerNext(w, p, call); w'.sweepers == w.sweepers && w.db.nextPack <= w'.db.nextPack
  {
  }

  lemma {:induction false} PackerRenames(w: World, p: nat, call: PackerCall, w': World)
    requires w' == PackerNext(w, p, call)
    ensures RenamesAll(w, w')
  {
    PackerSweepers(w, p, call);
    forall key | KeyInUse(w', key)
      ensures Renames(w, w', key)
    {
      if q :| q in w'.packers && HasKey(w'.packers[q], key) {
        PackerHands(w, p, call, q, key);
      } else if key in w'.objects || OnRow(w', key) {
        PackerKeys(w, p, call, key);
      }
    }
  }

  lemma SweeperIds(w: World, q: nat, call: SweeperCall)
    ensures var w' := SweeperNext(w, q, call);
      w'.db.nextPack == w.db.nextPack && w'.packers == w.packers && w'.objects.Keys <= w.objects.Keys
  {
  }

  lemma {:induction false} SweeperRenames(w: World, q: nat, call: SweeperCall, w': World)
    requires w' == SweeperNext(w, q, call)
    ensures RenamesAll(w, w')
  {
    SweeperIds(w, q, call);
    forall key | KeyInUse(w', key)
      ensures Renames(w, w', key)
    {
      SweeperKeys(w, q, call, key);
    }
  }

  lemma {:induction false} StepRenames(w: World, s: Step)
    ensures RenamesAll(w, Next(w, s))
  {
    match s
    case ByPacker(p, call) => PackerRenames(w, p, call, Next(w, s));
    case BySweeper(q, call) => SweeperRenames(w, q, call, Next(w, s));
    case Ingest(k, payload, inColumn, now) =>
      IngestNames(w, k, payload, inColumn, now);
      SameNames(w, Next(w, s));
    case ByReader(r, call) =>
      ReaderNames(w, r, call);
      SameNames(w, Next(w, s));
  }

  predicate SameTables(w: World, w': World) {
    && w'.objects == w.objects && w'.db.packs == w.db.packs && w'.db.nextPack == w.db.nextPack
    && w'.packers == w.packers && w'.sweepers == w.sweepers
  }

  lemma IngestNames(w: World, k: EventKey, payload: Option<Payload>, inColumn: bool, now: int)
    ensures SameTables(w, IngestStep(w, k, payload, inColumn, now))
  {
  }

  lemma ReaderNames(w: World, r: nat, call: ReaderCall)
    ensures SameTables(w, ReaderNext(w, r, call))
  {
  }

  lemma SameNames(w: World, w': World)
    requires SameTables(w, w')
    ensures RenamesAll(w, w')
  {
    forall key | KeyInUse(w', key)
      ensures KeyInUse(w, key)
    {
    }
  }

  // A packer's key is its own: another packer's step cannot put it.
  lemma FreshPut(w: World, id: nat, call: PackerCall, p: nat)
    requires PackIdsOk(w) && Identified(w)
    requires var w' := PackerNext(w, id, call); p in w'.packers && w'.packers[p].Named?
    ensures var w' := PackerNext(w, id, call); KeyOf(w'.packers[p]) !in w'.objects
  {
    var key := KeyOf(PackerNext(w, id, call).packers[p]);
    if p != id {
      OthersCame(w, id, call, p);
      assert Owned(w.packers[p]) == Some(key.pack);
      OthersObjects(w, id, call, key);
    } else {
      OwnFresh(w, id, call);
    }
  }

  lemma OwnFresh(w: World, id: nat, call: PackerCall)
    requires Identified(w)
    requires var w' := PackerNext(w, id, call); id in w'.packers && w'.packers[id].Named?
    ensures var w' := PackerNext(w, id, call); KeyOf(w'.packers[id]) !in w'.objects
  {
    var w' := PackerNext(w, id, call);
    if w' != w {
      assert KeyOf(w'.packers[id]) in w.objects ==> KeyInUse(w, KeyOf(w'.packers[id]));
    }
  }

  lemma OthersCame(w: World, id: nat, call: PackerCall, p: nat)
    requires p != id && p in PackerNext(w, id, call).packers
    ensures p in w.packers && w.packers[p] == PackerNext(w, id, call).packers[p]
  {
  }

  lemma OthersObjects(w: World, id: nat, call: PackerCall, key: BlobKey)
    requires id in w.packers ==> Owned(w.packers[id]) != Some(key.pack)
    ensures key in PackerNext(w, id, call).objects ==> key in w.objects
  {
  }

  lemma StillFresh(w: World, s: Step, p: nat)
    requires PackIdsOk(w) && Identified(w)
    requires var w' := Next(w, s); p in w'.packers && w'.packers[p].Named?
    ensures var w' := Next(w, s); KeyOf(w'.packers[p]) !in w'.objects
  {
    match s
    case ByPacker(id, call) => FreshPut(w, id, call, p);
    case BySweeper(q, call) => SweeperIds(w, q, call);
    case _ =>
  }

  lemma {:induction false} NextIdentifies(w: World, s: Step)
    requires PackIdsOk(w) && Identified(w)
    ensures Identified(Next(w, s))
  {
    var w' := Next(w, s);
    TodoKeeps(w, s);
    StepRenames(w, s);
    IdentityCarries(w, w');
    forall p | p in w'.packers && w'.packers[p].Named?
      ensures KeyOf(w'.packers[p]) !in w'.objects
    {
      StillFresh(w, s, p);
    }
  }

  lemma IdentityCarries(w: World, w': World)
    requires Identified(w) && RenamesAll(w, w')
    ensures forall key :: KeyInUse(w', key) ==> key.pack < w'.db.nextPack
    ensures forall a, b :: KeyInUse(w', a) && KeyInUse(w', b) && a.pack == b.pack ==> a == b
  {
    forall a, b | KeyInUse(w', a) && KeyInUse(w', b) && a.pack == b.pack
      ensures a == b
    {
      assert Renames(w, w', a) && Renames(w, w', b);
    }
  }

  lemma {:induction false} RunIdentifies(w: World, steps: seq<Step>)
    requires Inv(w) && Identified(w)
    ensures Inv(Run(w, steps)) && Identified(Run(w, steps))
    decreases |steps|
  {
    if steps != [] {
      NextKeeps(w, steps[0]);
      NextIdentifies(w, steps[0]);
      RunIdentifies(Next(w, steps[0]), steps[1..]);
    }
  }

  predicate InHand(p: Packer, key: BlobKey) {
    (p.Stored? || p.Undoing?) && KeyOf(p) == key
  }

  ghost predicate Placed(w: World, key: BlobKey) {
    || OnRow(w, key)
    || (exists p :: p in w.packers && InHand(w.packers[p], key))
    || (exists q :: q in w.sweepers && OnList(w.sweepers[q], key))
    || Orphan(w, key)
  }

  // In every state of every run a present object has its packs row, is in the
  // hands of a packer that will commit or undo it, is on the list of a sweep
  // about to delete it, or is orphaned for good.
  lemma {:induction false} EveryPackIsPlaced(steps: seq<Step>, key: BlobKey)
    requires key in Run(Init(), steps).objects
    ensures Placed(Run(Init(), steps), key)
  {
    var w := Run(Init(), steps);
    RunIdentifies(Init(), steps);
    assert KeyInUse(w, key);
    if key.pack in w.db.packs {
      assert KeyInUse(w, RowKey(w.db, key.pack));
    } else if p :| p in w.packers && !Harmless(w.packers[p], key.pack) {
      assert HasKey(w.packers[p], KeyOf(w.packers[p])) && KeyInUse(w, KeyOf(w.packers[p]));
      assert InHand(w.packers[p], key);
    } else if q :| q in w.sweepers && key.pack in w.sweepers[q].todo {
      ListedIs(w, q, key);
    } else {
      assert Orphan(w, key);
    }
  }

  lemma ListedIs(w: World, q: nat, key: BlobKey)
    requires Identified(w) && KeyInUse(w, key) && q in w.sweepers && key.pack in w.sweepers[q].todo
    ensures OnList(w.sweepers[q], key)
  {
    assert NamesItself(w.sweepers[q]);
    assert OnList(w.sweepers[q], w.sweepers[q].todo[key.pack]) && KeyInUse(w, w.sweepers[q].todo[key.pack]);
  }

  /* ---- what orphans an object ---- */

  // A put that was not acknowledged, an object that was not deleted when it
  // should have been, a row deleted over its object, or a crash.
  predicate PackerOrphans(w: World, p: nat, call: PackerCall, key: BlobKey) {
    p in w.packers &&
    match call
    case PutObject(outcome) => outcome.PutUnacknowledged? && HasKey(w.packers[p], key)
    case UndoObject(deleted) => !deleted && HasKey(w.packers[p], key)
    case UndoRow(deleted) => deleted && w.packers[p].Forgetting? && w.packers[p].pack == key.pack
    case CrashPacker => InHand(w.packers[p], key)
    case _ => false
  }

  predicate SweeperOrphans(w: World, q: nat, call: SweeperCall, key: BlobKey) {
    q in w.sweepers &&
    match call
    case SweepObject(pack, deleted) => !deleted && OnList(w.sweepers[q], key)
    case SweepRow => w.sweepers[q].gone == Some(key.pack)
    case CrashSweeper => OnList(w.sweepers[q], key)
    case _ => false
  }

  predicate OrphanCause(w: World, s: Step, key: BlobKey) {
    match s
    case ByPacker(p, call) => PackerOrphans(w, p, call, key)
    case BySweeper(q, call) => SweeperOrphans(w, q, call, key)
    case _ => false
  }

  // A packer with a present object's pack id in hand has that object's key.
  lemma HandIs(w: World, p: nat, key: BlobKey)
    requires Identified(w) && KeyInUse(w, key) && p in w.packers && !Harmless(w.packers[p], key.pack)
    ensures InHand(w.packers[p], key) || (HasKey(w.packers[p], key) && key !in w.objects)
  {
    assert HasKey(w.packers[p], KeyOf(w.packers[p])) && KeyInUse(w, KeyOf(w.packers[p]));
  }

  // A packer keeps its object in hand until it has settled it.
  lemma PackerKeepsHand(w: World, p: nat, call: PackerCall, key: BlobKey)
    requires Identified(w) && p in w.packers && HasKey(w.packers[p], key)
    requires key in PackerNext(w, p, call).objects && !PackerOrphans(w, p, call, key)
    ensures var w' := PackerNext(w, p, call);
      (p in w'.packers && !Harmless(w'.packers[p], key.pack)) || key.pack in w'.db.packs
  {
  }

  lemma PackerRows(w: World, p: nat, call: PackerCall, key: BlobKey)
    requires Orphan(PackerNext(w, p, call), key) && !PackerOrphans(w, p, call, key)
    ensures key.pack !in w.db.packs && key.pack < w.db.nextPack
  {
  }

  lemma OthersStay(w: World, p: nat, call: PackerCall)
    ensures var w' := PackerNext(w, p, call);
      forall q :: q in w.packers && q != p ==> q in w'.packers && w'.packers[q] == w.packers[q]
  {
  }

  lemma {:induction false} PackerCause(w: World, p: nat, call: PackerCall, key: BlobKey)
    requires Identified(w) && Orphan(PackerNext(w, p, call), key) && !PackerOrphans(w, p, call, key)
    ensures Orphan(w, key)
  {
    PackerSweepers(w, p, call);
    OthersStay(w, p, call);
    PackerRows(w, p, call, key);
    PackerKeys(w, p, call, key);
    forall q | q in w.packers
      ensures Harmless(w.packers[q], key.pack)
    {
      if !Harmless(w.packers[q], key.pack) {
        HandIs(w, q, key);
        if q == p {
          PackerKeepsHand(w, p, call, key);
        }
      }
    }
  }

  // A sweep keeps what is on its list until it has dealt with it.
  lemma SweeperKeepsList(w: World, q: nat, call: SweeperCall, key: BlobKey)
    requires TodoNamesItself(w) && q in w.sweepers && OnList(w.sweepers[q], key)
    requires key in SweeperNext(w, q, call).objects && !SweeperOrphans(w, q, call, key)
    ensures var w' := SweeperNext(w, q, call); q in w'.sweepers && key.pack in w'.sweepers[q].todo
  {
    assert NamesItself(w.sweepers[q]);
    match call
    case DropWeeks(cutoff) =>
    case ListExpired =>
    case SweepObject(pack, deleted) => assert pack == key.pack ==> w.sweepers[q].todo[pack] == key;
    case SweepRow =>
    case SweepSpool =>
    case CrashSweeper =>
  }

  lemma OtherSweepersStay(w: World, q: nat, call: SweeperCall)
    ensures var w' := SweeperNext(w, q, call);
      forall r :: r in w.sweepers && r != q ==> r in w'.sweepers && w'.sweepers[r] == w.sweepers[r]
  {
  }

  lemma {:induction false} SweeperCause(w: World, q: nat, call: SweeperCall, key: BlobKey)
    requires Identified(w) && Orphan(SweeperNext(w, q, call), key) && !SweeperOrphans(w, q, call, key)
    ensures Orphan(w, key)
  {
    SweeperIds(w, q, call);
    OtherSweepersStay(w, q, call);
    SweeperRows(w, q, call, key);
    assert KeyInUse(w, key);
    forall r | r in w.sweepers
      ensures key.pack !in w.sweepers[r].todo
    {
      if key.pack in w.sweepers[r].todo {
        ListedIs(w, r, key);
        if r == q {
          SweeperKeepsList(w, q, call, key);
        }
      }
    }
  }

  lemma SweeperRows(w: World, q: nat, call: SweeperCall, key: BlobKey)
    requires !SweeperOrphans(w, q, call, key) && key.pack !in SweeperNext(w, q, call).db.packs
    ensures key.pack !in w.db.packs
  {
  }

  // An object is orphaned by one of these only.
  lemma {:induction false} OrphansHaveACause(w: World, s: Step, key: BlobKey)
    requires Identified(w) && !Orphan(w, key) && Orphan(Next(w, s), key)
    ensures OrphanCause(w, s, key)
  {
    match s
    case ByPacker(p, call) => if !PackerOrphans(w, p, call, key) { PackerCause(w, p, call, key); }
    case BySweeper(q, call) => if !SweeperOrphans(w, q, call, key) { SweeperCause(w, q, call, key); }
    case Ingest(k, payload, inColumn, now) =>
    case ByReader(r, call) =>
  }

  lemma {:induction false} CauseOf(w: World, steps: seq<Step>, key: BlobKey) returns (i: nat)
    requires Inv(w) && Identified(w) && !Orphan(w, key) && Orphan(Run(w, steps), key)
    ensures i < |steps| && OrphanCause(Run(w, steps[..i]), steps[i], key)
    decreases |steps|
  {
    if Orphan(Next(w, steps[0]), key) {
      i := 0;
      OrphansHaveACause(w, steps[0], key);
    } else {
      NextKeeps(w, steps[0]);
      NextIdentifies(w, steps[0]);
      var j := CauseOf(Next(w, steps[0]), steps[1..], key);
      i := j + 1;
      assert steps[..i][1..] == steps[1..][..j];
    }
  }

  // In any run, an orphaned object has a step with one of these causes behind it.
  lemma {:induction false} RunOrphansHaveACause(steps: seq<Step>, key: BlobKey) returns (i: nat)
    requires Orphan(Run(Init(), steps), key)
    ensures i < |steps| && OrphanCause(Run(Init(), steps[..i]), steps[i], key)
  {
    i := CauseOf(Init(), steps, key);
  }

  /* ---- packOne's exits, one by one: what the week sweep does not delete ---- */

  lemma Alone(w: World, id: nat, key: BlobKey)
    requires PackIdsOk(w) && id in w.packers && Owned(w.packers[id]) == Some(key.pack)
    ensures forall p :: p in w.packers && p != id ==> Harmless(w.packers[p], key.pack)
  {
    forall p | p in w.packers && p != id
      ensures Harmless(w.packers[p], key.pack)
    {
      assert Owned(w.packers[p]) != Owned(w.packers[id]);
    }
  }

  // The row is gone and no sweep has the object on its list.
  ghost predicate Forgotten(w: World, pack: nat, rowDeleted: bool) {
    (rowDeleted || pack !in w.db.packs) && !Listed(w, pack)
  }

  // The last step of both error exits.
  lemma {:induction false} UndoRowOrphansIff(w: World, id: nat, deleted: bool, key: BlobKey)
    requires PackIdsOk(w) && id in w.packers && w.packers[id].Forgetting? && w.packers[id].pack == key.pack
    ensures Orphan(UndoRowStep(w, id, deleted), key) <==> key in w.objects && Forgotten(w, key.pack, deleted)
  {
    Alone(w, id, key);
    var w' := UndoRowStep(w, id, deleted);
    assert w'.sweepers == w.sweepers && w'.packers == w.packers - {id};
  }

  // Steps of everybody else.
  predicate Others(steps: seq<Step>, id: nat) {
    forall s :: s in steps ==> s.ByPacker? ==> s.p != id
  }

  // They leave the packer where it is, and none of them puts its object.
  lemma OthersLeave(w: World, s: Step, id: nat, key: BlobKey)
    requires PackIdsOk(w) && id in w.packers && Owned(w.packers[id]) == Some(key.pack) && (s.ByPacker? ==> s.p != id)
    ensures var w' := Next(w, s); id in w'.packers && w'.packers[id] == w.packers[id]
    ensures key in Next(w, s).objects ==> key in w.objects
  {
    match s
    case ByPacker(p, call) =>
      OthersStay(w, p, call);
      OthersObjects(w, p, call, key);
    case BySweeper(q, call) => SweeperIds(w, q, call);
    case Ingest(k, payload, inColumn, now) => IngestNames(w, k, payload, inColumn, now);
    case ByReader(r, call) => ReaderNames(w, r, call);
  }

  lemma {:induction false} OthersRun(w: World, steps: seq<Step>, id: nat, key: BlobKey)
    requires Inv(w) && id in w.packers && Owned(w.packers[id]) == Some(key.pack) && Others(steps, id)
    ensures var w' := Run(w, steps); Inv(w') && id in w'.packers && w'.packers[id] == w.packers[id]
    ensures key in Run(w, steps).objects ==> key in w.objects
    decreases |steps|
  {
    if steps != [] {
      assert steps[0] in steps;
      NextKeeps(w, steps[0]);
      OthersLeave(w, steps[0], id, key);
      OthersRun(Next(w, steps[0]), steps[1..], id, key);
    }
  }

  // The exit after a failed Put deletes the row and does not try the object,
  // whatever happens between the two.
  lemma {:induction false} PutExitOrphansIff(
      w: World, id: nat, outcome: PutOutcome, between: seq<Step>, rowDeleted: bool)
    requires Inv(w) && Identified(w) && id in w.packers && w.packers[id].Named?
    requires !outcome.PutDone? && Others(between, id)
    ensures var key := KeyOf(w.packers[id]); var w' := Run(PutObjectStep(w, id, outcome), between);
      && (Orphan(UndoRowStep(w', id, rowDeleted), key) <==> key in w'.objects && Forgotten(w', key.pack, rowDeleted))
      && (key in w'.objects ==> outcome.PutUnacknowledged?)
      && (between == [] && outcome.PutUnacknowledged? ==> key in w'.objects)
  {
    var key := KeyOf(w.packers[id]);
    PutObjectKeeps(w, id, outcome);
    OthersRun(PutObjectStep(w, id, outcome), between, id, key);
    UndoRowOrphansIff(Run(PutObjectStep(w, id, outcome), between), id, rowDeleted, key);
  }

  // The exit after a failed commit.
  lemma {:induction false} CommitExitOrphansIff(
      w: World, id: nat, blobDeleted: bool, between: seq<Step>, rowDeleted: bool)
    requires Inv(w) && id in w.packers && w.packers[id].Undoing? && Others(between, id)
    ensures var key := KeyOf(w.packers[id]); var w' := Run(UndoObjectStep(w, id, blobDeleted), between);
      && (Orphan(UndoRowStep(w', id, rowDeleted), key) <==> key in w'.objects && Forgotten(w', key.pack, rowDeleted))
      && (key in w'.objects ==> key in w.objects && !blobDeleted)
      && (between == [] && key in w.objects && !blobDeleted ==> key in w'.objects)
  {
    var key := KeyOf(w.packers[id]);
    UndoObjectKeeps(w, id, blobDeleted);
    OthersRun(UndoObjectStep(w, id, blobDeleted), between, id, key);
    UndoRowOrphansIff(Run(UndoObjectStep(w, id, blobDeleted), between), id, rowDeleted, key);
  }

  // A crash anywhere after InsertPack.
  lemma {:induction false} CrashOrphansIff(w: World, id: nat)
    requires PackIdsOk(w) && id in w.packers
    requires w.packers[id].Named? || w.packers[id].Stored? || w.packers[id].Undoing?
    ensures var key := KeyOf(w.packers[id]);
      Orphan(CrashPackerStep(w, id), key) <==> key in w.objects && Forgotten(w, key.pack, false)
  {
    Alone(w, id, KeyOf(w.packers[id]));
  }

  /* ---- two runs that orphan ---- */

  // One event ingested, its group collected and its pack named.
  function NamedSteps(k: EventKey, data: Payload): seq<Step> {
    [Ingest(k, Some(data), false, 0), ByPacker(0, Collect(k.project, k.at)), ByPacker(0, NamePack)]
  }

  function FirstKey(k: EventKey): BlobKey {
    PackKey(k.project, WeekStart(k.at), 0)
  }

  lemma {:induction false} RunNamed(k: EventKey, data: Payload, more: seq<Step>) returns (w: World)
    ensures Run(Init(), NamedSteps(k, data) + more) == Run(w, more)
    ensures w.packers.Keys == {0} && w.packers[0].Named? && KeyOf(w.packers[0]) == FirstKey(k)
    ensures w.db.packs == map[0 := PackRow(k.project, WeekStart(k.at), 0)] && w.db.nextPack == 1
    ensures w.objects == map[] && w.sweepers == map[]
  {
    var steps := NamedSteps(k, data) + more;
    var w1 := Next(Init(), steps[0]);
    assert k in w1.db.spool;
    WeekStartIsMonday(k.at);
    assert k in GroupKeys(w1.db.spool, k.project, WeekStart(k.at));
    var w2 := Next(w1, steps[1]);
    w := Next(w2, steps[2]);
    assert steps[1..][1..][1..] == more;
    assert Run(w1, steps[1..]) == Run(w2, steps[1..][1..]);
  }

  lemma {:induction false} RunStep(w: World, s: Step, more: seq<Step>)
    ensures Run(w, [s] + more) == Run(Next(w, s), more)
  {
    assert ([s] + more)[1..] == more;
  }

  // A put that arrives but is not acknowledged: the exit deletes the row alone.
  lemma {:induction false} UnacknowledgedPutOrphans(k: EventKey, data: Payload)
    ensures var steps := NamedSteps(k, data) +
        [ByPacker(0, PutObject(PutUnacknowledged))] + [ByPacker(0, UndoRow(true))];
      Orphan(Run(Init(), steps), FirstKey(k))
  {
    var put, undo := ByPacker(0, PutObject(PutUnacknowledged)), ByPacker(0, UndoRow(true));
    var w := RunNamed(k, data, [put] + [undo]);
    assert NamedSteps(k, data) + [put] + [undo] == NamedSteps(k, data) + ([put] + [undo]);
    RunStep(w, put, [undo]);
    RunStep(Next(w, put), undo, []);
  }

  // A whole sweep of the expired week between the packer's InsertPack and its Put.
  function SweptSteps(cutoff: int): seq<Step> {
    [BySweeper(0, DropWeeks(cutoff))] + ([BySweeper(0, ListExpired)] +
    ([BySweeper(0, SweepObject(0, true))] + [BySweeper(0, SweepRow)]))
  }

  lemma {:induction false} RunSwept(w: World, cutoff: int, key: BlobKey, more: seq<Step>) returns (w': World)
    requires w.db.packs == map[0 := PackRow(key.project, key.week, 0)] && key.pack == 0 && SweepRule(key.week, cutoff)
    requires w.objects == map[] && w.sweepers == map[]
    ensures Run(w, SweptSteps(cutoff) + more) == Run(w', more)
    ensures w'.packers == w.packers && w'.db.packs == map[] && w'.db.nextPack == w.db.nextPack
    ensures w'.sweepers == map[0 := Sweeper(cutoff, map[], None, true)]
  {
    var w1 := DropWeeksStep(w, 0, cutoff);
    var w2 := ListExpiredStep(w1, 0);
    assert w2.sweepers[0].todo == map[0 := key];
    var w3 := SweepObjectStep(w2, 0, 0, true);
    assert w3.sweepers[0] == Sweeper(cutoff, map[], Some(0), true) by {
      assert map[0 := key] - {0} == map[];
    }
    w' := SweepRowStep(w3, 0);
    var last := [BySweeper(0, SweepRow)] + more;
    var blob := [BySweeper(0, SweepObject(0, true))] + last;
    var list := [BySweeper(0, ListExpired)] + blob;
    assert SweptSteps(cutoff) + more == [BySweeper(0, DropWeeks(cutoff))] + list;
    RunStep(w, BySweeper(0, DropWeeks(cutoff)), list);
    RunStep(w1, BySweeper(0, ListExpired), blob);
    RunStep(w2, BySweeper(0, SweepObject(0, true)), last);
    RunStep(w3, BySweeper(0, SweepRow), more);
  }

  // How the packer ends: its object arrives, then a crash, or a commit refused
  // for want of the row and an undo of which nothing succeeds.
  function EndSteps(crashed: bool): seq<Step> {
    if crashed then [ByPacker(0, PutObject(PutDone))] + [ByPacker(0, CrashPacker)]
    else [ByPacker(0, PutObject(PutDone))] + ([ByPacker(0, CommitPack(true))] +
         ([ByPacker(0, UndoObject(false))] + [ByPacker(0, UndoRow(false))]))
  }

  ghost predicate Swept(w: World, key: BlobKey) {
    && w.packers.Keys == {0} && w.packers[0].Named? && KeyOf(w.packers[0]) == key
    && key.pack !in w.db.packs && key.pack < w.db.nextPack
    && forall q :: q in w.sweepers ==> key.pack !in w.sweepers[q].todo
  }

  lemma {:induction false} CrashOrphans(w: World, key: BlobKey)
    requires Swept(w, key)
    ensures Orphan(Run(w, EndSteps(true)), key)
  {
    var put := Next(w, ByPacker(0, PutObject(PutDone)));
    RunStep(w, ByPacker(0, PutObject(PutDone)), [ByPacker(0, CrashPacker)]);
    RunStep(put, ByPacker(0, CrashPacker), []);
  }

  lemma {:induction false} RefusalOrphans(w: World, key: BlobKey)
    requires Swept(w, key)
    ensures Orphan(Run(w, EndSteps(false)), key)
  {
    var put := Next(w, ByPacker(0, PutObject(PutDone)));
    var row := [ByPacker(0, UndoRow(false))];
    var undo := [ByPacker(0, UndoObject(false))] + row;
    var refused := Next(put, ByPacker(0, CommitPack(true)));
    var kept := Next(refused, ByPacker(0, UndoObject(false)));
    assert Orphan(kept, key);
    assert Orphan(Next(kept, row[0]), key);
    RunStep(w, ByPacker(0, PutObject(PutDone)), [ByPacker(0, CommitPack(true))] + undo);
    RunStep(put, ByPacker(0, CommitPack(true)), undo);
    RunStep(refused, ByPacker(0, UndoObject(false)), row);
    RunStep(kept, ByPacker(0, UndoRow(false)), []);
  }

  // A packer slower than the sweep of its week.
  lemma {:induction false} SlowPackerOrphans(k: EventKey, data: Payload, cutoff: int, crashed: bool)
    requires SweepRule(WeekStart(k.at), cutoff)
    ensures Orphan(Run(Init(), NamedSteps(k, data) + (SweptSteps(cutoff) + EndSteps(crashed))), FirstKey(k))
  {
    var w := RunNamed(k, data, SweptSteps(cutoff) + EndSteps(crashed));
    var w' := RunSwept(w, cutoff, FirstKey(k), EndSteps(crashed));
    if crashed {
      CrashOrphans(w', FirstKey(k));
    } else {
      RefusalOrphans(w', FirstKey(k));
    }
  }
}
