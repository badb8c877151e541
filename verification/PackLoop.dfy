/**
 * packOne and the Pack/Drain loop as one process runs them against the tables
 * and the blob store, proved to be runs of PackProtocol.
 */
module PackLoop {
  import opened Blobs
  import opened Calendar
  import opened Options
  import opened Sorting
  import opened Tables
  import opened PackProtocol

  const PACK_AGE := 300 * SECOND

  /* ---- SpoolGroups ---- */

  datatype Group = Group(project: int, week: int, bytes: int, oldest: int)

  predicate ByOldest(a: Group, b: Group) {
    a.oldest < b.oldest || (a.oldest == b.oldest && (
    a.project < b.project || (a.project == b.project && (
    a.week < b.week || (a.week == b.week && a.bytes < b.bytes)))))
  }

  function SumBytes(spool: map<EventKey, SpoolRow>, rows: seq<EventKey>): int
    requires forall k :: k in rows ==> k in spool
  {
    if rows == [] then 0 else |spool[rows[0]].data| + SumBytes(spool, rows[1..])
  }

  // min(created_at) over a non-empty group.
  function Oldest(spool: map<EventKey, SpoolRow>, rows: seq<EventKey>): int
    requires rows != [] && forall k :: k in rows ==> k in spool
  {
    var first := spool[rows[0]].created;
    if |rows| == 1 || first <= Oldest(spool, rows[1..]) then first else Oldest(spool, rows[1..])
  }

  lemma {:induction false} OldestIsLeast(spool: map<EventKey, SpoolRow>, rows: seq<EventKey>, i: nat)
    requires i < |rows| && forall k :: k in rows ==> k in spool
    ensures Oldest(spool, rows) <= spool[rows[i]].created
    decreases |rows|
  {
    if i > 0 {
      OldestIsLeast(spool, rows[1..], i - 1);
    }
  }

  function GroupRows(spool: map<EventKey, SpoolRow>, project: int, week: int): (rows: seq<EventKey>)
    ensures forall k :: k in rows <==> k in GroupKeys(spool, project, week)
  {
    Sorted(GroupKeys(spool, project, week), ByTime)
  }

  function GroupOf(spool: map<EventKey, SpoolRow>, k: EventKey): Group
    requires k in spool
  {
    var week := WeekStart(k.at);
    WeekStartIsMonday(k.at);
    assert k in GroupKeys(spool, k.project, week);
    var rows := GroupRows(spool, k.project, week);
    assert k in rows;
    Group(k.project, week, SumBytes(spool, rows), Oldest(spool, rows))
  }

  lemma ByOldestIsOrder()
    ensures StrictOrder(ByOldest)
  {
  }

  function SpoolGroups(spool: map<EventKey, SpoolRow>): (groups: seq<Group>)
    ensures forall k :: k in spool ==> GroupOf(spool, k) in groups
    ensures forall g :: g in groups ==> exists k :: k in spool && g == GroupOf(spool, k)
  {
    ByOldestIsOrder();
    Sorted(set k | k in spool :: GroupOf(spool, k), ByOldest)
  }

  predicate Due(g: Group, now: int, force: bool) {
    force || g.bytes >= PACK_BYTES || now - g.oldest >= PACK_AGE
  }

  ghost predicate NoneDue(groups: seq<Group>, now: int, force: bool) {
    forall g :: g in groups ==> !Due(g, now, force)
  }

  // No row of the spool sits in a group that is due.
  ghost predicate NoRowDue(spool: map<EventKey, SpoolRow>, now: int, force: bool) {
    forall k :: k in spool ==> !Due(GroupOf(spool, k), now, force)
  }

  lemma {:induction false} ListedGroup(spool: map<EventKey, SpoolRow>, i: nat)
    requires i < |SpoolGroups(spool)|
    ensures var g := SpoolGroups(spool)[i]; g.week % WEEK == 0 && GroupKeys(spool, g.project, g.week) != {}
  {
    var g := SpoolGroups(spool)[i];
    assert g in SpoolGroups(spool);
    var k :| k in spool && g == GroupOf(spool, k);
    OwnGroup(spool, k);
  }

  lemma OwnGroup(spool: map<EventKey, SpoolRow>, k: EventKey)
    requires k in spool
    ensures WeekStart(k.at) % WEEK == 0 && GroupKeys(spool, k.project, WeekStart(k.at)) != {}
  {
    WeekStartIsMonday(k.at);
    assert k in GroupKeys(spool, k.project, WeekStart(k.at));
  }

  lemma NoneListed(spool: map<EventKey, SpoolRow>, now: int, force: bool)
    requires NoneDue(SpoolGroups(spool), now, force)
    ensures NoRowDue(spool, now, force)
  {
    forall k | k in spool
      ensures !Due(GroupOf(spool, k), now, force)
    {
      assert GroupOf(spool, k) in SpoolGroups(spool);
    }
  }

  /* ---- when a group is left alone, on its rows ---- */

  function Payloads(spool: map<EventKey, SpoolRow>, rows: seq<EventKey>): seq<Byte>
    requires forall k :: k in rows ==> k in spool
  {
    if rows == [] then [] else spool[rows[0]].data + Payloads(spool, rows[1..])
  }

  // Some rows of one project and week, none twice.
  ghost predicate Listing(spool: map<EventKey, SpoolRow>, project: int, week: int, rows: seq<EventKey>) {
    && (forall i, j :: 0 <= i < j < |rows| ==> rows[i] != rows[j])
    && (forall k :: k in rows ==> k in spool && k.project == project && week <= k.at < week + WEEK)
  }

  // Its payloads together are shorter than a pack, and each row is younger than
  // five minutes.
  ghost predicate Quiet(spool: map<EventKey, SpoolRow>, project: int, week: int, now: int) {
    && (forall rows :: Listing(spool, project, week, rows) ==> |Payloads(spool, rows)| < PACK_BYTES)
    && (forall k :: k in spool && k.project == project && week <= k.at < week + WEEK ==>
          now - spool[k].created < 300_000_000)
  }

  lemma {:induction false} SumIsPayloads(spool: map<EventKey, SpoolRow>, rows: seq<EventKey>)
    requires forall k :: k in rows ==> k in spool
    ensures SumBytes(spool, rows) == |Payloads(spool, rows)|
    decreases |rows|
  {
    if rows != [] {
      SumIsPayloads(spool, rows[1..]);
    }
  }

  lemma {:induction false} PayloadsSplit(spool: map<EventKey, SpoolRow>, a: seq<EventKey>, b: seq<EventKey>)
    requires forall k :: k in a + b ==> k in spool
    ensures |Payloads(spool, a + b)| == |Payloads(spool, a)| + |Payloads(spool, b)|
    decreases |a|
  {
    if a == [] {
      assert a + b == b;
    } else {
      assert (a + b)[1..] == a[1..] + b && (a + b)[0] == a[0];
      PayloadsSplit(spool, a[1..], b);
    }
  }

  // Distinct rows among others hold no more bytes than all of them.
  lemma {:induction false} FewerBytes(spool: map<EventKey, SpoolRow>, rows: seq<EventKey>, all: seq<EventKey>)
    requires forall i, j :: 0 <= i < j < |rows| ==> rows[i] != rows[j]
    requires (forall k :: k in rows ==> k in all) && forall k :: k in all ==> k in spool
    ensures |Payloads(spool, rows)| <= |Payloads(spool, all)|
    decreases |rows|
  {
    if rows != [] {
      assert rows[0] in rows;
      var n: nat :| n < |all| && all[n] == rows[0];
      var before, after := all[..n], all[n + 1..];
      assert all == before + ([all[n]] + after);
      PayloadsSplit(spool, before, [all[n]] + after);
      PayloadsSplit(spool, [all[n]], after);
      PayloadsSplit(spool, before, after);
      assert [all[n]][1..] == [];
      forall k | k in rows[1..]
        ensures k in before + after
      {
        assert k != rows[0] && k in before + ([all[n]] + after);
      }
      FewerBytes(spool, rows[1..], before + after);
    }
  }

  lemma {:induction false} OldestIsOne(spool: map<EventKey, SpoolRow>, rows: seq<EventKey>) returns (i: nat)
    requires rows != [] && forall k :: k in rows ==> k in spool
    ensures i < |rows| && Oldest(spool, rows) == spool[rows[i]].created
    decreases |rows|
  {
    i := 0;
    if |rows| > 1 && spool[rows[0]].created > Oldest(spool, rows[1..]) {
      var j := OldestIsOne(spool, rows[1..]);
      i := j + 1;
    }
  }

  lemma GroupListing(spool: map<EventKey, SpoolRow>, k: EventKey)
    requires k in spool
    ensures var rows := GroupRows(spool, k.project, WeekStart(k.at));
      rows != [] && Listing(spool, k.project, WeekStart(k.at), rows)
  {
    WeekStartIsMonday(k.at);
    var rows := GroupRows(spool, k.project, WeekStart(k.at));
    assert k in GroupKeys(spool, k.project, WeekStart(k.at)) && k in rows;
    AscendingDistinct(rows, ByTime);
  }

  // A listed group is due exactly when its rows are not quiet.
  lemma {:induction false} DueIff(spool: map<EventKey, SpoolRow>, k: EventKey, now: int)
    requires k in spool
    ensures Due(GroupOf(spool, k), now, false) <==> !Quiet(spool, k.project, WeekStart(k.at), now)
  {
    var week := WeekStart(k.at);
    var all := GroupRows(spool, k.project, week);
    GroupListing(spool, k);
    SumIsPayloads(spool, all);
    forall rows | Listing(spool, k.project, week, rows)
      ensures |Payloads(spool, rows)| <= |Payloads(spool, all)|
    {
      FewerBytes(spool, rows, all);
    }
    OldestDecides(spool, all, now);
  }

  lemma OldestDecides(spool: map<EventKey, SpoolRow>, rows: seq<EventKey>, now: int)
    requires rows != [] && forall k :: k in rows ==> k in spool
    ensures now - Oldest(spool, rows) < PACK_AGE <==> forall k :: k in rows ==> now - spool[k].created < PACK_AGE
  {
    var i := OldestIsOne(spool, rows);
    assert rows[i] in rows;
    forall k | k in rows
      ensures Oldest(spool, rows) <= spool[k].created
    {
      var j: nat :| j < |rows| && rows[j] == k;
      OldestIsLeast(spool, rows, j);
    }
  }

  // No row due, said of every project and Monday: every group is quiet.
  lemma {:induction false} NoneDueIsQuiet(spool: map<EventKey, SpoolRow>, now: int, project: int, week: int)
    requires NoRowDue(spool, now, false) && week % WEEK == 0
    ensures Quiet(spool, project, week, now)
  {
    forall rows: seq<EventKey> | Listing(spool, project, week, rows)
      ensures |Payloads(spool, rows)| < PACK_BYTES
    {
      if rows != [] {
        assert rows[0] in rows;
        SameWeek(rows[0].at, week);
        DueIff(spool, rows[0], now);
      }
    }
    forall k | k in spool && k.project == project && week <= k.at < week + WEEK
      ensures now - spool[k].created < PACK_AGE
    {
      SameWeek(k.at, week);
      DueIff(spool, k, now);
    }
  }

  // Every group of the spool is quiet.
  ghost predicate AllQuiet(spool: map<EventKey, SpoolRow>, now: int) {
    forall project, week :: week % WEEK == 0 ==> Quiet(spool, project, week, now)
  }

  lemma NoneDueIsAllQuiet(spool: map<EventKey, SpoolRow>, now: int)
    requires NoRowDue(spool, now, false)
    ensures AllQuiet(spool, now)
  {
    forall project, week | week % WEEK == 0
      ensures Quiet(spool, project, week, now)
    {
      NoneDueIsQuiet(spool, now, project, week);
    }
  }

  // Rows only leave the spool, and none leaves a quiet group.
  ghost predicate OnlyDueLeave(was: map<EventKey, SpoolRow>, spool: map<EventKey, SpoolRow>, now: int) {
    && (forall k :: k in spool ==> k in was && spool[k] == was[k])
    && (forall k :: k in was && k !in spool ==> !Quiet(was, k.project, WeekStart(k.at), now))
  }

  lemma {:induction false} SamePayloads(a: map<EventKey, SpoolRow>, b: map<EventKey, SpoolRow>, rows: seq<EventKey>)
    requires forall k :: k in rows ==> k in a && k in b && a[k] == b[k]
    ensures Payloads(a, rows) == Payloads(b, rows)
    decreases |rows|
  {
    if rows != [] {
      SamePayloads(a, b, rows[1..]);
    }
  }

  lemma QuietShrinks(was: map<EventKey, SpoolRow>, spool: map<EventKey, SpoolRow>, project: int, week: int, now: int)
    requires Quiet(was, project, week, now) && forall k :: k in spool ==> k in was && spool[k] == was[k]
    ensures Quiet(spool, project, week, now)
  {
    forall rows: seq<EventKey> | Listing(spool, project, week, rows)
      ensures |Payloads(spool, rows)| < PACK_BYTES
    {
      assert Listing(was, project, week, rows);
      SamePayloads(spool, was, rows);
    }
  }

  lemma DueLeaveThen(
      a: map<EventKey, SpoolRow>, b: map<EventKey, SpoolRow>, c: map<EventKey, SpoolRow>, now: int)
    requires OnlyDueLeave(a, b, now) && OnlyDueLeave(b, c, now)
    ensures OnlyDueLeave(a, c, now)
  {
    forall k | k in a && k !in c
      ensures !Quiet(a, k.project, WeekStart(k.at), now)
    {
      if k in b && Quiet(a, k.project, WeekStart(k.at), now) {
        QuietShrinks(a, b, k.project, WeekStart(k.at), now);
      }
    }
  }

  predicate InGroup(k: EventKey, g: Group) {
    k.project == g.project && g.week <= k.at < g.week + WEEK
  }

  // Rows only of these groups leave.
  ghost predicate OnlyOf(was: map<EventKey, SpoolRow>, spool: map<EventKey, SpoolRow>, gone: set<Group>) {
    && (forall k :: k in spool ==> k in was && spool[k] == was[k])
    && (forall k :: k in was && k !in spool ==> exists g :: g in gone && InGroup(k, g))
  }

  lemma OnlyOfThen(
      a: map<EventKey, SpoolRow>, b: map<EventKey, SpoolRow>, c: map<EventKey, SpoolRow>, gone: set<Group>, g: Group)
    requires OnlyOf(a, b, gone) && OnlyOf(b, c, {g})
    ensures OnlyOf(a, c, gone + {g})
  {
    forall k | k in a && k !in c
      ensures exists h :: h in gone + {g} && InGroup(k, h)
    {
      if k in b {
        var h :| h in {g} && InGroup(k, h);
        assert h in gone + {g};
      } else {
        var h :| h in gone && InGroup(k, h);
        assert h in gone + {g};
      }
    }
  }

  // The groups packed were listed and due: no quiet group lost a row.
  lemma {:induction false} GroupsLeave(
      was: map<EventKey, SpoolRow>, spool: map<EventKey, SpoolRow>, gone: set<Group>, now: int)
    requires OnlyOf(was, spool, gone) && forall g :: g in gone ==> g in SpoolGroups(was) && Due(g, now, false)
    ensures OnlyDueLeave(was, spool, now)
  {
    forall k | k in was && k !in spool
      ensures !Quiet(was, k.project, WeekStart(k.at), now)
    {
      var g :| g in gone && InGroup(k, g);
      LeaverWasDue(was, k, g, now);
    }
  }

  lemma LeaverWasDue(was: map<EventKey, SpoolRow>, k: EventKey, g: Group, now: int)
    requires InGroup(k, g) && g in SpoolGroups(was) && Due(g, now, false)
    ensures !Quiet(was, k.project, WeekStart(k.at), now)
  {
    var k0 :| k0 in was && g == GroupOf(was, k0);
    DueIff(was, k0, now);
    WeekStartIsMonday(k0.at);
    SameWeek(k.at, g.week);
  }

  lemma KeysLeave(was: map<EventKey, SpoolRow>, spool: map<EventKey, SpoolRow>, g: Group)
    requires forall k :: k in spool ==> k in was && spool[k] == was[k]
    requires forall k :: k in was && k !in spool ==> k in GroupKeys(was, g.project, g.week)
    ensures OnlyOf(was, spool, {g})
  {
    forall k | k in was && k !in spool
      ensures exists h :: h in {g} && InGroup(k, h)
    {
      assert g in {g} && InGroup(k, g);
    }
  }

  /* ---- the calls of one packOne, as protocol steps ---- */

  datatype Fault =
    | NoFault
    | ReadFault
    | NameFault
    | PutFault(outcome: PutOutcome, rowDeleted: bool)
    | CommitFault(objectDeleted: bool, rowDeleted: bool)

  predicate FaultOk(f: Fault) {
    f.PutFault? ==> !f.outcome.PutDone?
  }

  // The fault meets packOne before it has a packs row.
  predicate Early(f: Fault) {
    f.ReadFault? || f.NameFault?
  }

  // The calls once the packs row exists.
  function NamedCalls(f: Fault): seq<PackerCall>
    requires !Early(f)
  {
    match f
    case NoFault => [PutObject(PutDone), CommitPack(true)]
    case PutFault(outcome, row) => [PutObject(outcome), UndoRow(row)]
    case CommitFault(blob, row) => [PutObject(PutDone), CommitPack(false), UndoObject(blob), UndoRow(row)]
  }

  // The calls once the rows are read and cut.
  function CutCalls(f: Fault): seq<PackerCall> {
    if Early(f) then [CrashPacker] + [] else [NamePack] + NamedCalls(f)
  }

  function PackOneCalls(project: int, week: int, f: Fault): seq<PackerCall> {
    if f.ReadFault? then [] else [Collect(project, week)] + CutCalls(f)
  }

  function Calls(w: World, calls: seq<PackerCall>): World
    decreases |calls|
  {
    if calls == [] then w else Calls(PackerNext(w, 0, calls[0]), calls[1..])
  }

  // The tables and objects with no other packer, sweeper or reader about.
  function Alone(db: Db, objects: Objects): World {
    World(db, objects, map[], map[], map[], 0, map[])
  }

  lemma {:induction false} RunConcat(w: World, a: seq<Step>, b: seq<Step>)
    ensures Run(w, a + b) == Run(Run(w, a), b)
    decreases |a|
  {
    if a == [] {
      assert a + b == b;
    } else {
      assert (a + b)[1..] == a[1..] + b;
      RunConcat(Next(w, a[0]), a[1..], b);
    }
  }

  function NameTables(db: Db, project: int, week: int): Db {
    db.(packs := db.packs[db.nextPack := PackRow(project, week, 0)], nextPack := db.nextPack + 1)
  }

  // What packOne leaves behind, fault by fault.
  function AfterPackOne(db: Db, objects: Objects, project: int, week: int, f: Fault): (Db, Objects) {
    var cut := CutOf(db.spool, project, week);
    var id := db.nextPack;
    var named := NameTables(db, project, week);
    var key := PackKey(project, week, id);
    if GroupKeys(db.spool, project, week) == {} then (db, objects)
    else
      match f
      case NoFault => (CommitTables(named, id, cut), objects[key := cut.buf])
      case ReadFault => (db, objects)
      case NameFault => (db, objects)
      case PutFault(outcome, row) =>
        (if row then DeletePack(named, id) else named, if outcome.PutRefused? then objects else objects[key := cut.buf])
      case CommitFault(blob, row) =>
        (if row then DeletePack(named, id) else named,
         if blob then objects[key := cut.buf] - {key} else objects[key := cut.buf])
  }

  // The calls of one packer are a run of the protocol.
  lemma {:induction false} CallsRun(w: World, calls: seq<PackerCall>) returns (steps: seq<Step>)
    ensures Run(w, steps) == Calls(w, calls)
    decreases |calls|
  {
    if calls == [] {
      steps := [];
    } else {
      var rest := CallsRun(PackerNext(w, 0, calls[0]), calls[1..]);
      steps := [ByPacker(0, calls[0])] + rest;
    }
  }

  lemma CallStep(w: World, call: PackerCall, rest: seq<PackerCall>)
    ensures Calls(w, [call] + rest) == Calls(PackerNext(w, 0, call), rest)
  {
    assert ([call] + rest)[1..] == rest;
  }

  lemma {:induction false} CallsIdle(w: World, calls: seq<PackerCall>)
    requires w.packers == map[] && forall c :: c in calls ==> !c.Collect?
    ensures Calls(w, calls) == w
    decreases |calls|
  {
    if calls != [] {
      assert w.packers - {0} == w.packers;
      assert PackerNext(w, 0, calls[0]) == w;
      CallsIdle(w, calls[1..]);
    }
  }

  function One(w: World, p: Packer): World {
    w.(packers := map[0 := p])
  }

  lemma CallsNoFault(w: World, p: Packer)
    requires p.Named? && p.pack in w.db.packs
    ensures Calls(One(w, p), NamedCalls(NoFault)) ==
      w.(db := CommitTables(w.db, p.pack, p.cut), objects := w.objects[KeyOf(p) := p.cut.buf], packers := map[])
  {
    var w1 := PutObjectStep(One(w, p), 0, PutDone);
    CallStep(One(w, p), PutObject(PutDone), [CommitPack(true)]);
    CallStep(w1, CommitPack(true), []);
    assert w1.packers - {0} == map[];
  }

  lemma CallsPutFault(w: World, p: Packer, f: Fault)
    requires p.Named? && f.PutFault? && FaultOk(f)
    ensures Calls(One(w, p), NamedCalls(f)) ==
      w.(db := if f.rowDeleted then DeletePack(w.db, p.pack) else w.db,
         objects := if f.outcome.PutRefused? then w.objects else w.objects[KeyOf(p) := p.cut.buf], packers := map[])
  {
    var w1 := PutObjectStep(One(w, p), 0, f.outcome);
    CallStep(One(w, p), PutObject(f.outcome), [UndoRow(f.rowDeleted)]);
    CallStep(w1, UndoRow(f.rowDeleted), []);
    assert w1.packers - {0} == map[];
  }

  lemma CallsUndo(w: World, p: Packer, blob: bool, row: bool)
    requires p.Undoing? && w.packers == map[0 := p]
    ensures Calls(w, [UndoObject(blob), UndoRow(row)]) ==
      w.(db := if row then DeletePack(w.db, p.pack) else w.db,
         objects := if blob then w.objects - {KeyOf(p)} else w.objects, packers := map[])
  {
    var w1 := UndoObjectStep(w, 0, blob);
    CallStep(w, UndoObject(blob), [UndoRow(row)]);
    CallStep(w1, UndoRow(row), []);
    assert w1.packers - {0} == map[];
  }

  lemma CallsCommitFault(w: World, p: Packer, f: Fault)
    requires p.Named? && f.CommitFault?
    ensures Calls(One(w, p), NamedCalls(f)) ==
      w.(db := if f.rowDeleted then DeletePack(w.db, p.pack) else w.db,
         objects := if f.objectDeleted then w.objects[KeyOf(p) := p.cut.buf] - {KeyOf(p)}
                    else w.objects[KeyOf(p) := p.cut.buf],
         packers := map[])
  {
    var w1 := PutObjectStep(One(w, p), 0, PutDone);
    CallStep(One(w, p), PutObject(PutDone), [CommitPack(false), UndoObject(f.objectDeleted), UndoRow(f.rowDeleted)]);
    var w2 := CommitPackStep(w1, 0, false);
    CallStep(w1, CommitPack(false), [UndoObject(f.objectDeleted), UndoRow(f.rowDeleted)]);
    assert w2.packers == map[0 := Undoing(p.project, p.week, p.pack)];
    CallsUndo(w2, Undoing(p.project, p.week, p.pack), f.objectDeleted, f.rowDeleted);
  }

  lemma CallsCollected(w: World, project: int, week: int, cut: Cut, rest: seq<PackerCall>)
    ensures var named := w.(db := NameTables(w.db, project, week));
      Calls(One(w, Collected(project, week, cut)), [NamePack] + rest) ==
      Calls(One(named, Named(project, week, cut, w.db.nextPack)), rest)
  {
    CallStep(One(w, Collected(project, week, cut)), NamePack, rest);
    NameAlone(w, project, week, cut);
  }

  lemma NameAlone(w: World, project: int, week: int, cut: Cut)
    ensures NamePackStep(One(w, Collected(project, week, cut)), 0) ==
      One(w.(db := NameTables(w.db, project, week)), Named(project, week, cut, w.db.nextPack))
  {
    var named := Named(project, week, cut, w.db.nextPack);
    assert map[0 := Collected(project, week, cut)][0 := named] == map[0 := named];
  }

  lemma CallsNamed(db: Db, objects: Objects, project: int, week: int, f: Fault)
    requires FaultOk(f) && !Early(f) && GroupKeys(db.spool, project, week) != {}
    ensures var (db', objects') := AfterPackOne(db, objects, project, week, f);
      Calls(One(Alone(NameTables(db, project, week), objects),
                Named(project, week, CutOf(db.spool, project, week), db.nextPack)),
            NamedCalls(f)) == Alone(db', objects')
  {
    var w := Alone(NameTables(db, project, week), objects);
    var p := Named(project, week, CutOf(db.spool, project, week), db.nextPack);
    match f
    case NoFault => CallsNoFault(w, p);
    case PutFault(_, _) => CallsPutFault(w, p, f);
    case CommitFault(_, _) => CallsCommitFault(w, p, f);
  }

  lemma CallsCrash(w: World, p: Packer)
    requires w.packers == map[]
    ensures Calls(One(w, p), [CrashPacker] + []) == w
  {
    CallStep(One(w, p), CrashPacker, []);
    assert One(w, p).packers - {0} == map[];
  }

  lemma CallsOnCut(db: Db, objects: Objects, project: int, week: int, f: Fault)
    requires FaultOk(f) && GroupKeys(db.spool, project, week) != {}
    ensures var (db', objects') := AfterPackOne(db, objects, project, week, f);
      Calls(One(Alone(db, objects), Collected(project, week, CutOf(db.spool, project, week))), CutCalls(f))
        == Alone(db', objects')
  {
    var w := Alone(db, objects);
    var cut := CutOf(db.spool, project, week);
    if Early(f) {
      CallsCrash(w, Collected(project, week, cut));
    } else {
      CallsCollected(w, project, week, cut, NamedCalls(f));
      CallsNamed(db, objects, project, week, f);
    }
  }

  lemma CallsOnNothing(w: World, f: Fault)
    requires w.packers == map[]
    ensures Calls(w, CutCalls(f)) == w
  {
    CallsIdle(w, CutCalls(f));
  }

  // packOne, whatever fails in it, is the calls of one packer.
  lemma PackOneIsCalls(db: Db, objects: Objects, project: int, week: int, f: Fault)
    requires FaultOk(f) && week % WEEK == 0
    ensures var (db', objects') := AfterPackOne(db, objects, project, week, f);
      Calls(Alone(db, objects), PackOneCalls(project, week, f)) == Alone(db', objects')
  {
    if f.ReadFault? {
      return;
    }
    var w := Alone(db, objects);
    SameWeek(week, week);
    CallStep(w, Collect(project, week), CutCalls(f));
    if GroupKeys(db.spool, project, week) == {} {
      assert PackerNext(w, 0, Collect(project, week)) == w;
      CallsOnNothing(w, f);
    } else {
      assert PackerNext(w, 0, Collect(project, week)) ==
        One(w, Collected(project, week, CutOf(db.spool, project, week)));
      CallsOnCut(db, objects, project, week, f);
    }
  }

  // A pack that is committed has its row, with the size of its object.
  lemma PackedRow(db: Db, objects: Objects, project: int, week: int)
    requires GroupKeys(db.spool, project, week) != {}
    ensures var (db', objects') := AfterPackOne(db, objects, project, week, NoFault);
      var key := PackKey(project, week, db.nextPack);
      && key in objects' && objects' - {key} == objects - {key}
      && db.nextPack in db'.packs && db'.packs[db.nextPack] == PackRow(project, week, |objects'[key]|)
      && db'.packs - {db.nextPack} == db.packs - {db.nextPack} && db'.nextPack == db.nextPack + 1
  {
    PackedCut(db, objects, project, week, CutOf(db.spool, project, week));
  }

  lemma PackedCut(db: Db, objects: Objects, project: int, week: int, cut: Cut)
    ensures var db' := CommitTables(NameTables(db, project, week), db.nextPack, cut);
      var key := PackKey(project, week, db.nextPack);
      && objects[key := cut.buf] - {key} == objects - {key} && db'.nextPack == db.nextPack + 1
      && db'.packs == db.packs[db.nextPack := PackRow(project, week, |cut.buf|)]
      && db'.packs - {db.nextPack} == db.packs - {db.nextPack}
  {
  }

  lemma {:induction false} DistinctKeys(entries: seq<Entry>)
    requires forall i, j :: 0 <= i < j < |entries| ==> entries[i].key != entries[j].key
    ensures |CutKeys(entries)| == |entries|
  {
    if entries != [] {
      var n := |entries| - 1;
      DistinctKeys(entries[..n]);
      assert CutKeys(entries) == CutKeys(entries[..n]) + {entries[n].key} by {
        assert forall j :: 0 <= j < n ==> entries[..n][j] == entries[j];
      }
      assert entries[n].key !in CutKeys(entries[..n]);
    }
  }

  lemma CutRows(spool: map<EventKey, SpoolRow>, project: int, week: int)
    ensures var rows := SpoolRows(spool, project, week); var cut := CutOf(spool, project, week);
      && CutSound(cut, spool) && |cut.entries| <= |rows|
      && (forall i :: 0 <= i < |cut.entries| ==> cut.entries[i].key == rows[i])
      && (|rows| > 0 ==> |cut.entries| > 0)
  {
    var rows := SpoolRows(spool, project, week);
    FillSound(Cut([], []), spool, rows);
    FillTakesPrefix(Cut([], []), spool, rows);
    assert CutOf(spool, project, week) == Fill(Cut([], []), spool, rows);
  }

  // A pack takes at least one row of a non-empty group, no row twice, tiles its
  // object exactly, and is over PACK_BYTES only for a single payload.
  lemma {:induction false} PackTakesRows(spool: map<EventKey, SpoolRow>, project: int, week: int)
    ensures var cut := CutOf(spool, project, week);
      && CutSound(cut, spool)
      && CutKeys(cut.entries) <= GroupKeys(spool, project, week)
      && |CutKeys(cut.entries)| == |cut.entries|
      && (GroupKeys(spool, project, week) != {} ==> |cut.entries| >= 1)
  {
    var rows := SpoolRows(spool, project, week);
    CutRows(spool, project, week);
    AscendingDistinct(rows, ByTime);
    DistinctKeys(CutOf(spool, project, week).entries);
  }

  // The world one process leaves after some steps of the protocol.
  ghost predicate Ran(db: Db, objects: Objects, steps: seq<Step>, db': Db, objects': Objects) {
    Run(Alone(db, objects), steps) == Alone(db', objects')
  }

  lemma RanThen(
      db: Db, objects: Objects, a: seq<Step>, db1: Db, objects1: Objects, b: seq<Step>, db2: Db, objects2: Objects)
    requires Ran(db, objects, a, db1, objects1) && Ran(db1, objects1, b, db2, objects2)
    ensures Ran(db, objects, a + b, db2, objects2)
  {
    RunConcat(Alone(db, objects), a, b);
  }

  // A packOne that fails leaves the spool alone.
  lemma FaultKeepsSpool(db: Db, objects: Objects, project: int, week: int, f: Fault)
    requires !f.NoFault?
    ensures AfterPackOne(db, objects, project, week, f).0.spool == db.spool
  {
    match f
    case ReadFault =>
    case NameFault =>
    case PutFault(outcome, row) => assert NameTables(db, project, week).spool == db.spool;
    case CommitFault(blob, row) => assert NameTables(db, project, week).spool == db.spool;
  }

  lemma PackMovesRows(db: Db, objects: Objects, project: int, week: int)
    ensures var (db', _) := AfterPackOne(db, objects, project, week, NoFault);
      && db'.spool.Keys <= db.spool.Keys && (forall k :: k in db'.spool ==> db'.spool[k] == db.spool[k])
      && (forall k :: k in db.spool && k !in db'.spool ==> k in GroupKeys(db.spool, project, week))
      && (GroupKeys(db.spool, project, week) != {} ==>
            var n := |CutOf(db.spool, project, week).entries|; n > 0 && |db'.spool| == |db.spool| - n)
      && (GroupKeys(db.spool, project, week) == {} ==> db' == db)
  {
    PackTakesRows(db.spool, project, week);
    var (db', _) := AfterPackOne(db, objects, project, week, NoFault);
    if GroupKeys(db.spool, project, week) != {} {
      assert db'.spool.Keys == db.spool.Keys - CutKeys(CutOf(db.spool, project, week).entries);
      assert |db.spool.Keys| == |db'.spool.Keys| + |CutKeys(CutOf(db.spool, project, week).entries)|;
    }
  }

  // What the loop's packOne calls meet, one after another.
  type Faults = nat -> Fault

  ghost predicate FaultsOk(faults: Faults) {
    forall i :: FaultOk(faults(i))
  }

  ghost predicate Faultless(faults: Faults) {
    forall i :: faults(i).NoFault?
  }

  /* ---- the process ---- */

  /* ---- ExpirePacks ---- */

  // How the two deletes of an expired pack end: both done, the object left, or the
  // object gone and the row left.
  datatype SweepFault = BothGone | BlobKept | RowKept

  function SweepStart(db: Db, objects: Objects, cutoff: int): World {
    World(db, objects, map[], map[0 := Sweeper(cutoff, map[], None, false)], map[], 0, map[])
  }

  function SweepHand(db: Db, objects: Objects, cutoff: int, todo: map<nat, BlobKey>): World {
    World(db, objects, map[], map[0 := Sweeper(cutoff, todo, None, true)], map[], 0, map[])
  }

  function ExpiredKeys(packs: map<nat, PackRow>, cutoff: int): map<nat, BlobKey> {
    map id | id in packs && SweepRule(packs[id].week, cutoff) :: PackKey(packs[id].project, packs[id].week, id)
  }

  function SweepSteps(id: nat, f: SweepFault): seq<Step> {
    match f
    case BothGone => [BySweeper(0, SweepObject(id, true)), BySweeper(0, SweepRow)]
    case BlobKept => [BySweeper(0, SweepObject(id, false))]
    case RowKept => [BySweeper(0, SweepObject(id, true)), BySweeper(0, CrashSweeper)]
  }

  lemma RunStep(w: World, s: Step, rest: seq<Step>)
    ensures Run(w, [s] + rest) == Run(Next(w, s), rest)
  {
    assert ([s] + rest)[1..] == rest;
  }

  lemma PackSwept(db: Db, objects: Objects, cutoff: int, todo: map<nat, BlobKey>, id: nat, f: SweepFault)
    requires id in todo
    ensures Run(SweepHand(db, objects, cutoff, todo), SweepSteps(id, f)) ==
      match f
      case BothGone => SweepHand(DeletePack(db, id), objects - {todo[id]}, cutoff, todo - {id})
      case BlobKept => SweepHand(db, objects, cutoff, todo - {id})
      case RowKept => Alone(db, objects - {todo[id]})
  {
    var w := SweepHand(db, objects, cutoff, todo);
    match f
    case BothGone =>
      var w1 := SweepObjectStep(w, 0, id, true);
      RunStep(w, BySweeper(0, SweepObject(id, true)), [BySweeper(0, SweepRow)]);
      RunStep(w1, BySweeper(0, SweepRow), []);
    case BlobKept =>
      RunStep(w, BySweeper(0, SweepObject(id, false)), []);
    case RowKept =>
      var w1 := SweepObjectStep(w, 0, id, true);
      RunStep(w, BySweeper(0, SweepObject(id, true)), [BySweeper(0, CrashSweeper)]);
      RunStep(w1, BySweeper(0, CrashSweeper), []);
      assert w1.sweepers - {0} == map[];
  }

  lemma SpoolSwept(db: Db, objects: Objects, cutoff: int)
    ensures Run(SweepHand(db, objects, cutoff, map[]), [BySweeper(0, SweepSpool)]) ==
      Alone(db.(spool := Fresh(db.spool, cutoff)), objects)
    ensures Run(SweepHand(db, objects, cutoff, map[]), [BySweeper(0, CrashSweeper)]) == Alone(db, objects)
  {
    var w := SweepHand(db, objects, cutoff, map[]);
    RunStep(w, BySweeper(0, SweepSpool), []);
    RunStep(w, BySweeper(0, CrashSweeper), []);
    assert w.sweepers - {0} == map[];
  }

  lemma SweepListed(db: Db, objects: Objects, cutoff: int)
    ensures Run(SweepStart(db, objects, cutoff), [BySweeper(0, ListExpired)]) ==
      SweepHand(db, objects, cutoff, ExpiredKeys(db.packs, cutoff))
  {
    RunStep(SweepStart(db, objects, cutoff), BySweeper(0, ListExpired), []);
  }

  // ExpireSpool.
  function Fresh(spool: map<EventKey, SpoolRow>, cutoff: int): map<EventKey, SpoolRow> {
    map k | k in spool && !SweepRule(WeekStart(k.at), cutoff) :: spool[k]
  }

  // The packs of gone are without row and object, those of bare without object;
  // nothing else has changed.
  ghost predicate PacksGone(was: Db, blobs: Objects, db: Db, objects: Objects, gone: set<nat>, bare: set<nat>) {
    && gone <= was.packs.Keys && bare <= was.packs.Keys
    && db.packs == was.packs - gone
    && db.places == (map k | k in was.places && was.places[k].pack !in gone :: was.places[k])
    && objects == blobs - (set id | id in gone + bare :: PackKey(was.packs[id].project, was.packs[id].week, id))
    && db.events == was.events && db.spool == was.spool && db.nextPack == was.nextPack
  }

  // What is left of the list, with the keys of its objects.
  function Left(packs: map<nat, PackRow>, list: seq<nat>): map<nat, BlobKey> {
    map id | id in list && id in packs :: PackKey(packs[id].project, packs[id].week, id)
  }

  lemma LeftLess(packs: map<nat, PackRow>, list: seq<nat>)
    requires list != [] && forall i, j :: 0 <= i < j < |list| ==> list[i] != list[j]
    ensures Left(packs, list) - {list[0]} == Left(packs, list[1..]) && list[0] in list
    ensures list[0] in packs ==> list[0] in Left(packs, list)
  {
    assert list == [list[0]] + list[1..] && list[0] !in list[1..];
  }

  // The packs of the list whose deletes both succeed.
  function Whole(list: seq<nat>, fault: nat -> SweepFault): set<nat> {
    set id | id in list && fault(id).BothGone?
  }

  predicate AllWhole(list: seq<nat>, fault: nat -> SweepFault) {
    forall id :: id in list ==> fault(id).BothGone?
  }

  lemma WholeMore(list: seq<nat>, i: nat, fault: nat -> SweepFault)
    requires i < |list| && (forall k, j :: 0 <= k < j < |list| ==> list[k] != list[j])
    ensures list[i] !in Whole(list[..i], fault) && Whole(list[..i], fault) <= Whole(list, fault)
    ensures Whole(list[..i + 1], fault) ==
      if fault(list[i]).BothGone? then Whole(list[..i], fault) + {list[i]} else Whole(list[..i], fault)
    ensures AllWhole(list[..i + 1], fault) <==> AllWhole(list[..i], fault) && fault(list[i]).BothGone?
    ensures AllWhole(list, fault) ==> AllWhole(list[..i + 1], fault)
    ensures list[i..][0] == list[i] && list[i..][1..] == list[i + 1..]
  {
    assert list[..i + 1] == list[..i] + [list[i]];
    assert list[i] !in list[..i];
    assert list == list[..i + 1] + list[i + 1..];
  }

  lemma OneGone(was: Db, blobs: Objects, db: Db, objects: Objects, gone: set<nat>, id: nat)
    requires PacksGone(was, blobs, db, objects, gone, {}) && id in was.packs
    ensures var key := PackKey(was.packs[id].project, was.packs[id].week, id);
      && PacksGone(was, blobs, DeletePack(db, id), objects - {key}, gone + {id}, {})
      && PacksGone(was, blobs, db, objects - {key}, gone, {id})
  {
    var key := PackKey(was.packs[id].project, was.packs[id].week, id);
    var keys := set g | g in gone :: PackKey(was.packs[g].project, was.packs[g].week, g);
    assert (set g | g in gone + {} :: PackKey(was.packs[g].project, was.packs[g].week, g)) == keys;
    assert (set g | g in gone + {id} :: PackKey(was.packs[g].project, was.packs[g].week, g)) == keys + {key};
    assert (set g | g in gone + {id} + {} :: PackKey(was.packs[g].project, was.packs[g].week, g)) == keys + {key};
    assert blobs - (keys + {key}) == objects - {key};
    assert was.packs - (gone + {id}) == db.packs - {id};
  }

  lemma WholeIs(list: seq<nat>, fault: nat -> SweepFault, ids: set<nat>, n: nat)
    requires n <= |list| && forall id :: id in list <==> id in ids
    ensures Whole(list[..n], fault) <= Whole(list, fault) <= ids && list[..|list|] == list
    ensures AllWhole(list, fault) ==> Whole(list, fault) == ids
    ensures forall id :: id in Whole(list, fault) ==> id in list && !fault(id).BlobKept?
  {
    assert list == list[..n] + list[n..];
  }

  // i packs of the list are through, every one with its object deleted or left.
  ghost predicate Through(
      was: Db, blobs: Objects, cutoff: int, list: seq<nat>, fault: nat -> SweepFault,
      i: nat, steps: seq<Step>, db: Db, objects: Objects, gone: set<nat>) {
    && i <= |list|
    && Run(SweepHand(was, blobs, cutoff, Left(was.packs, list)), steps) ==
         SweepHand(db, objects, cutoff, Left(was.packs, list[i..]))
    && PacksGone(was, blobs, db, objects, gone, {}) && gone == Whole(list[..i], fault)
  }

  // The row of pack i stayed after its object had gone.
  ghost predicate StoppedAt(
      was: Db, blobs: Objects, cutoff: int, list: seq<nat>, fault: nat -> SweepFault,
      i: nat, steps: seq<Step>, db: Db, objects: Objects, gone: set<nat>) {
    && i < |list| && fault(list[i]).RowKept? && list[i] in was.packs
    && Run(SweepHand(was, blobs, cutoff, Left(was.packs, list)), steps) == Alone(db, objects)
    && PacksGone(was, blobs, db, objects, gone, {list[i]}) && gone == Whole(list[..i], fault)
  }

  lemma NoneThrough(was: Db, blobs: Objects, cutoff: int, list: seq<nat>, fault: nat -> SweepFault)
    ensures Through(was, blobs, cutoff, list, fault, 0, [], was, blobs, {})
  {
    assert list[0..] == list && blobs - {} == blobs && was.packs - {} == was.packs;
  }

  function PackDeleted(db: Db, id: nat, f: SweepFault): Db {
    if f.BothGone? then DeletePack(db, id) else db
  }

  function ObjectDeleted(db: Db, objects: Objects, id: nat, f: SweepFault): Objects
    requires id in db.packs
  {
    if f.BlobKept? then objects else objects - {PackKey(db.packs[id].project, db.packs[id].week, id)}
  }

  lemma {:induction false} OneThrough(
      was: Db, blobs: Objects, cutoff: int, list: seq<nat>, fault: nat -> SweepFault,
      i: nat, steps: seq<Step>, db: Db, objects: Objects, gone: set<nat>)
    requires Through(was, blobs, cutoff, list, fault, i, steps, db, objects, gone) && i < |list|
    requires (forall k, j :: 0 <= k < j < |list| ==> list[k] != list[j]) && list[i] in was.packs
    ensures list[i] in db.packs && list[i] !in gone
    ensures var id := list[i]; var f := fault(id);
      var db', objects' := PackDeleted(db, id, f), ObjectDeleted(db, objects, id, f);
      if f.RowKept? then
        StoppedAt(was, blobs, cutoff, list, fault, i, steps + SweepSteps(id, f), db', objects', gone)
      else Through(was, blobs, cutoff, list, fault, i + 1, steps + SweepSteps(id, f), db', objects',
             if f.BothGone? then gone + {id} else gone)
  {
    var id := list[i];
    LeftLess(was.packs, list[i..]);
    WholeMore(list, i, fault);
    PackSwept(db, objects, cutoff, Left(was.packs, list[i..]), id, fault(id));
    RunConcat(SweepHand(was, blobs, cutoff, Left(was.packs, list)), steps, SweepSteps(id, fault(id)));
    OneGone(was, blobs, db, objects, gone, id);
  }

  // From the query of the expired packs to the spool's rows.
  lemma {:induction false} SweepRuns(
      was: Db, blobs: Objects, cutoff: int, list: seq<nat>, fault: nat -> SweepFault,
      steps: seq<Step>, db: Db, objects: Objects, gone: set<nat>, call: SweeperCall)
    requires Through(was, blobs, cutoff, list, fault, |list|, steps, db, objects, gone)
    requires forall id :: id in list <==> id in ExpiredKeys(was.packs, cutoff)
    requires call == SweepSpool || call == CrashSweeper
    ensures Run(SweepStart(was, blobs, cutoff), [BySweeper(0, ListExpired)] + steps + [BySweeper(0, call)]) ==
      Alone(if call == SweepSpool then db.(spool := Fresh(db.spool, cutoff)) else db, objects)
  {
    var start, first, last := SweepStart(was, blobs, cutoff), [BySweeper(0, ListExpired)], [BySweeper(0, call)];
    SweepListed(was, blobs, cutoff);
    assert Left(was.packs, list) == ExpiredKeys(was.packs, cutoff) && Left(was.packs, list[|list|..]) == map[];
    RunConcat(start, first, steps);
    RunConcat(start, first + steps, last);
    SpoolSwept(db, objects, cutoff);
  }

  lemma {:induction false} StopRuns(
      was: Db, blobs: Objects, cutoff: int, list: seq<nat>, fault: nat -> SweepFault,
      i: nat, steps: seq<Step>, db: Db, objects: Objects, gone: set<nat>)
    requires StoppedAt(was, blobs, cutoff, list, fault, i, steps, db, objects, gone)
    requires forall id :: id in list <==> id in ExpiredKeys(was.packs, cutoff)
    ensures Run(SweepStart(was, blobs, cutoff), [BySweeper(0, ListExpired)] + steps) == Alone(db, objects)
  {
    SweepListed(was, blobs, cutoff);
    assert Left(was.packs, list) == ExpiredKeys(was.packs, cutoff);
    RunConcat(SweepStart(was, blobs, cutoff), [BySweeper(0, ListExpired)], steps);
  }

  class Store {
    var events: map<EventKey, EventRow>
    var spool: map<EventKey, SpoolRow>
    var places: map<EventKey, Place>
    var packs: map<nat, PackRow>
    var nextPack: nat
    var objects: Objects

    function Tables(): Db
      reads this
    {
      Db(events, spool, places, packs, nextPack)
    }

    // The loop that fills one pack from the rows read.
    method FillPack(rows: seq<EventKey>) returns (buf: seq<Byte>, entries: seq<Entry>)
      requires forall k :: k in rows ==> k in spool
      ensures Cut(buf, entries) == Fill(Cut([], []), spool, rows)
    {
      buf, entries := [], [];
      for i := 0 to |rows|
        invariant Fill(Cut(buf, entries), spool, rows[i..]) == Fill(Cut([], []), spool, rows)
      {
        var data := spool[rows[i]].data;
        assert rows[i..][0] == rows[i] && rows[i..][1..] == rows[i + 1..];
        if |buf| > 0 && |buf| + |data| > PACK_BYTES {
          break;
        }
        entries := entries + [Entry(rows[i], Int32(|buf|), Int32(|data|))];
        buf := buf + data;
      }
    }

    method InsertEventPacks(id: nat, entries: seq<Entry>)
      modifies this`places
      ensures places == Placed(old(places), id, entries)
    {
      for i := 0 to |entries|
        invariant places == Placed(old(places), id, entries[..i])
      {
        places := places[entries[i].key := Place(id, entries[i].off, entries[i].len)];
        assert entries[..i + 1][..i] == entries[..i];
      }
      assert entries[..|entries|] == entries;
    }

    method DeleteSpoolRows(entries: seq<Entry>)
      modifies this`spool
      ensures spool == old(spool) - CutKeys(entries)
    {
      for i := 0 to |entries|
        invariant spool == old(spool) - CutKeys(entries[..i])
      {
        spool := spool - {entries[i].key};
        assert CutKeys(entries[..i + 1]) == CutKeys(entries[..i]) + {entries[i].key} by {
          assert forall j :: 0 <= j < i ==> entries[..i + 1][j] == entries[..i][j];
        }
      }
      assert entries[..|entries|] == entries;
    }

    method DropPack(id: nat)
      modifies this`places, this`packs
      ensures Tables() == DeletePack(old(Tables()), id)
    {
      packs := packs - {id};
      places := map k | k in places && places[k].pack != id :: places[k];
    }

    method InsertPack(project: int, week: int) returns (id: nat)
      modifies this`packs, this`nextPack
      ensures id == old(nextPack) && Tables() == NameTables(old(Tables()), project, week)
    {
      id := nextPack;
      packs, nextPack := packs[id := PackRow(project, week, 0)], id + 1;
    }

    // The transaction that moves a written pack's events to it.
    method CommitPack(id: nat, buf: seq<Byte>, entries: seq<Entry>)
      requires id in packs
      modifies this`places, this`spool, this`packs
      ensures Tables() == CommitTables(old(Tables()), id, Cut(buf, entries))
    {
      InsertEventPacks(id, entries);
      DeleteSpoolRows(entries);
      packs := packs[id := packs[id].(bytes := |buf|)];
    }

    // One pack for a group, with the fault its calls meet; err is the error
    // packOne returns.
    method PackOne(project: int, week: int, f: Fault) returns (n: nat, err: bool)
      requires FaultOk(f) && week % WEEK == 0
      modifies this
      ensures (Tables(), objects) == AfterPackOne(old(Tables()), old(objects), project, week, f)
      ensures n == if err then 0 else |CutOf(old(spool), project, week).entries|
      ensures err <==> f.ReadFault? || (!f.NoFault? && GroupKeys(old(spool), project, week) != {})
    {
      n, err := 0, f.ReadFault?;
      if err {
        return;
      }
      var rows := SpoolRows(spool, project, week);
      if |rows| == 0 {
        return;
      }
      var buf, entries := FillPack(rows);
      if f.NameFault? {
        err := true;
        return;
      }
      var id := InsertPack(project, week);
      var key := PackKey(project, week, id);
      if f.PutFault? {
        if f.outcome.PutUnacknowledged? {
          objects := objects[key := buf];
        }
        if f.rowDeleted {
          DropPack(id);
        }
        err := true;
        return;
      }
      objects := objects[key := buf];
      if f.CommitFault? {
        if f.objectDeleted {
          objects := objects - {key};
        }
        if f.rowDeleted {
          DropPack(id);
        }
        err := true;
        return;
      }
      CommitPack(id, buf, entries);
      n := |entries|;
    }

    // packOne on a group that may have been listed from an earlier spool.
    method PackGroup(g: Group, f: Fault) returns (n: nat, err: bool, ghost steps: seq<Step>)
      requires FaultOk(f) && g.week % WEEK == 0
      modifies this
      ensures Ran(old(Tables()), old(objects), steps, Tables(), objects)
      ensures n == |old(spool)| - |spool| && spool.Keys <= old(spool).Keys
      ensures n == 0 ==> spool == old(spool)
      ensures OnlyOf(old(spool), spool, {g})
      ensures !err && GroupKeys(old(spool), g.project, g.week) != {} ==> n > 0
      ensures err ==> !f.NoFault?
    {
      steps := CallsRun(Alone(Tables(), objects), PackOneCalls(g.project, g.week, f));
      PackOneIsCalls(Tables(), objects, g.project, g.week, f);
      if f.NoFault? {
        PackMovesRows(Tables(), objects, g.project, g.week);
      } else {
        FaultKeepsSpool(Tables(), objects, g.project, g.week, f);
      }
      n, err := PackOne(g.project, g.week, f);
      KeysLeave(old(spool), spool, g);
      if GroupKeys(old(spool), g.project, g.week) == {} {
        assert CutOf(old(spool), g.project, g.week).entries == [];
      }
    }

    // The groups a pass goes through are those listed at its start.
    method ListGroups() returns (groups: seq<Group>)
      ensures groups == SpoolGroups(spool)
      ensures forall i :: 0 <= i < |groups| ==>
        groups[i].week % WEEK == 0 && GroupKeys(spool, groups[i].project, groups[i].week) != {}
    {
      groups := SpoolGroups(spool);
      forall i | 0 <= i < |groups|
        ensures groups[i].week % WEEK == 0 && GroupKeys(spool, groups[i].project, groups[i].week) != {}
      {
        ListedGroup(spool, i);
      }
    }

    // The loop over them; calls counts the packOne calls of all passes, and an
    // error ends it. gone are the groups it has called packOne for.
    method PackGroups(groups: seq<Group>, now: int, force: bool, faults: Faults, start: nat)
      returns (n: nat, err: bool, calls: nat, ghost steps: seq<Step>, ghost gone: set<Group>)
      requires FaultsOk(faults)
      requires forall i :: 0 <= i < |groups| ==>
        groups[i].week % WEEK == 0 && GroupKeys(spool, groups[i].project, groups[i].week) != {}
      modifies this
      ensures Ran(old(Tables()), old(objects), steps, Tables(), objects)
      ensures n == |old(spool)| - |spool| && spool.Keys <= old(spool).Keys
      ensures OnlyOf(old(spool), spool, gone) && forall g :: g in gone ==> g in groups && Due(g, now, force)
      ensures !err && n == 0 ==> spool == old(spool) && NoneDue(groups, now, force)
      ensures err ==> !Faultless(faults)
    {
      n, err, calls, steps, gone := 0, false, start, [], {};
      for i := 0 to |groups|
        invariant Ran(old(Tables()), old(objects), steps, Tables(), objects)
        invariant n == |old(spool)| - |spool| && spool.Keys <= old(spool).Keys && !err
        invariant OnlyOf(old(spool), spool, gone) && forall g :: g in gone ==> g in groups && Due(g, now, force)
        invariant n == 0 ==> spool == old(spool) && forall j :: 0 <= j < i ==> !Due(groups[j], now, force)
      {
        var g := groups[i];
        if !force && g.bytes < PACK_BYTES && now - g.oldest < PACK_AGE {
          continue;
        }
        ghost var db, blobs := Tables(), objects;
        assert n == 0 ==> GroupKeys(spool, g.project, g.week) != {};
        var m, failed, s := PackGroup(g, faults(calls));
        RanThen(old(Tables()), old(objects), steps, db, blobs, s, Tables(), objects);
        OnlyOfThen(old(spool), db.spool, spool, gone, g);
        n, calls, steps, gone := n + m, calls + 1, steps + s, gone + {g};
        if failed {
          return n, true, calls, steps, gone;
        }
      }
    }

    // One pass over the groups listed at its start.
    method PackPass(now: int, force: bool, faults: Faults, start: nat)
      returns (n: nat, err: bool, calls: nat, ghost steps: seq<Step>)
      requires FaultsOk(faults)
      modifies this
      ensures Ran(old(Tables()), old(objects), steps, Tables(), objects)
      ensures n == |old(spool)| - |spool| && spool.Keys <= old(spool).Keys
      ensures !err && n == 0 ==> NoRowDue(spool, now, force)
      ensures !force ==> OnlyDueLeave(old(spool), spool, now)
      ensures err ==> !Faultless(faults)
    {
      var groups := ListGroups();
      ghost var gone;
      n, err, calls, steps, gone := PackGroups(groups, now, force, faults, start);
      if !force {
        GroupsLeave(old(spool), spool, gone, now);
      }
      if !err && n == 0 {
        NoneListed(spool, now, force);
      }
    }

    // Pack (force is false) and Drain (force is true), with no other writer:
    // passes until one packs nothing or a call fails. faults is what each packOne
    // meets, lists says which listing of the groups fails.
    method Pack(now: int, force: bool, faults: Faults, lists: nat -> bool)
      returns (packed: nat, err: bool, ghost steps: seq<Step>)
      requires FaultsOk(faults)
      modifies this
      ensures Ran(old(Tables()), old(objects), steps, Tables(), objects)
      ensures packed == |old(spool)| - |spool| && spool.Keys <= old(spool).Keys
      ensures !err ==> NoRowDue(spool, now, force)
      ensures !err ==> if force then spool == map[] else AllQuiet(spool, now)
      ensures !force ==> OnlyDueLeave(old(spool), spool, now)
      ensures Faultless(faults) && (forall i :: !lists(i)) ==> !err
    {
      packed, err, steps := 0, false, [];
      var calls, passes: nat := 0, 0;
      while true
        invariant Ran(old(Tables()), old(objects), steps, Tables(), objects)
        invariant packed == |old(spool)| - |spool| && spool.Keys <= old(spool).Keys
        invariant !force ==> OnlyDueLeave(old(spool), spool, now)
        decreases |spool|
      {
        if lists(passes) {
          return packed, true, steps;
        }
        ghost var db, blobs := Tables(), objects;
        var n, failed, made, s := PackPass(now, force, faults, calls);
        RanThen(old(Tables()), old(objects), steps, db, blobs, s, Tables(), objects);
        packed, steps, calls, passes := packed + n, steps + s, made, passes + 1;
        if !force {
          DueLeaveThen(old(spool), db.spool, spool, now);
          if !failed && n == 0 {
            NoneDueIsAllQuiet(spool, now);
          }
        }
        if failed || n == 0 {
          return packed, failed, steps;
        }
      }
    }

    // One expired pack: its object, then its row.
    method ExpirePack(id: nat, f: SweepFault)
      requires id in packs
      modifies this
      ensures Tables() == PackDeleted(old(Tables()), id, f)
      ensures objects == ObjectDeleted(old(Tables()), old(objects), id, f)
    {
      if f.BlobKept? {
        return;
      }
      objects := objects - {PackKey(packs[id].project, packs[id].week, id)};
      if f.BothGone? {
        DropPack(id);
      }
    }

    // The loop over the expired packs: it stops early where a row stays.
    method ExpireListed(cutoff: int, list: seq<nat>, fault: nat -> SweepFault)
      returns (n: nat, err: bool, stopped: bool, ghost steps: seq<Step>, ghost at: nat, ghost gone: set<nat>)
      requires forall i, j :: 0 <= i < j < |list| ==> list[i] != list[j]
      requires forall id :: id in list ==> id in packs
      modifies this
      ensures if stopped
        then StoppedAt(old(Tables()), old(objects), cutoff, list, fault, at, steps, Tables(), objects, gone)
        else Through(old(Tables()), old(objects), cutoff, list, fault, |list|, steps, Tables(), objects, gone)
      ensures n == |gone| && (err <==> !AllWhole(list, fault)) && (stopped ==> err)
    {
      ghost var was, blobs := Tables(), objects;
      n, err, stopped, steps, at, gone := 0, false, false, [], 0, {};
      NoneThrough(was, blobs, cutoff, list, fault);
      for i := 0 to |list|
        invariant Through(was, blobs, cutoff, list, fault, i, steps, Tables(), objects, gone)
        invariant n == |gone| && (err <==> !AllWhole(list[..i], fault)) && !stopped
      {
        var id := list[i];
        assert id in list;
        var f := fault(id);
        OneThrough(was, blobs, cutoff, list, fault, i, steps, Tables(), objects, gone);
        WholeMore(list, i, fault);
        ExpirePack(id, f);
        steps := steps + SweepSteps(id, f);
        match f
        case RowKept => return n, true, true, steps, i, gone;
        case BlobKept => err := true;
        case BothGone => n, gone := n + 1, gone + {id};
      }
      assert list[..|list|] == list;
    }

    // The week sweep's last part. list is what the query of the expired packs
    // returns, in any order.
    method ExpirePacks(cutoff: int, list: seq<nat>, fault: nat -> SweepFault, spoolFails: bool)
      returns (n: nat, err: bool, ghost steps: seq<Step>, ghost gone: set<nat>, ghost bare: set<nat>)
      requires forall i, j :: 0 <= i < j < |list| ==> list[i] != list[j]
      requires forall id :: id in list <==> id in ExpiredKeys(packs, cutoff)
      modifies this
      ensures Run(SweepStart(old(Tables()), old(objects), cutoff), steps) == Alone(Tables(), objects)
      ensures PacksGone(old(Tables()), old(objects), Tables().(spool := old(spool)), objects, gone, bare) && n == |gone|
      ensures forall id :: id in gone + bare ==> id in list && !fault(id).BlobKept?
      ensures err <==> spoolFails || !AllWhole(list, fault)
      ensures !err ==> gone == ExpiredKeys(old(packs), cutoff).Keys && bare == {}
      ensures spool == if bare == {} && !spoolFails then Fresh(old(spool), cutoff) else old(spool)
    {
      ghost var was, blobs := Tables(), objects;
      bare := {};
      var stopped;
      ghost var at;
      n, err, stopped, steps, at, gone := ExpireListed(cutoff, list, fault);
      WholeIs(list, fault, ExpiredKeys(was.packs, cutoff).Keys, if stopped then at else |list|);
      if stopped {
        StopRuns(was, blobs, cutoff, list, fault, at, steps, Tables(), objects, gone);
        return n, true, [BySweeper(0, ListExpired)] + steps, gone, {list[at]};
      }
      ghost var last := if spoolFails then CrashSweeper else SweepSpool;
      SweepRuns(was, blobs, cutoff, list, fault, steps, Tables(), objects, gone, last);
      steps := [BySweeper(0, ListExpired)] + steps + [BySweeper(0, last)];
      if spoolFails {
        return n, true, steps, gone, bare;
      }
      spool := Fresh(spool, cutoff);
    }
  }
}
