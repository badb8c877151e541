/**
 * The hourly statistics: rolled rows for clean hours, raw rows for dirty ones.
 * A rollup reads keys with their generation, recomputes, and clears a key only
 * at the generation it read, in three separate steps; writers commit between
 * any two of them.
 */
module Rollup {
  import opened Calendar
  import opened Options
  import opened Tables
  import opened SentryEvents

  // payload is what the event's stored payload says.
  datatype EventRow = EventRow(
    release: Option<string>, platform: Option<string>, level: Level, handled: Option<bool>,
    fingerprint: Option<Fingerprint>, payload: Event)

  datatype HourKey = HourKey(project: int, bucket: int)

  function HourKeyOf(k: EventKey): HourKey {
    HourKey(k.project, HourOf(k.at))
  }

  /* ---- the aggregates ---- */

  type Rows = map<EventKey, EventRow>

  function Hour(events: Rows, h: HourKey): Rows {
    map k | k in events && k.project == h.project && h.bucket <= k.at < h.bucket + HOUR :: events[k]
  }

  datatype Dimension = Dimension(release: string, platform: string, level: Level)
  datatype Counts = Counts(events: nat, unhandled: nat, errors: nat)

  function OrEmpty(s: Option<string>): string {
    if s.Some? then s.value else ""
  }

  function DimensionOf(r: EventRow): Dimension {
    Dimension(OrEmpty(r.release), OrEmpty(r.platform), r.level)
  }

  function Dimensions(rows: Rows): set<Dimension> {
    set k | k in rows :: DimensionOf(rows[k])
  }

  function Fingerprints(rows: Rows): set<Fingerprint> {
    set k | k in rows && rows[k].fingerprint.Some? :: rows[k].fingerprint.value
  }

  function Events(rows: Rows, d: Dimension): set<EventKey> {
    set k | k in rows && DimensionOf(rows[k]) == d
  }

  function Unhandled(rows: Rows, d: Dimension): set<EventKey> {
    set k | k in Events(rows, d) && rows[k].handled == Some(false)
  }

  function Errors(rows: Rows, d: Dimension): set<EventKey> {
    set k | k in Events(rows, d) && rows[k].level == Error && rows[k].handled != Some(false)
  }

  function CountsOf(rows: Rows, d: Dimension): Counts {
    Counts(|Events(rows, d)|, |Unhandled(rows, d)|, |Errors(rows, d)|)
  }

  function OfIssue(rows: Rows, f: Fingerprint): set<EventKey> {
    set k | k in rows && rows[k].fingerprint == Some(f)
  }

  // GROUP BY release, platform, level over one hour's rows.
  function EventStats(rows: Rows): map<Dimension, Counts> {
    map d | d in Dimensions(rows) :: CountsOf(rows, d)
  }

  // GROUP BY fingerprint over one hour's grouped rows.
  function IssueStats(rows: Rows): map<Fingerprint, nat> {
    map f | f in Fingerprints(rows) :: |OfIssue(rows, f)|
  }

  datatype Stats = Stats(events: map<Dimension, Counts>, issues: map<Fingerprint, nat>)

  function Aggregate(events: Rows, h: HourKey): Stats {
    Stats(EventStats(Hour(events, h)), IssueStats(Hour(events, h)))
  }

  /* ---- the tables and the job ---- */

  const AGGREGATE_RETENTION := 400 * DAY
  const FIRST_GEN := 1

  datatype Job =
    | Idle
    | Read(keys: map<HourKey, int>, cutoff: int)
    | Recomputed(keys: map<HourKey, int>, cutoff: int)

  datatype State = State(
    events: Rows,
    rolled: map<HourKey, Stats>,       // event_stats_hourly_rolled and issue_stats_hourly_rolled
    dirty: map<HourKey, int>,          // event_stats_dirty
    now: int,
    retention: nat,
    job: Job)

  datatype Step =
    | Ingest(rows: Rows)
    | Move(k: EventKey, moved: Option<Fingerprint>)
    | Drop(gone: set<EventKey>)
    | ForgetIssue(project: int, fingerprint: Fingerprint, lastSeen: int, settled: bool, swept: int)
    | ExpireRolled
    | Tick(t: int)
    | ReadKeys(pick: set<HourKey>, started: int)
    | Recompute
    | ClearKeys
    | CrashJob

  function Rolled(s: State, h: HourKey): Stats {
    if h in s.rolled then s.rolled[h] else Stats(map[], map[])
  }

  // The upsert of the dirty marks: a new key starts at 1, an old one moves on.
  function Mark(dirty: map<HourKey, int>, hours: set<HourKey>): map<HourKey, int> {
    map h | h in dirty.Keys + hours ::
      if h !in hours then dirty[h] else if h in dirty then dirty[h] + 1 else FIRST_GEN
  }

  function HoursOf(rows: Rows): set<HourKey> {
    set k | k in rows :: HourKeyOf(k)
  }

  // InsertEvents: conflicting keys are skipped, every hour touched is marked.
  function IngestStep(s: State, rows: Rows): State {
    s.(events := rows + s.events, dirty := Mark(s.dirty, HoursOf(rows)))
  }

  // Service.Event's transaction: the hour is marked only when the event moves to
  // another issue.
  function MoveStep(s: State, k: EventKey, fingerprint: Option<Fingerprint>): State {
    if k !in s.events then s
    else
      var s' := s.(events := s.events[k := s.events[k].(fingerprint := fingerprint)]);
      if fingerprint == s.events[k].fingerprint || fingerprint.None? then s'
      else s'.(dirty := Mark(s.dirty, {HourKeyOf(k)}))
  }

  // Partition drops and the default partition's expiry, oldest rows only.
  function DropStep(s: State, gone: set<EventKey>): State {
    s.(events := s.events - set k | k in gone && k.at < s.now - s.retention)
  }

  // No event of the issue is later than its last_seen.
  predicate SeenBy(s: State, project: int, f: Fingerprint, lastSeen: int) {
    forall k :: k in s.events && k.project == project && s.events[k].fingerprint == Some(f) ==> k.at <= lastSeen
  }

  // ExpireIssues takes a deleted issue's rolled rows with it, by its last_seen
  // alone: raw rows of the issue may be left. swept is the sweep's clock.
  function ForgetStep(s: State, project: int, f: Fingerprint, lastSeen: int, settled: bool, swept: int): State {
    if swept > s.now || lastSeen >= IssueCutoff(settled, swept, s.retention) || !SeenBy(s, project, f, lastSeen) then s
    else
      s.(rolled := map h | h in s.rolled ::
           if h.project == project then s.rolled[h].(issues := s.rolled[h].issues - {f}) else s.rolled[h])
  }

  function ExpireRolledStep(s: State): State {
    s.(rolled := map h | h in s.rolled && h.bucket >= s.now - AGGREGATE_RETENTION :: s.rolled[h])
  }

  // The keys of past hours, with their generation. started is the clock read
  // the cutoff comes from.
  function ReadKeysStep(s: State, pick: set<HourKey>, started: int): State {
    if !s.job.Idle? || started > s.now then s
    else
      var keys := map h | h in pick && h in s.dirty && h.bucket < HourOf(s.now) :: s.dirty[h];
      s.(job := Read(keys, HourOf(started - s.retention)))
  }

  function Recomputes(events: Rows, rolled: map<HourKey, Stats>, keys: set<HourKey>, cutoff: int): map<HourKey, Stats> {
    rolled + map h | h in keys && h.bucket >= cutoff :: Aggregate(events, h)
  }

  function RecomputeStep(s: State): State {
    if !s.job.Read? then s
    else s.(rolled := Recomputes(s.events, s.rolled, s.job.keys.Keys, s.job.cutoff),
         job := Recomputed(s.job.keys, s.job.cutoff))
  }

  function Cleared(dirty: map<HourKey, int>, keys: map<HourKey, int>): map<HourKey, int> {
    map h | h in dirty && !(h in keys && keys[h] == dirty[h]) :: dirty[h]
  }

  function ClearKeysStep(s: State): State {
    if !s.job.Recomputed? then s
    else s.(dirty := Cleared(s.dirty, s.job.keys), job := Idle)
  }

  function Next(s: State, step: Step): State {
    match step
    case Ingest(rows) => IngestStep(s, rows)
    case Move(k, f) => MoveStep(s, k, f)
    case Drop(gone) => DropStep(s, gone)
    case ForgetIssue(project, f, lastSeen, settled, swept) => ForgetStep(s, project, f, lastSeen, settled, swept)
    case ExpireRolled => ExpireRolledStep(s)
    case Tick(t) => if t > s.now then s.(now := t) else s
    case ReadKeys(pick, started) => ReadKeysStep(s, pick, started)
    case Recompute => RecomputeStep(s)
    case ClearKeys => ClearKeysStep(s)
    case CrashJob => s.(job := Idle)
  }

  function Run(s: State, steps: seq<Step>): State
    decreases |steps|
  {
    if steps == [] then s else Run(Next(s, steps[0]), steps[1..])
  }

  function Init(now: int, retention: nat): State {
    State(map[], map[], map[], now, retention, Idle)
  }

  // The views event_stats_hourly and issue_stats_hourly, for one hour.
  function ReadStats(s: State, h: HourKey): Stats {
    if h in s.dirty then Aggregate(s.events, h) else Rolled(s, h)
  }

  /* ---- the invariant ---- */

  // A whole hour of the retention window, young enough for the rollup tables.
  predicate Covered(s: State, h: HourKey) {
    h.bucket % HOUR == 0 && h.bucket >= s.now - s.retention && h.bucket >= s.now - AGGREGATE_RETENTION
  }

  ghost predicate Exact(s: State, h: HourKey) {
    Rolled(s, h) == Aggregate(s.events, h)
  }

  ghost predicate CleanExact(s: State) {
    forall h {:trigger Exact(s, h)} :: Covered(s, h) && h !in s.dirty ==> Exact(s, h)
  }

  // A key read by the job stays dirty until the job clears it; unless a writer
  // has moved its generation, its recomputed rows are still exact.
  ghost predicate JobOk(s: State) {
    match s.job
    case Idle => true
    case Read(keys, cutoff) =>
      && cutoff <= s.now - s.retention
      && forall h :: h in keys ==> h in s.dirty && s.dirty[h] >= keys[h]
    case Recomputed(keys, cutoff) =>
      && cutoff <= s.now - s.retention
      && (forall h :: h in keys ==> h in s.dirty && s.dirty[h] >= keys[h])
      && (forall h {:trigger Exact(s, h)} :: h in keys && s.dirty[h] == keys[h] && Covered(s, h) ==> Exact(s, h))
  }

  ghost predicate Inv(s: State) {
    CleanExact(s) && JobOk(s)
  }

  // A re-symbolicated event keeps a fingerprint if it had one.
  predicate Grouped(s: State, step: Step) {
    step.Move? && step.k in s.events && step.moved.None? ==> s.events[step.k].fingerprint.None?
  }

  ghost predicate AllGrouped(s: State, steps: seq<Step>)
    decreases |steps|
  {
    steps == [] || (Grouped(s, steps[0]) && AllGrouped(Next(s, steps[0]), steps[1..]))
  }

  /* ---- every step keeps it ---- */

  lemma HourOfKey(k: EventKey, h: HourKey)
    requires h.bucket % HOUR == 0
    ensures (k.project == h.project && h.bucket <= k.at < h.bucket + HOUR) <==> HourKeyOf(k) == h
  {
  }

  // The step leaves the hour's raw and rolled rows alone.
  ghost predicate Undisturbed(s: State, s': State, h: HourKey) {
    Hour(s'.events, h) == Hour(s.events, h) && Rolled(s', h) == Rolled(s, h)
  }

  ghost predicate SameMark(s: State, s': State, h: HourKey) {
    (h in s.dirty <==> h in s'.dirty) && (h in s.dirty ==> s'.dirty[h] == s.dirty[h])
  }

  // A writer's step: it marks every covered hour it disturbs.
  ghost predicate MarksWhatItTouches(s: State, s': State) {
    && s'.job == s.job && s'.now == s.now && s'.retention == s.retention
    && (forall h :: h in s.dirty ==> h in s'.dirty && s'.dirty[h] >= s.dirty[h])
    && (forall h :: Covered(s, h) && SameMark(s, s', h) ==> Undisturbed(s, s', h))
  }

  lemma WriterKeeps(s: State, s': State)
    requires Inv(s) && MarksWhatItTouches(s, s')
    ensures Inv(s')
  {
    forall h | Covered(s', h) && h !in s'.dirty
      ensures Exact(s', h)
    {
      assert Covered(s, h) && SameMark(s, s', h) && Exact(s, h) && Undisturbed(s, s', h);
    }
    if s.job.Recomputed? {
      forall h | h in s.job.keys && s'.dirty[h] == s.job.keys[h] && Covered(s', h)
        ensures Exact(s', h)
      {
        assert Covered(s, h) && SameMark(s, s', h) && Exact(s, h) && Undisturbed(s, s', h);
      }
    }
  }

  lemma {:induction false} IngestHour(s: State, rows: Rows, h: HourKey)
    requires h.bucket % HOUR == 0 && h !in HoursOf(rows)
    ensures Hour(IngestStep(s, rows).events, h) == Hour(s.events, h)
  {
    forall k | k in rows
      ensures !(k.project == h.project && h.bucket <= k.at < h.bucket + HOUR)
    {
      HourOfKey(k, h);
      assert HourKeyOf(k) in HoursOf(rows);
    }
  }

  lemma IngestKeeps(s: State, rows: Rows)
    requires Inv(s)
    ensures Inv(IngestStep(s, rows))
  {
    var s' := IngestStep(s, rows);
    forall h | Covered(s, h) && SameMark(s, s', h)
      ensures Undisturbed(s, s', h)
    {
      IngestHour(s, rows, h);
    }
    WriterKeeps(s, s');
  }

  lemma {:induction false} MoveKeeps(s: State, k: EventKey, f: Option<Fingerprint>)
    requires Inv(s) && Grouped(s, Move(k, f))
    ensures Inv(MoveStep(s, k, f))
  {
    var s' := MoveStep(s, k, f);
    forall h | Covered(s, h) && SameMark(s, s', h)
      ensures Undisturbed(s, s', h)
    {
      if k in s.events && f != s.events[k].fingerprint {
        HourOfKey(k, h);
      } else {
        assert s'.events == s.events;
      }
    }
    WriterKeeps(s, s');
  }

  lemma DropKeeps(s: State, gone: set<EventKey>)
    requires Inv(s)
    ensures Inv(DropStep(s, gone))
  {
    var s' := DropStep(s, gone);
    forall h | Covered(s, h)
      ensures Undisturbed(s, s', h)
    {
    }
    WriterKeeps(s, s');
  }

  // Whatever rows the deleted issue still has are older than every hour read.
  lemma ForgottenHour(s: State, project: int, f: Fingerprint, lastSeen: int, settled: bool, swept: int, h: HourKey)
    requires swept <= s.now && lastSeen < IssueCutoff(settled, swept, s.retention) && SeenBy(s, project, f, lastSeen)
    requires Covered(s, h) && h.project == project
    ensures f !in Fingerprints(Hour(s.events, h))
  {
    WeekStartIsMonday(swept - s.retention);
  }

  lemma ForgetKeeps(s: State, project: int, f: Fingerprint, lastSeen: int, settled: bool, swept: int)
    requires Inv(s)
    ensures Inv(ForgetStep(s, project, f, lastSeen, settled, swept))
  {
    var s' := ForgetStep(s, project, f, lastSeen, settled, swept);
    if s' != s {
      forall h | Covered(s, h) && Exact(s, h)
        ensures Exact(s', h)
      {
        if h in s.rolled && h.project == project {
          ForgottenHour(s, project, f, lastSeen, settled, swept, h);
          assert s.rolled[h].issues - {f} == s.rolled[h].issues;
        }
      }
    }
  }

  lemma {:induction false} JobStepKeeps(s: State, job: Job)
    requires Inv(s) && JobOk(s.(job := job))
    ensures Inv(s.(job := job))
  {
    forall h | Covered(s, h) && h !in s.dirty
      ensures Exact(s.(job := job), h)
    {
      assert Exact(s, h);
    }
  }

  lemma ReadKeysKeeps(s: State, pick: set<HourKey>, started: int)
    requires Inv(s)
    ensures Inv(ReadKeysStep(s, pick, started))
  {
    JobStepKeeps(s, ReadKeysStep(s, pick, started).job);
  }

  lemma {:induction false} RecomputeKeeps(s: State)
    requires Inv(s)
    ensures Inv(RecomputeStep(s))
  {
    if s.job.Read? {
      var s' := RecomputeStep(s);
      forall h | Covered(s', h) && (h in s.job.keys || h !in s'.dirty)
        ensures Exact(s', h)
      {
        assert Covered(s, h);
        if h !in s.job.keys {
          assert Exact(s, h) && Rolled(s', h) == Rolled(s, h);
        }
      }
    }
  }

  lemma ClearKeysKeeps(s: State)
    requires Inv(s)
    ensures Inv(ClearKeysStep(s))
  {
    var s' := ClearKeysStep(s);
    forall h | Covered(s', h) && h !in s'.dirty
      ensures Exact(s', h)
    {
      assert Covered(s, h);
      if h in s.dirty {
        assert s.job.Recomputed? && h in s.job.keys && s.dirty[h] == s.job.keys[h];
      }
      assert Exact(s, h);
    }
  }

  lemma TickKeeps(s: State, t: int)
    requires Inv(s)
    ensures Inv(Next(s, Tick(t)))
  {
    var s' := Next(s, Tick(t));
    assert s' == s.(now := s'.now) && s'.now >= s.now;
    forall h
      ensures (Covered(s', h) ==> Covered(s, h)) && Exact(s', h) == Exact(s, h)
    {
      assert Rolled(s', h) == Rolled(s, h);
    }
  }

  lemma ExpireRolledKeeps(s: State)
    requires Inv(s)
    ensures Inv(ExpireRolledStep(s))
  {
    var s' := ExpireRolledStep(s);
    forall h | Covered(s, h)
      ensures Undisturbed(s, s', h)
    {
    }
    WriterKeeps(s, s');
  }

  lemma {:induction false} NextKeeps(s: State, step: Step)
    requires Inv(s) && Grouped(s, step)
    ensures Inv(Next(s, step))
  {
    match step
    case Ingest(rows) => IngestKeeps(s, rows);
    case Move(k, f) => MoveKeeps(s, k, f);
    case Drop(gone) => DropKeeps(s, gone);
    case ForgetIssue(project, f, lastSeen, settled, swept) => ForgetKeeps(s, project, f, lastSeen, settled, swept);
    case ReadKeys(pick, started) => ReadKeysKeeps(s, pick, started);
    case ExpireRolled => ExpireRolledKeeps(s);
    case Tick(t) => TickKeeps(s, t);
    case Recompute => RecomputeKeeps(s);
    case ClearKeys => ClearKeysKeeps(s);
    case CrashJob => JobStepKeeps(s, Idle);
  }

  lemma {:induction false} RunKeeps(s: State, steps: seq<Step>)
    requires Inv(s) && AllGrouped(s, steps)
    ensures Inv(Run(s, steps))
    decreases |steps|
  {
    if steps != [] {
      NextKeeps(s, steps[0]);
      RunKeeps(Next(s, steps[0]), steps[1..]);
    }
  }

  /* ---- the theorems ---- */

  // In every state of every run, reading rolled rows for clean hours and raw
  // rows for dirty ones gives the aggregate of the raw rows.
  lemma {:induction false} StatsAreExact(now: int, retention: nat, steps: seq<Step>, h: HourKey)
    requires AllGrouped(Init(now, retention), steps) && Covered(Run(Init(now, retention), steps), h)
    ensures var s := Run(Init(now, retention), steps); ReadStats(s, h) == Aggregate(s.events, h)
  {
    forall g | Covered(Init(now, retention), g)
      ensures Exact(Init(now, retention), g)
    {
      assert Hour(map[], g) == map[];
    }
    RunKeeps(Init(now, retention), steps);
    var s := Run(Init(now, retention), steps);
    assert h !in s.dirty ==> Exact(s, h);
  }

  /* ---- what a read counts ---- */

  // A read's numbers for one dimension and one fingerprint; no row reads as zeros.
  function At(stats: Stats, d: Dimension): Counts {
    if d in stats.events then stats.events[d] else Counts(0, 0, 0)
  }

  function IssueAt(stats: Stats, f: Fingerprint): nat {
    if f in stats.issues then stats.issues[f] else 0
  }

  function OneIf(b: bool): nat {
    if b then 1 else 0
  }

  predicate Own(r: EventRow, d: Dimension) {
    && d.level == r.level && d.release == (if r.release.None? then "" else r.release.value)
    && d.platform == (if r.platform.None? then "" else r.platform.value)
  }

  ghost predicate DimensionOneMore(before: Stats, after: Stats, r: EventRow, d: Dimension, own: bool) {
    && At(after, d).events == At(before, d).events + OneIf(own)
    && At(after, d).unhandled == At(before, d).unhandled + OneIf(own && r.handled == Some(false))
    && At(after, d).errors == At(before, d).errors + OneIf(own && r.level == Error && r.handled != Some(false))
    && (d in after.events <==> d in before.events || own)
  }

  ghost predicate IssueOneMore(before: Stats, after: Stats, r: EventRow, f: Fingerprint) {
    && IssueAt(after, f) == IssueAt(before, f) + OneIf(r.fingerprint == Some(f))
    && (f in after.issues <==> f in before.issues || r.fingerprint == Some(f))
  }

  // One event more in the numbers: in its (release, platform, level), and in its
  // issue if it has one. An unhandled event is no error besides.
  ghost predicate CountsOneMore(before: Stats, after: Stats, r: EventRow) {
    && (forall d: Dimension :: DimensionOneMore(before, after, r, d, Own(r, d)))
    && (forall f: Fingerprint :: IssueOneMore(before, after, r, f))
  }

  // A set of event keys with one more, or the same.
  predicate Grown(before: set<EventKey>, after: set<EventKey>, k: EventKey, grows: bool) {
    after == if grows then before + {k} else before
  }

  lemma GrownSize(before: set<EventKey>, after: set<EventKey>, k: EventKey, grows: bool)
    requires k !in before && Grown(before, after, k, grows)
    ensures |after| == |before| + OneIf(grows)
  {
  }

  lemma SetsGrow(rows: Rows, k: EventKey, r: EventRow, d: Dimension)
    requires k !in rows
    ensures var own := DimensionOf(r) == d;
      && Grown(Events(rows, d), Events(rows[k := r], d), k, own)
      && Grown(Unhandled(rows, d), Unhandled(rows[k := r], d), k, own && r.handled == Some(false))
      && Grown(Errors(rows, d), Errors(rows[k := r], d), k, own && r.level == Error && r.handled != Some(false))
  {
  }

  lemma {:induction false} CountsGrow(rows: Rows, k: EventKey, r: EventRow, d: Dimension)
    requires k !in rows
    ensures var own := DimensionOf(r) == d; var before, after := CountsOf(rows, d), CountsOf(rows[k := r], d);
      && after.events == before.events + OneIf(own)
      && after.unhandled == before.unhandled + OneIf(own && r.handled == Some(false))
      && after.errors == before.errors + OneIf(own && r.level == Error && r.handled != Some(false))
  {
    var more, own := rows[k := r], DimensionOf(r) == d;
    SetsGrow(rows, k, r, d);
    GrownSize(Events(rows, d), Events(more, d), k, own);
    GrownSize(Unhandled(rows, d), Unhandled(more, d), k, own && r.handled == Some(false));
    GrownSize(Errors(rows, d), Errors(more, d), k, own && r.level == Error && r.handled != Some(false));
  }

  // The numbers of some rows.
  function StatsOf(rows: Rows): Stats {
    Stats(EventStats(rows), IssueStats(rows))
  }

  lemma AbsentIsZero(rows: Rows, d: Dimension)
    ensures At(StatsOf(rows), d) == CountsOf(rows, d)
  {
    if d !in Dimensions(rows) {
      assert forall j :: j in rows ==> DimensionOf(rows[j]) in Dimensions(rows);
      assert Events(rows, d) == {} && Unhandled(rows, d) == {} && Errors(rows, d) == {};
    }
  }

  lemma AbsentIssueIsZero(rows: Rows, f: Fingerprint)
    ensures IssueAt(StatsOf(rows), f) == |OfIssue(rows, f)| && (f in Fingerprints(rows) <==> OfIssue(rows, f) != {})
  {
    forall j | j in OfIssue(rows, f)
      ensures f in Fingerprints(rows)
    {
      assert rows[j].fingerprint == Some(f);
    }
    if f in Fingerprints(rows) {
      var j :| j in rows && rows[j].fingerprint.Some? && rows[j].fingerprint.value == f;
      assert j in OfIssue(rows, f);
    }
  }

  lemma {:induction false} IssuesGrow(rows: Rows, k: EventKey, r: EventRow, f: Fingerprint)
    requires k !in rows
    ensures IssueAt(StatsOf(rows[k := r]), f) == IssueAt(StatsOf(rows), f) + OneIf(r.fingerprint == Some(f))
    ensures f in StatsOf(rows[k := r]).issues <==> f in StatsOf(rows).issues || r.fingerprint == Some(f)
  {
    AbsentIssueIsZero(rows, f);
    AbsentIssueIsZero(rows[k := r], f);
    assert Grown(OfIssue(rows, f), OfIssue(rows[k := r], f), k, r.fingerprint == Some(f));
    GrownSize(OfIssue(rows, f), OfIssue(rows[k := r], f), k, r.fingerprint == Some(f));
  }

  lemma DimensionsGrow(rows: Rows, k: EventKey, r: EventRow)
    requires k !in rows
    ensures Dimensions(rows[k := r]) == Dimensions(rows) + {DimensionOf(r)}
  {
    assert forall j :: j in rows ==> rows[k := r][j] == rows[j];
    assert rows[k := r][k] == r;
  }

  lemma {:induction false} DimensionCounts(rows: Rows, k: EventKey, r: EventRow, d: Dimension)
    requires k !in rows
    ensures DimensionOneMore(StatsOf(rows), StatsOf(rows[k := r]), r, d, DimensionOf(r) == d)
  {
    CountsGrow(rows, k, r, d);
    AbsentIsZero(rows, d);
    AbsentIsZero(rows[k := r], d);
    DimensionsGrow(rows, k, r);
  }

  lemma {:induction false} RowsCountOneMore(rows: Rows, k: EventKey, r: EventRow)
    requires k !in rows
    ensures CountsOneMore(StatsOf(rows), StatsOf(rows[k := r]), r)
  {
    var before, after := StatsOf(rows), StatsOf(rows[k := r]);
    forall d: Dimension
      ensures DimensionOneMore(before, after, r, d, Own(r, d))
    {
      DimensionCounts(rows, k, r, d);
    }
    forall f: Fingerprint
      ensures IssueOneMore(before, after, r, f)
    {
      IssuesGrow(rows, k, r, f);
    }
  }

  lemma ReadIsAggregate(s: State, h: HourKey)
    requires Inv(s) && Covered(s, h)
    ensures ReadStats(s, h) == StatsOf(Hour(s.events, h))
  {
    assert h !in s.dirty ==> Exact(s, h);
  }

  predicate Within(k: EventKey, h: HourKey) {
    k.project == h.project && h.bucket <= k.at < h.bucket + HOUR
  }

  lemma HourGains(events: Rows, k: EventKey, r: EventRow, h: HourKey)
    ensures Hour(map[k := r] + events, h) ==
      if k !in events && Within(k, h) then Hour(events, h)[k := r] else Hour(events, h)
  {
  }

  lemma ReadAfterIngest(s: State, k: EventKey, r: EventRow, h: HourKey)
    requires Inv(s) && Covered(s, h)
    ensures ReadStats(IngestStep(s, map[k := r]), h) == StatsOf(Hour(map[k := r] + s.events, h))
  {
    IngestKeeps(s, map[k := r]);
    ReadIsAggregate(IngestStep(s, map[k := r]), h);
  }

  // A new event counts once, in its own hour; a resent one changes nothing, and
  // an hour without events reads as empty.
  lemma {:induction false} ReadCountsIngest(s: State, k: EventKey, r: EventRow, h: HourKey)
    requires Inv(s) && Covered(s, h)
    ensures var after := ReadStats(IngestStep(s, map[k := r]), h);
      if k !in s.events && Within(k, h) then CountsOneMore(ReadStats(s, h), after, r) else after == ReadStats(s, h)
    ensures Hour(s.events, h) == map[] ==> ReadStats(s, h) == Stats(map[], map[])
  {
    ReadIsAggregate(s, h);
    ReadAfterIngest(s, k, r, h);
    HourGains(s.events, k, r, h);
    if k !in s.events && Within(k, h) {
      RowsCountOneMore(Hour(s.events, h), k, r);
    }
  }

  // Seen from the numbers without it, a moved event counts as before, under its
  // new fingerprint.
  lemma {:induction false} ReadCountsMove(s: State, k: EventKey, moved: Option<Fingerprint>, h: HourKey)
    requires Inv(s) && Covered(s, h) && k in s.events && Grouped(s, Move(k, moved))
    requires Within(k, h)
    ensures var rest := StatsOf(Hour(s.events, h) - {k});
      && CountsOneMore(rest, ReadStats(s, h), s.events[k])
      && CountsOneMore(rest, ReadStats(MoveStep(s, k, moved), h), s.events[k].(fingerprint := moved))
  {
    var s' := MoveStep(s, k, moved);
    MoveKeeps(s, k, moved);
    ReadIsAggregate(s, h);
    ReadIsAggregate(s', h);
    var rest := Hour(s.events, h) - {k};
    assert Hour(s.events, h) == rest[k := s.events[k]];
    assert Hour(s'.events, h) == rest[k := s.events[k].(fingerprint := moved)];
    RowsCountOneMore(rest, k, s.events[k]);
    RowsCountOneMore(rest, k, s.events[k].(fingerprint := moved));
  }

  // A move marks its hour with the next generation exactly when the event goes to
  // another issue.
  lemma MoveMarks(s: State, k: EventKey, moved: Option<Fingerprint>)
    requires k in s.events
    ensures var after := MoveStep(s, k, moved).dirty; var h := HourKeyOf(k);
      if moved.Some? && moved != s.events[k].fingerprint then
        h in after && after[h] == (if h in s.dirty then s.dirty[h] + 1 else 1) && after - {h} == s.dirty - {h}
      else after == s.dirty
  {
  }

  // Why a moved event must keep a fingerprint: on a clean hour the statistics
  // stay exact through the move if and only if it does (or had none).
  lemma MoveIsExactIff(s: State, k: EventKey, f: Option<Fingerprint>)
    requires Inv(s) && k in s.events && Covered(s, HourKeyOf(k)) && HourKeyOf(k) !in s.dirty
    ensures var s' := MoveStep(s, k, f); var h := HourKeyOf(k);
      ReadStats(s', h) == Aggregate(s'.events, h) <==> f.Some? || s.events[k].fingerprint.None?
  {
    var s' := MoveStep(s, k, f);
    var h := HourKeyOf(k);
    if Grouped(s, Move(k, f)) {
      MoveKeeps(s, k, f);
      assert h in s'.dirty || Exact(s', h);
    } else {
      assert Exact(s, h);
      var fp := s.events[k].fingerprint.value;
      HourOfKey(k, h);
      var before, after := Hour(s.events, h), Hour(s'.events, h);
      var here := set j | j in before && before[j].fingerprint == Some(fp);
      var left := set j | j in after && after[j].fingerprint == Some(fp);
      assert k in here && left == here - {k};
      assert fp in Fingerprints(before);
      assert IssueStats(before)[fp] == |here|;
      assert fp in IssueStats(after) ==> IssueStats(after)[fp] == |left|;
    }
  }

  // Rows past AGGREGATE_RETENTION: a clean hour still in a longer raw retention
  // reads exactly after the expiry if and only if it has no raw rows.
  lemma OldHourIsExactIff(s: State, h: HourKey)
    requires h !in s.dirty && h.bucket < s.now - AGGREGATE_RETENTION
    ensures var s' := ExpireRolledStep(s);
      ReadStats(s', h) == Aggregate(s'.events, h) <==> Hour(s.events, h) == map[]
  {
    var rows := Hour(s.events, h);
    if rows != map[] {
      var k :| k in rows;
      assert DimensionOf(rows[k]) in Dimensions(rows);
      assert DimensionOf(rows[k]) in EventStats(rows);
    }
  }

  // Why one rollup runs at a time: two jobs that read the same key, one clearing
  // it before an ingest marks it anew and the other after, leave a clean hour
  // without the ingested row.
  lemma {:induction false} TwoRollupsLoseAMark(s: State, k: EventKey, row: EventRow)
    requires HourKeyOf(k) in s.dirty && s.dirty[HourKeyOf(k)] == FIRST_GEN && k !in s.events
    ensures var h := HourKeyOf(k);
      var keys := map[h := FIRST_GEN];
      var first := s.(rolled := Recomputes(s.events, s.rolled, {h}, h.bucket), dirty := Cleared(s.dirty, keys));
      var ingested := IngestStep(first, map[k := row]);
      var second := ingested.(dirty := Cleared(ingested.dirty, keys));
      h !in second.dirty && ReadStats(second, h) != Aggregate(second.events, h)
  {
    var h := HourKeyOf(k);
    HourOfKey(k, h);
    var before := Hour(s.events, h);
    var after := Hour(map[k := row] + s.events, h);
    MoreRows(before, after, k);
  }

  lemma MoreRows(before: Rows, after: Rows, k: EventKey)
    requires k !in before && k in after && after == before[k := after[k]]
    ensures EventStats(after) != EventStats(before)
  {
    var d := DimensionOf(after[k]);
    assert d in Dimensions(after);
    var here := set j | j in before && DimensionOf(before[j]) == d;
    var more := set j | j in after && DimensionOf(after[j]) == d;
    assert k in more && here == more - {k};
    assert EventStats(after)[d].events == |more|;
    assert d in EventStats(before) ==> EventStats(before)[d].events == |here|;
  }
}
