/**
 * Serial runs of ingest, re-symbolication, status changes and the sweep over
 * the issues and events of one project: stored counts are the event rows,
 * event times lie in their issue's range, and no event row loses its issue.
 */
module IssueRuns {
  import opened Basics
  import opened Calendar
  import opened Options
  import opened Tables
  import opened Issues
  import opened SentryEvents

  // The key of a row of the project.
  datatype RowKey = RowKey(id: nat, at: int)
  // payload is what the event's stored payload says.
  datatype EventRow = EventRow(
    level: Level, release: Option<string>, fingerprint: Option<Fingerprint>, symbolicated: bool, payload: Event)

  type Rows = map<RowKey, EventRow>

  /* ---- which events of an envelope are new ---- */

  // clampPast, and the mark that the time is the server's.
  function Clamp(e: Prepared, past: int, now: int): Prepared {
    if e.at < past then e.(at := now, clamped := true) else e
  }

  function Ids(es: seq<Prepared>): set<nat> {
    set e | e in es :: e.id
  }

  function ClampedIds(es: seq<Prepared>): set<nat> {
    set e | e in es && e.clamped :: e.id
  }

  // The envelope's events, each id once, clamped.
  function Analysed(sent: seq<Prepared>, past: int, now: int): seq<Prepared>
    decreases |sent|
  {
    if sent == [] then []
    else
      var front, e := Analysed(sent[..|sent| - 1], past, now), sent[|sent| - 1];
      if e.id in Ids(front) then front else front + [Clamp(e, past, now)]
  }

  predicate InWindow(at: int, es: seq<Prepared>) {
    && (exists e :: e in es && e.at <= at)
    && (exists e :: e in es && at < e.at + MICROSECOND)
  }

  // ExistingEventIDs over the envelope's own window, and for the clamped
  // events ExistingEventIDsAnyTime.
  function Existing(events: Rows, es: seq<Prepared>): set<nat> {
    set k | k in events && ((k.id in Ids(es) && InWindow(k.at, es)) || k.id in ClampedIds(es)) :: k.id
  }

  function Without(es: seq<Prepared>, ids: set<nat>): seq<Prepared>
    decreases |es|
  {
    if es == [] then []
    else
      var front, e := Without(es[..|es| - 1], ids), es[|es| - 1];
      if e.id in ids then front else front + [e]
  }

  function Kept(events: Rows, es: seq<Prepared>): seq<Prepared> {
    Without(es, Existing(events, es))
  }

  function KeyOf(e: Prepared): RowKey {
    RowKey(e.id, e.at)
  }

  function RowOf(e: Prepared): EventRow {
    EventRow(e.level, NilIfEmpty(e.release), e.fingerprint, e.symbolicated, e.event)
  }

  // The event rows of one transaction; a conflicting key inserts nothing.
  function Stored(events: Rows, es: seq<Prepared>): Rows
    decreases |es|
  {
    if es == [] then events
    else
      var before, e := Stored(events, es[..|es| - 1]), es[|es| - 1];
      if !e.keep || KeyOf(e) in before then before else before[KeyOf(e) := RowOf(e)]
  }

  predicate DistinctIds(es: seq<Prepared>) {
    forall i, j :: 0 <= i < j < |es| ==> es[i].id != es[j].id
  }

  lemma {:induction false} AnalysedIs(sent: seq<Prepared>, past: int, now: int)
    requires past <= now
    ensures DistinctIds(Analysed(sent, past, now))
    ensures forall e :: e in Analysed(sent, past, now) ==> e.at >= past
    ensures Ids(Analysed(sent, past, now)) == Ids(sent)
    decreases |sent|
  {
    if sent != [] {
      var front, e := sent[..|sent| - 1], sent[|sent| - 1];
      AnalysedIs(front, past, now);
      assert sent == front + [e];
      assert Ids(sent) == Ids(front) + {e.id};
      var all := Analysed(front, past, now);
      IdsAppend(all, Clamp(e, past, now));
      forall i | 0 <= i < |all|
        ensures all[i].id in Ids(all)
      {
        assert all[i] in all;
      }
    }
  }

  // Each id's first event is analysed as it was sent, or, when its time is before
  // the retention window, at the server's clock.
  predicate AnalysedFrom(sent: seq<Prepared>, i: nat, e: Prepared, past: int, now: int) {
    && i < |sent| && (forall j :: 0 <= j < i ==> sent[j].id != sent[i].id)
    && if sent[i].at >= past then e == sent[i] else e == sent[i].(at := now, clamped := true)
  }

  lemma {:induction false} AnalysedAre(sent: seq<Prepared>, past: int, now: int)
    ensures forall e :: e in Analysed(sent, past, now) ==> exists i: nat :: AnalysedFrom(sent, i, e, past, now)
    decreases |sent|
  {
    if sent != [] {
      var n := |sent| - 1;
      var front := sent[..n];
      AnalysedAre(front, past, now);
      AnalysedIds(front, past, now);
      forall e | e in Analysed(sent, past, now)
        ensures exists i: nat :: AnalysedFrom(sent, i, e, past, now)
      {
        if e in Analysed(front, past, now) {
          var i: nat :| AnalysedFrom(front, i, e, past, now);
          assert AnalysedFrom(sent, i, e, past, now);
        } else {
          assert forall j :: 0 <= j < n ==> sent[j] in front;
          assert AnalysedFrom(sent, n, e, past, now);
        }
      }
    }
  }

  lemma {:induction false} AnalysedIds(sent: seq<Prepared>, past: int, now: int)
    ensures Ids(Analysed(sent, past, now)) == Ids(sent)
    decreases |sent|
  {
    if sent != [] {
      var front, e := sent[..|sent| - 1], sent[|sent| - 1];
      AnalysedIds(front, past, now);
      assert sent == front + [e];
      IdsAppend(front, e);
      IdsAppend(Analysed(front, past, now), Clamp(e, past, now));
    }
  }

  lemma IdsAppend(es: seq<Prepared>, e: Prepared)
    ensures Ids(es + [e]) == Ids(es) + {e.id}
  {
    forall id | id in Ids(es) + {e.id}
      ensures id in Ids(es + [e])
    {
      if id == e.id {
        assert e in es + [e];
      } else {
        var x :| x in es && x.id == id;
        assert x in es + [e];
      }
    }
  }

  lemma {:induction false} WithoutIs(es: seq<Prepared>, ids: set<nat>)
    requires DistinctIds(es)
    ensures DistinctIds(Without(es, ids))
    ensures forall e :: e in Without(es, ids) <==> e in es && e.id !in ids
    decreases |es|
  {
    if es != [] {
      var front, e := es[..|es| - 1], es[|es| - 1];
      WithoutIs(front, ids);
      var left := Without(front, ids);
      forall i | 0 <= i < |left|
        ensures left[i].id != e.id
      {
        assert left[i] in left;
        var j :| 0 <= j < |front| && front[j] == left[i];
      }
      assert es == front + [e];
    }
  }

  // After the dedupe no row of the envelope can conflict with a stored one.
  lemma KeptAreNew(events: Rows, es: seq<Prepared>)
    requires DistinctIds(es)
    ensures DistinctIds(Kept(events, es))
    ensures forall e :: e in Kept(events, es) ==> e in es && KeyOf(e) !in events
  {
    WithoutIs(es, Existing(events, es));
    forall e | e in Kept(events, es)
      ensures KeyOf(e) !in events
    {
      assert e.id in Ids(es) && InWindow(e.at, es);
      assert KeyOf(e) in events ==> KeyOf(e).id in Existing(events, es);
    }
  }

  // An event is taken for new unless a row of its id lies between two events of the
  // envelope, or anywhere when the server has set the time of that id.
  lemma {:induction false} KeptIff(events: Rows, es: seq<Prepared>, e: Prepared)
    requires DistinctIds(es)
    ensures e in Kept(events, es) <==>
      && e in es
      && forall k :: k in events && k.id == e.id ==>
           && !e.clamped
           && ((forall x :: x in es ==> k.at < x.at) || (forall y :: y in es ==> y.at < k.at))
  {
    WithoutIs(es, Existing(events, es));
    if e in es {
      assert e.id in Ids(es);
      OnlyOfItsId(es, e);
      assert e.id in Existing(events, es) <==>
        exists k :: k in events && k.id == e.id && (InWindow(k.at, es) || e.id in ClampedIds(es));
    }
  }

  lemma OnlyOfItsId(es: seq<Prepared>, e: Prepared)
    requires DistinctIds(es) && e in es
    ensures e.id in ClampedIds(es) <==> e.clamped
  {
    if e.id in ClampedIds(es) {
      var x :| x in es && x.clamped && x.id == e.id;
      var i :| 0 <= i < |es| && es[i] == x;
      var j :| 0 <= j < |es| && es[j] == e;
      assert i == j;
    }
  }

  // A resend is not counted twice: an event stored at the time it is sent with,
  // or whose time the server replaces again, is dropped.
  lemma ResentIsDropped(events: Rows, es: seq<Prepared>, e: Prepared, at: int)
    requires DistinctIds(es) && e in es && RowKey(e.id, at) in events && (at == e.at || e.clamped)
    ensures forall x :: x in Kept(events, es) ==> x.id != e.id
  {
    WithoutIs(es, Existing(events, es));
    assert e.id in Ids(es);
    if at == e.at {
      assert InWindow(at, es);
    } else {
      assert e.id in ClampedIds(es);
    }
    assert RowKey(e.id, at).id in Existing(events, es);
  }

  /* ---- the state ---- */

  // gone and swept are history: rows dropped while their issue stays, and the
  // clock of the last sweep.
  datatype State = State(
    issues: map<Fingerprint, Issue>, events: Rows, gone: map<Fingerprint, nat>, now: int, swept: int, retention: int)

  datatype Step =
    | Tick(t: int)
    | Ingest(sent: seq<Prepared>)
    | Symbolicate(k: RowKey, title: string, release: string, moved: Option<Fingerprint>)
    | SetStatus(fp: Fingerprint, status: Status)
    | DropRows(strays: set<RowKey>)
    | ExpireIssues

  function Gone(gone: map<Fingerprint, nat>, fp: Fingerprint): nat {
    if fp in gone then gone[fp] else 0
  }

  function RowsOf(events: Rows, fp: Fingerprint): set<RowKey> {
    set k | k in events && events[k].fingerprint == Some(fp)
  }

  function New(s: State, sent: seq<Prepared>): seq<Prepared> {
    Kept(s.events, Analysed(sent, s.now - s.retention, s.now))
  }

  // The transaction's effect with every event upserted on its own.
  function IngestStep(s: State, sent: seq<Prepared>): State {
    var es := New(s, sent);
    s.(issues := EachUpserted(s.issues, es), events := Stored(s.events, es))
  }

  // AdjustIssueStoredCount by -1 and DeleteEmptyIssue.
  function Adjusted(i: Issue): Issue {
    i.(storedCount := Max(0, i.storedCount - 1), eventCount := Max(0, i.eventCount - 1))
  }

  function TakenFrom(issues: map<Fingerprint, Issue>, fp: Fingerprint): map<Fingerprint, Issue> {
    if fp !in issues then issues
    else
      var i := Adjusted(issues[fp]);
      if i.eventCount <= 0 && i.status == Unresolved then issues - {fp} else issues[fp := i]
  }

  function MoveParams(k: RowKey, row: EventRow, title: string, release: string): Params {
    Params(title, row.level, 1, 1, k.at, k.at, row.release, {release}, false)
  }

  function Homed(issues: map<Fingerprint, Issue>, fp: Fingerprint, p: Params): map<Fingerprint, Issue> {
    issues[fp := Upserted(At(issues, fp), p)]
  }

  function SymbolicateStep(s: State, k: RowKey, title: string, release: string, moved: Option<Fingerprint>): State {
    if k !in s.events || s.events[k].symbolicated then s
    else
      var row := s.events[k];
      var s' := s.(events := s.events[k := row.(fingerprint := moved, symbolicated := true)]);
      if moved == row.fingerprint || moved.None? then s'
      else
        var homed := Homed(s.issues, moved.value, MoveParams(k, row, title, release));
        s'.(issues := if row.fingerprint.None? then homed else TakenFrom(homed, row.fingerprint.value))
  }

  function SetStatusStep(s: State, fp: Fingerprint, status: Status): State {
    if fp !in s.issues then s
    else
      var i := s.issues[fp];
      s.(issues := s.issues[fp := i.(status := status,
        resolvedReleases := if status == Resolved then i.releases else i.resolvedReleases)])
  }

  // The weeks before the retention window, and strays of the default partition.
  predicate Dropped(s: State, k: RowKey, strays: set<RowKey>) {
    k.at < WeekStart(s.now - s.retention) || (k in strays && k.at < s.now - s.retention)
  }

  function Remaining(s: State, strays: set<RowKey>): Rows {
    map k | k in s.events && !Dropped(s, k, strays) :: s.events[k]
  }

  function DropRowsStep(s: State, strays: set<RowKey>): State {
    var left := Remaining(s, strays);
    s.(events := left, swept := s.now,
       gone := map fp | fp in s.issues :: LostRows(s.events, left, fp) + Gone(s.gone, fp))
  }

  function LostRows(events: Rows, left: Rows, fp: Fingerprint): nat {
    |RowsOf(events, fp) - RowsOf(left, fp)|
  }

  predicate Expires(i: Issue, swept: int, retention: int) {
    || (i.lastSeen < IssueCutoff(true, swept, retention) && (i.status == Resolved || i.status == Ignored))
    || i.lastSeen < IssueCutoff(false, swept, retention)
  }

  function ExpireIssuesStep(s: State): State {
    s.(issues := map fp | fp in s.issues && !Expires(s.issues[fp], s.swept, s.retention) :: s.issues[fp],
       gone := map fp | fp in s.gone && fp in s.issues && !Expires(s.issues[fp], s.swept, s.retention) :: s.gone[fp])
  }

  function Next(s: State, step: Step): State {
    match step
    case Tick(t) => if t > s.now then s.(now := t) else s
    case Ingest(sent) => IngestStep(s, sent)
    case Symbolicate(k, title, release, moved) => SymbolicateStep(s, k, title, release, moved)
    case SetStatus(fp, status) => SetStatusStep(s, fp, status)
    case DropRows(strays) => DropRowsStep(s, strays)
    case ExpireIssues => ExpireIssuesStep(s)
  }

  function Run(s: State, steps: seq<Step>): State
    decreases |steps|
  {
    if steps == [] then s else Run(Next(s, steps[0]), steps[1..])
  }

  function Init(now: int, retention: int): State {
    State(map[], map[], map[], now, now, retention)
  }

  /* ---- the invariant ---- */

  predicate Ranged(i: Issue, rows: set<RowKey>) {
    forall k :: k in rows ==> i.firstSeen <= k.at <= i.lastSeen
  }

  predicate IssueOk(i: Option<Issue>, rows: set<RowKey>, gone: nat) {
    if i.None? then rows == {} && gone == 0
    else i.value.storedCount == |rows| + gone && i.value.eventCount >= i.value.storedCount && Ranged(i.value, rows)
  }

  ghost predicate IssuesOk(issues: map<Fingerprint, Issue>, events: Rows, gone: map<Fingerprint, nat>) {
    forall fp: Fingerprint {:trigger At(issues, fp)} {:trigger RowsOf(events, fp)} ::
      IssueOk(At(issues, fp), RowsOf(events, fp), Gone(gone, fp))
  }

  predicate RowsSwept(s: State) {
    s.swept <= s.now && forall k :: k in s.events ==> k.at >= WeekStart(s.swept - s.retention)
  }

  ghost predicate Inv(s: State) {
    IssuesOk(s.issues, s.events, s.gone) && RowsSwept(s)
  }

  // The stale cutoff is not past the start of the oldest surviving week.
  predicate StaleIsOld(swept: int, retention: int) {
    IssueCutoff(false, swept, retention) <= WeekStart(swept - retention)
  }

  // A re-symbolicated event keeps a fingerprint if it had one, and issues
  // expire only behind their weeks. SymbolicateKeepsIff and ExpireIsSafeIff
  // say why.
  predicate Sound(s: State, step: Step) {
    match step
    case Symbolicate(k, _, _, moved) =>
      k in s.events && !s.events[k].symbolicated && moved.None? ==> s.events[k].fingerprint.None?
    case ExpireIssues => StaleIsOld(s.swept, s.retention)
    case _ => true
  }

  ghost predicate AllSound(s: State, steps: seq<Step>)
    decreases |steps|
  {
    steps == [] || (Sound(s, steps[0]) && AllSound(Next(s, steps[0]), steps[1..]))
  }

  /* ---- ingest keeps it ---- */

  lemma RowsOfAdd(events: Rows, k: RowKey, row: EventRow, fp: Fingerprint)
    requires k !in events
    ensures RowsOf(events[k := row], fp) ==
      if row.fingerprint == Some(fp) then RowsOf(events, fp) + {k} else RowsOf(events, fp)
    ensures k !in RowsOf(events, fp)
  {
  }

  // One event: its own issue grows with it.
  lemma UpsertOk(i: Option<Issue>, rows: set<RowKey>, gone: nat, p: Params, grown: set<RowKey>)
    requires IssueOk(i, rows, gone)
    requires p.firstSeen == p.lastSeen && 0 <= p.storedCount <= p.eventCount
    requires rows <= grown && |grown| == |rows| + p.storedCount
    requires forall k :: k in grown && k !in rows ==> k.at == p.lastSeen
    ensures IssueOk(Some(Upserted(i, p)), grown, gone)
  {
  }

  lemma EventOk(i: Option<Issue>, events: Rows, gone: nat, e: Prepared, fp: Fingerprint)
    requires IssueOk(i, RowsOf(events, fp), gone) && KeyOf(e) !in events
    ensures var events' := if e.keep then events[KeyOf(e) := RowOf(e)] else events;
      IssueOk(if e.fingerprint == Some(fp) then Some(Upserted(i, ParamsOf(e))) else i, RowsOf(events', fp), gone)
  {
    RowsOfAdd(events, KeyOf(e), RowOf(e), fp);
    if e.fingerprint == Some(fp) {
      UpsertOk(i, RowsOf(events, fp), gone, ParamsOf(e),
        RowsOf(if e.keep then events[KeyOf(e) := RowOf(e)] else events, fp));
    }
  }

  lemma {:induction false} StoredKeys(events: Rows, es: seq<Prepared>)
    ensures forall k :: k in Stored(events, es) ==> k in events || exists e :: e in es && KeyOf(e) == k
    ensures forall k :: k in events ==> k in Stored(events, es) && Stored(events, es)[k] == events[k]
    decreases |es|
  {
    if es != [] {
      StoredKeys(events, es[..|es| - 1]);
      assert es[|es| - 1] in es;
    }
  }

  // The rows an ingest adds: one for each new event not sampled away, as it was
  // analysed.
  lemma {:induction false} IngestedRows(s: State, sent: seq<Prepared>)
    requires s.retention >= 0
    ensures var after := IngestStep(s, sent).events; var es := New(s, sent);
      && (forall k :: k in s.events ==> k in after && after[k] == s.events[k])
      && (forall k :: k in after && k !in s.events ==> exists e :: e in es && e.keep && k == RowKey(e.id, e.at))
      && (forall e :: e in es && e.keep ==>
            && RowKey(e.id, e.at) in after && RowKey(e.id, e.at) !in s.events
            && after[RowKey(e.id, e.at)] ==
                 EventRow(e.level, NilIfEmpty(e.release), e.fingerprint, e.symbolicated, e.event))
  {
    NewIsNew(s, sent);
    StoredKeys(s.events, New(s, sent));
    StoredRows(s.events, New(s, sent));
  }

  lemma {:induction false} StoredRows(events: Rows, es: seq<Prepared>)
    requires DistinctIds(es) && forall e :: e in es ==> KeyOf(e) !in events
    ensures forall e :: e in es && e.keep ==> KeyOf(e) in Stored(events, es) && Stored(events, es)[KeyOf(e)] == RowOf(e)
    ensures forall k :: k in Stored(events, es) && k !in events ==> exists e :: e in es && e.keep && KeyOf(e) == k
    decreases |es|
  {
    if es != [] {
      var front, e := es[..|es| - 1], es[|es| - 1];
      StoredRows(events, front);
      StoredKeys(events, front);
      assert es == front + [e];
      assert forall x :: x in front ==> x.id != e.id;
      assert KeyOf(e) !in Stored(events, front);
    }
  }

  lemma {:induction false} EachKeeps(
      issues: map<Fingerprint, Issue>, events: Rows, gone: map<Fingerprint, nat>, es: seq<Prepared>)
    requires IssuesOk(issues, events, gone) && DistinctIds(es)
    requires forall e :: e in es ==> KeyOf(e) !in events
    ensures IssuesOk(EachUpserted(issues, es), Stored(events, es), gone)
    decreases |es|
  {
    if es != [] {
      var front, e := es[..|es| - 1], es[|es| - 1];
      assert es == front + [e];
      EachKeeps(issues, events, gone, front);
      StoredKeys(events, front);
      var before := Stored(events, front);
      assert KeyOf(e) !in before;
      forall fp: Fingerprint
        ensures IssueOk(At(EachUpserted(issues, es), fp), RowsOf(Stored(events, es), fp), Gone(gone, fp))
      {
        EventOk(At(EachUpserted(issues, front), fp), before, Gone(gone, fp), e, fp);
      }
    }
  }

  // The invariant does not see first_release and last_release.
  lemma CoreKeeps(a: map<Fingerprint, Issue>, b: map<Fingerprint, Issue>, events: Rows, gone: map<Fingerprint, nat>)
    requires SameCore(a, b) && IssuesOk(b, events, gone)
    ensures IssuesOk(a, events, gone)
  {
    forall fp: Fingerprint
      ensures IssueOk(At(a, fp), RowsOf(events, fp), Gone(gone, fp))
    {
      assert CoreOf(At(a, fp)) == CoreOf(At(b, fp));
      assert IssueOk(At(b, fp), RowsOf(events, fp), Gone(gone, fp));
    }
  }

  lemma NewIsNew(s: State, sent: seq<Prepared>)
    requires s.retention >= 0
    ensures DistinctIds(New(s, sent))
    ensures forall e :: e in New(s, sent) ==> KeyOf(e) !in s.events && e.at >= s.now - s.retention
  {
    AnalysedIs(sent, s.now - s.retention, s.now);
    KeptAreNew(s.events, Analysed(sent, s.now - s.retention, s.now));
  }

  // Clamped event times are past every week a sweep has dropped.
  lemma NewIsUnswept(s: State, es: seq<Prepared>)
    requires RowsSwept(s) && forall e :: e in es ==> e.at >= s.now - s.retention
    ensures forall k :: k in Stored(s.events, es) ==> k.at >= WeekStart(s.swept - s.retention)
  {
    StoredKeys(s.events, es);
    WeekStartMonotone(s.swept - s.retention, s.now - s.retention);
    WeekStartIsMonday(s.now - s.retention);
  }

  lemma IngestKeeps(s: State, sent: seq<Prepared>)
    requires Inv(s) && s.retention >= 0
    ensures Inv(IngestStep(s, sent))
  {
    NewIsNew(s, sent);
    EachKeeps(s.issues, s.events, s.gone, New(s, sent));
    NewIsUnswept(s, New(s, sent));
  }

  /* ---- re-symbolication keeps it ---- */

  lemma OtherIssue(issues: map<Fingerprint, Issue>, fp: Fingerprint, other: Fingerprint, p: Params)
    requires fp != other
    ensures At(Homed(issues, fp, p), other) == At(issues, other)
    ensures At(TakenFrom(issues, fp), other) == At(issues, other)
  {
  }

  lemma MovedRows(events: Rows, k: RowKey, row: EventRow, fp: Fingerprint)
    requires k in events
    ensures RowsOf(events[k := row], fp) ==
      if row.fingerprint == Some(fp) then RowsOf(events, fp) + {k} else RowsOf(events, fp) - {k}
  {
  }

  // The issue left behind: the clamp at zero does not fire, and deleting the
  // empty issue leaves no row without one.
  lemma TakenOk(issues: map<Fingerprint, Issue>, fp: Fingerprint, rows: set<RowKey>, gone: nat, k: RowKey)
    requires IssueOk(At(issues, fp), rows, gone) && k in rows
    ensures IssueOk(At(TakenFrom(issues, fp), fp), rows - {k}, gone)
    ensures fp in issues && Adjusted(issues[fp]).storedCount == issues[fp].storedCount - 1
    ensures fp in issues && Adjusted(issues[fp]).eventCount == issues[fp].eventCount - 1
  {
    assert |rows - {k}| == |rows| - 1;
  }

  lemma SymbolicateKeeps(s: State, k: RowKey, title: string, release: string, moved: Option<Fingerprint>)
    requires Inv(s) && Sound(s, Symbolicate(k, title, release, moved))
    ensures Inv(SymbolicateStep(s, k, title, release, moved))
  {
    var s' := SymbolicateStep(s, k, title, release, moved);
    if k in s.events && !s.events[k].symbolicated {
      forall fp: Fingerprint
        ensures IssueOk(At(s'.issues, fp), RowsOf(s'.events, fp), Gone(s'.gone, fp))
      {
        SymbolicatedIssue(s, k, title, release, moved, fp);
      }
    }
  }

  lemma SymbolicatedIssue(
      s: State, k: RowKey, title: string, release: string, moved: Option<Fingerprint>, fp: Fingerprint)
    requires IssuesOk(s.issues, s.events, s.gone) && k in s.events && !s.events[k].symbolicated
    requires moved.None? ==> s.events[k].fingerprint.None?
    ensures var s' := SymbolicateStep(s, k, title, release, moved);
      IssueOk(At(s'.issues, fp), RowsOf(s'.events, fp), Gone(s'.gone, fp))
  {
    var row := s.events[k];
    var rows := RowsOf(s.events, fp);
    var moving := row.(fingerprint := moved, symbolicated := true);
    assert IssueOk(At(s.issues, fp), rows, Gone(s.gone, fp));
    MovedRows(s.events, k, moving, fp);
    if moved == row.fingerprint {
      assert RowsOf(s.events[k := moving], fp) == rows;
    } else {
      MovedIssue(s.issues, rows, Gone(s.gone, fp), k, row.fingerprint, moved.value,
        MoveParams(k, row, title, release), fp);
    }
  }

  lemma MovedIssue(issues: map<Fingerprint, Issue>, rows: set<RowKey>, gone: nat, k: RowKey, was: Option<Fingerprint>,
      moved: Fingerprint, p: Params, fp: Fingerprint)
    requires IssueOk(At(issues, fp), rows, gone) && was != Some(moved) && (k in rows <==> was == Some(fp))
    requires p.firstSeen == p.lastSeen == k.at && p.eventCount == p.storedCount == 1
    ensures var homed := Homed(issues, moved, p);
      IssueOk(At(if was.None? then homed else TakenFrom(homed, was.value), fp),
        if fp == moved then rows + {k} else rows - {k}, gone)
  {
    var homed := Homed(issues, moved, p);
    if fp == moved {
      UpsertOk(At(issues, fp), rows, gone, p, rows + {k});
    } else {
      OtherIssue(issues, moved, fp, p);
    }
    if was == Some(fp) {
      TakenOk(homed, fp, rows, gone, k);
    } else {
      if was.Some? {
        OtherIssue(homed, was.value, fp, p);
      }
      assert rows - {k} == rows;
    }
  }

  /* ---- what re-symbolication does to the rows, field by field ---- */

  // The event row changes its fingerprint and is done with; every other row stays.
  lemma SymbolicatedRow(s: State, k: RowKey, title: string, release: string, moved: Option<Fingerprint>)
    requires k in s.events && !s.events[k].symbolicated
    ensures var s' := SymbolicateStep(s, k, title, release, moved);
      && s'.events.Keys == s.events.Keys && s'.gone == s.gone && s'.now == s.now && s'.swept == s.swept
      && s'.events[k] == s.events[k].(fingerprint := moved, symbolicated := true)
      && (forall other :: other in s.events && other != k ==> s'.events[other] == s.events[other])
      && (moved == s.events[k].fingerprint || moved.None? ==> s'.issues == s.issues)
  {
  }

  // The issue the event goes to. It is no evidence of a regression: the status
  // stays, also of a resolved issue.
  ghost predicate Gains(was: Option<Issue>, i: Issue, k: RowKey, row: EventRow, title: string, release: string) {
    if was.None? then
      i == Issue(title, row.level, Unresolved, 1, 1, k.at, k.at, row.release, row.release, {release}, {})
    else
      var b := was.value;
      && i.title == b.title && i.status == b.status && i.resolvedReleases == b.resolvedReleases
      && i.firstRelease == b.firstRelease && i.releases == b.releases + {release}
      && i.eventCount == b.eventCount + 1 && i.storedCount == b.storedCount + 1
      && i.firstSeen == (if k.at < b.firstSeen then k.at else b.firstSeen)
      && i.lastSeen == (if k.at > b.lastSeen then k.at else b.lastSeen)
      && i.level == (if k.at >= b.lastSeen then row.level else b.level)
      && i.lastRelease == (if k.at >= b.lastSeen && row.release.Some? then row.release else b.lastRelease)
  }

  // The issue it leaves: gone exactly when that was its last event and nobody has
  // given it a status, otherwise one event poorer and the same in all else.
  ghost predicate Loses(b: Issue, now: Option<Issue>) {
    if b.eventCount <= 1 && b.status == Unresolved then now == None
    else now == Some(b.(eventCount := if b.eventCount > 0 then b.eventCount - 1 else 0,
                        storedCount := if b.storedCount > 0 then b.storedCount - 1 else 0))
  }

  lemma {:induction false} RehomedIssues(s: State, k: RowKey, title: string, release: string, moved: Fingerprint)
    requires k in s.events && !s.events[k].symbolicated && s.events[k].fingerprint != Some(moved)
    ensures var row := s.events[k]; var issues := SymbolicateStep(s, k, title, release, Some(moved)).issues;
      && moved in issues && Gains(At(s.issues, moved), issues[moved], k, row, title, release)
      && (row.fingerprint.Some? && row.fingerprint.value in s.issues ==>
            Loses(s.issues[row.fingerprint.value], At(issues, row.fingerprint.value)))
      && (forall fp: Fingerprint :: fp != moved && row.fingerprint != Some(fp) ==> At(issues, fp) == At(s.issues, fp))
  {
    var row := s.events[k];
    var p := MoveParams(k, row, title, release);
    GainsOne(At(s.issues, moved), p, k, row, title, release);
    var homed := Homed(s.issues, moved, p);
    forall fp: Fingerprint | fp != moved
      ensures At(homed, fp) == At(s.issues, fp)
    {
    }
  }

  lemma GainsOne(was: Option<Issue>, p: Params, k: RowKey, row: EventRow, title: string, release: string)
    requires p == MoveParams(k, row, title, release)
    ensures Gains(was, Upserted(was, p), k, row, title, release)
  {
  }

  /* ---- re-homing moves one event ---- */

  datatype Counter = EventCount | StoredCount

  // A deleted issue counts for nothing.
  function CountAt(issues: map<Fingerprint, Issue>, fp: Fingerprint, c: Counter): int {
    if fp !in issues then 0 else if c.EventCount? then issues[fp].eventCount else issues[fp].storedCount
  }

  function OneIf(b: bool): int {
    if b then 1 else 0
  }

  // Issue by issue: one more where the event goes, one less where it was, also
  // when that issue is deleted, and nothing anywhere else.
  lemma {:induction false} RehomingMovesOne(
    s: State, k: RowKey, title: string, release: string, moved: Fingerprint, fp: Fingerprint, c: Counter)
    requires Inv(s) && k in s.events && !s.events[k].symbolicated && s.events[k].fingerprint != Some(moved)
    ensures CountAt(SymbolicateStep(s, k, title, release, Some(moved)).issues, fp, c) ==
      CountAt(s.issues, fp, c) + OneIf(fp == moved) - OneIf(s.events[k].fingerprint == Some(fp))
  {
    if s.events[k].fingerprint == Some(fp) {
      assert k in RowsOf(s.events, fp) && IssueOk(At(s.issues, fp), RowsOf(s.events, fp), Gone(s.gone, fp));
      var homed := Homed(s.issues, moved, MoveParams(k, s.events[k], title, release));
      assert homed[fp] == s.issues[fp] && Adjusted(homed[fp]).storedCount >= 0;
    }
  }

  ghost function Total(issues: map<Fingerprint, Issue>, fps: set<Fingerprint>, c: Counter): int
    decreases |fps|
  {
    if fps == {} then 0
    else
      var fp :| fp in fps;
      CountAt(issues, fp, c) + Total(issues, fps - {fp}, c)
  }

  lemma {:induction false} TotalSplits(
      issues: map<Fingerprint, Issue>, fps: set<Fingerprint>, fp: Fingerprint, c: Counter)
    requires fp in fps
    ensures Total(issues, fps, c) == CountAt(issues, fp, c) + Total(issues, fps - {fp}, c)
    decreases |fps|
  {
    var first :| first in fps && Total(issues, fps, c) == CountAt(issues, first, c) + Total(issues, fps - {first}, c);
    if first != fp {
      TotalSplits(issues, fps - {first}, fp, c);
      TotalSplits(issues, fps - {fp}, first, c);
      assert fps - {first} - {fp} == fps - {fp} - {first};
    }
  }

  lemma {:induction false} TotalSame(
      a: map<Fingerprint, Issue>, b: map<Fingerprint, Issue>, fps: set<Fingerprint>, c: Counter)
    requires forall fp :: fp in fps ==> CountAt(a, fp, c) == CountAt(b, fp, c)
    ensures Total(a, fps, c) == Total(b, fps, c)
    decreases |fps|
  {
    if fps != {} {
      var fp :| fp in fps;
      TotalSplits(a, fps, fp, c);
      TotalSplits(b, fps, fp, c);
      TotalSame(a, b, fps - {fp}, c);
    }
  }

  // Over all issues before and after: the totals stay for an event that had an
  // issue, and grow by one for an event that had none.
  lemma {:induction false} RehomingKeepsTotals(
    s: State, k: RowKey, title: string, release: string, moved: Fingerprint, fps: set<Fingerprint>, c: Counter)
    requires Inv(s) && k in s.events && !s.events[k].symbolicated && s.events[k].fingerprint != Some(moved)
    requires fps >= s.issues.Keys + SymbolicateStep(s, k, title, release, Some(moved)).issues.Keys
    ensures Total(SymbolicateStep(s, k, title, release, Some(moved)).issues, fps, c) ==
      Total(s.issues, fps, c) + OneIf(s.events[k].fingerprint.None?)
  {
    var was, after := s.events[k].fingerprint, SymbolicateStep(s, k, title, release, Some(moved)).issues;
    forall fp: Fingerprint
      ensures CountAt(after, fp, c) == CountAt(s.issues, fp, c) + OneIf(fp == moved) - OneIf(was == Some(fp))
    {
      RehomingMovesOne(s, k, title, release, moved, fp, c);
    }
    assert moved in after;
    TotalSplits(after, fps, moved, c);
    TotalSplits(s.issues, fps, moved, c);
    if was.Some? {
      assert k in RowsOf(s.events, was.value) &&
        IssueOk(At(s.issues, was.value), RowsOf(s.events, was.value), Gone(s.gone, was.value));
      TotalSplits(after, fps - {moved}, was.value, c);
      TotalSplits(s.issues, fps - {moved}, was.value, c);
      TotalSame(after, s.issues, fps - {moved} - {was.value}, c);
    } else {
      TotalSame(after, s.issues, fps - {moved}, c);
    }
  }

  /* ---- the sweep and status changes keep it ---- */

  lemma SetStatusKeeps(s: State, fp: Fingerprint, status: Status)
    requires Inv(s)
    ensures Inv(SetStatusStep(s, fp, status))
  {
    var s' := SetStatusStep(s, fp, status);
    forall f: Fingerprint
      ensures IssueOk(At(s'.issues, f), RowsOf(s'.events, f), Gone(s'.gone, f))
    {
      assert IssueOk(At(s.issues, f), RowsOf(s.events, f), Gone(s.gone, f));
    }
  }

  // Resolving records the releases seen so far: the next event makes the issue a
  // regression exactly when it counts and names a release not among them.
  lemma ResolvedThenSeen(s: State, fp: Fingerprint, status: Status, p: Params)
    requires fp in s.issues
    ensures var i := s.issues[fp]; var after := SetStatusStep(s, fp, status);
      && fp in after.issues
      && Upserted(Some(after.issues[fp]), p).status ==
           (if status == Resolved && p.regress && exists r :: r in p.releases && r !in i.releases then Regression
            else status)
      && after.issues[fp].(status := i.status, resolvedReleases := i.resolvedReleases) == i
      && (status != Resolved ==> after.issues[fp].resolvedReleases == i.resolvedReleases)
      && after.(issues := s.issues) == s && after.issues - {fp} == s.issues - {fp}
  {
    var after := SetStatusStep(s, fp, status);
    assert after.issues - {fp} == s.issues - {fp};
  }

  lemma {:induction false} DropRowsKeeps(s: State, strays: set<RowKey>)
    requires Inv(s)
    ensures Inv(DropRowsStep(s, strays))
  {
    var s' := DropRowsStep(s, strays);
    forall fp: Fingerprint
      ensures IssueOk(At(s'.issues, fp), RowsOf(s'.events, fp), Gone(s'.gone, fp))
    {
      var rows, left := RowsOf(s.events, fp), RowsOf(s'.events, fp);
      assert IssueOk(At(s.issues, fp), rows, Gone(s.gone, fp));
      assert left <= rows;
      assert |rows - left| == |rows| - |left| by {
        assert rows == left + (rows - left);
      }
    }
  }

  // An issue goes exactly when it is settled and last seen before the oldest
  // surviving week, or last seen four retentions before the sweep.
  lemma ExpiredIff(s: State, fp: Fingerprint)
    requires fp in s.issues
    ensures var i := s.issues[fp]; var after := ExpireIssuesStep(s);
      && (fp !in after.issues <==>
            || (i.status in {Resolved, Ignored} && i.lastSeen < WeekStart(s.swept - s.retention))
            || s.swept - i.lastSeen > 4 * s.retention)
      && (fp in after.issues ==> after.issues[fp] == i) && after.events == s.events
  {
  }

  lemma ExpireKeeps(s: State)
    requires Inv(s) && StaleIsOld(s.swept, s.retention)
    ensures Inv(ExpireIssuesStep(s))
  {
    var s' := ExpireIssuesStep(s);
    forall fp: Fingerprint
      ensures IssueOk(At(s'.issues, fp), RowsOf(s'.events, fp), Gone(s'.gone, fp))
    {
      assert IssueOk(At(s.issues, fp), RowsOf(s.events, fp), Gone(s.gone, fp));
      if fp in s.issues && Expires(s.issues[fp], s.swept, s.retention) {
        assert RowsOf(s.events, fp) == {} by {
          assert forall k :: k in RowsOf(s.events, fp) ==> k.at <= s.issues[fp].lastSeen;
        }
      }
    }
  }

  lemma NextKeeps(s: State, step: Step)
    requires Inv(s) && Sound(s, step) && s.retention >= 0
    ensures Inv(Next(s, step)) && Next(s, step).retention == s.retention
  {
    match step
    case Tick(t) =>
    case Ingest(sent) => IngestKeeps(s, sent);
    case Symbolicate(k, title, release, moved) => SymbolicateKeeps(s, k, title, release, moved);
    case SetStatus(fp, status) => SetStatusKeeps(s, fp, status);
    case DropRows(strays) => DropRowsKeeps(s, strays);
    case ExpireIssues => ExpireKeeps(s);
  }

  // With RETENTION_DAYS of three or more the stale cutoff is always old enough.
  lemma LongRetention(swept: int, retention: int)
    requires 3 * retention >= WEEK
    ensures StaleIsOld(swept, retention)
  {
    WeekStartIsMonday(swept - retention);
  }

  lemma {:induction false} RunKeeps(s: State, steps: seq<Step>)
    requires Inv(s) && AllSound(s, steps) && s.retention >= 0
    ensures Inv(Run(s, steps))
    decreases |steps|
  {
    if steps != [] {
      NextKeeps(s, steps[0]);
      RunKeeps(Next(s, steps[0]), steps[1..]);
    }
  }

  /* ---- the theorems ---- */

  // In every state of every run: an issue's stored_count is its event rows (and
  // those retention has dropped), its event_count is at least that, its events
  // lie in its range, and every grouped event row has an issue.
  lemma CountsAreConserved(now: int, retention: int, steps: seq<Step>, fp: Fingerprint)
    requires retention >= 0 && AllSound(Init(now, retention), steps)
    ensures var s := Run(Init(now, retention), steps);
      if fp in s.issues then
        && s.issues[fp].storedCount == |RowsOf(s.events, fp)| + Gone(s.gone, fp)
        && s.issues[fp].eventCount >= s.issues[fp].storedCount
        && Ranged(s.issues[fp], RowsOf(s.events, fp))
      else RowsOf(s.events, fp) == {}
  {
    forall f: Fingerprint
      ensures IssueOk(At(map[], f), RowsOf(map[], f), Gone(map[], f))
    {
      assert RowsOf(map[], f) == {};
    }
    RunKeeps(Init(now, retention), steps);
    var s := Run(Init(now, retention), steps);
    assert IssueOk(At(s.issues, fp), RowsOf(s.events, fp), Gone(s.gone, fp));
  }

  // Re-symbolicating one event keeps the counts exactly when it does not take
  // the fingerprint of a grouped event away.
  lemma SymbolicateKeepsIff(s: State, k: RowKey, title: string, release: string, moved: Option<Fingerprint>)
    requires Inv(s) && k in s.events && !s.events[k].symbolicated
    ensures Inv(SymbolicateStep(s, k, title, release, moved)) <==> moved.Some? || s.events[k].fingerprint.None?
  {
    if moved.Some? || s.events[k].fingerprint.None? {
      SymbolicateKeeps(s, k, title, release, moved);
    } else {
      var fp := s.events[k].fingerprint.value;
      var s' := SymbolicateStep(s, k, title, release, moved);
      assert IssueOk(At(s.issues, fp), RowsOf(s.events, fp), Gone(s.gone, fp));
      MovedRows(s.events, k, s.events[k].(fingerprint := moved, symbolicated := true), fp);
      assert !IssueOk(At(s'.issues, fp), RowsOf(s'.events, fp), Gone(s'.gone, fp));
    }
  }

  ghost predicate NeverOrphans(swept: int, retention: int) {
    forall s {:trigger Inv(s)} ::
      Inv(s) && s.swept == swept && s.retention == retention ==>
        IssuesOk(ExpireIssuesStep(s).issues, s.events, ExpireIssuesStep(s).gone)
  }

  // ExpireIssues never deletes an issue that still has an event row exactly
  // when four retentions reach back to the oldest surviving week; from three
  // days of retention on they always do (LongRetention).
  lemma ExpireIsSafeIff(swept: int, retention: int)
    requires retention > 0
    ensures NeverOrphans(swept, retention) <==> StaleIsOld(swept, retention)
  {
    if StaleIsOld(swept, retention) {
      forall s | Inv(s) && s.swept == swept && s.retention == retention
        ensures IssuesOk(ExpireIssuesStep(s).issues, s.events, ExpireIssuesStep(s).gone)
      {
        ExpireKeeps(s);
      }
    } else {
      var at := WeekStart(swept - retention);
      var k := RowKey(0, at);
      var i := Issue("", Error, Unresolved, 1, 1, at, at, None, None, {}, {});
      var events := map[k := EventRow(Error, None, Some(0), false, BLANK_EVENT)];
      var s := State(map[0 := i], events, map[], swept, swept, retention);
      forall fp: Fingerprint
        ensures IssueOk(At(s.issues, fp), RowsOf(s.events, fp), Gone(s.gone, fp))
      {
        assert RowsOf(events, fp) == if fp == 0 then {k} else {};
      }
      assert Inv(s);
      assert !IssueOk(At(ExpireIssuesStep(s).issues, 0), RowsOf(events, 0), Gone(ExpireIssuesStep(s).gone, 0));
    }
  }

  // One event ingested at the start of a week, then a sweep of its last hour.
  function LastWeekSteps(e: Prepared, swept: int): seq<Step> {
    [Ingest([e]), Tick(swept), DropRows({}), ExpireIssues]
  }

  lemma NoneExisting(es: seq<Prepared>)
    ensures Existing(map[], es) == {}
  {
  }

  lemma {:induction false} NewOne(e: Prepared, retention: int)
    requires retention >= 0
    ensures New(Init(e.at, retention), [e]) == [e]
  {
    var front: seq<Prepared> := [];
    assert [e][..0] == front && Analysed(front, e.at - retention, e.at) == front && Ids(front) == {};
    assert Analysed([e], e.at - retention, e.at) == [e];
    NoneExisting([e]);
    assert Without(front, {}) == front;
  }

  lemma {:induction false} IngestOne(e: Prepared, fp: Fingerprint, retention: int)
    requires e.keep && e.fingerprint == Some(fp) && retention >= 0
    ensures var s := IngestStep(Init(e.at, retention), [e]);
      s.events == map[KeyOf(e) := RowOf(e)] && s.issues == map[fp := Created(ParamsOf(e))]
  {
    NewOne(e, retention);
    StoredOne(e);
    assert [e][..0] == [] && EachUpserted(map[], []) == map[];
  }

  lemma {:induction false} StoredOne(e: Prepared)
    requires e.keep
    ensures Stored(map[], [e]) == map[KeyOf(e) := RowOf(e)]
  {
    assert [e][..0] == [] && Stored(map[], []) == map[];
  }

  // With a retention too short for StaleIsOld such a run leaves the event row
  // without its issue.
  lemma {:induction false} ShortRetentionOrphans(e: Prepared, fp: Fingerprint, swept: int, retention: int)
    requires e.keep && e.fingerprint == Some(fp) && retention > 0
    requires e.at == WeekStart(swept - retention) && !StaleIsOld(swept, retention)
    ensures var s := Run(Init(e.at, retention), LastWeekSteps(e, swept));
      KeyOf(e) in RowsOf(s.events, fp) && fp !in s.issues
  {
    IngestOne(e, fp, retention);
    WeekStartIsMonday(swept - retention);
    var s1 := IngestStep(Init(e.at, retention), [e]);
    var s2 := Next(s1, Tick(swept));
    var s3 := DropRowsStep(s2, {});
    assert s3.events == s1.events && s3.issues == s1.issues && s3.swept == swept;
    var s4 := ExpireIssuesStep(s3);
    var steps := LastWeekSteps(e, swept);
    assert steps[1..] == [Tick(swept), DropRows({}), ExpireIssues];
    assert steps[1..][1..] == [DropRows({}), ExpireIssues];
    assert steps[1..][1..][1..] == [ExpireIssues];
    assert Run(s2, steps[1..][1..]) == Run(s3, [ExpireIssues]) == Run(s4, []);
  }

  /* ---- the newest and oldest event of an issue ---- */

  // IssueEventRange's to: last_seen plus a second, exclusive.
  function InRange(events: Rows, fp: Fingerprint, from: int, to: int): set<RowKey> {
    set k | k in RowsOf(events, fp) && from <= k.at < to
  }

  // Bounded by the issue's own range, the lookups see all of its events, so
  // their newest and oldest are those of a full scan.
  lemma RangeLookupsSeeAll(s: State, fp: Fingerprint)
    requires Inv(s) && fp in s.issues
    ensures InRange(s.events, fp, s.issues[fp].firstSeen, s.issues[fp].lastSeen + SECOND) == RowsOf(s.events, fp)
  {
    assert IssueOk(At(s.issues, fp), RowsOf(s.events, fp), Gone(s.gone, fp));
  }
}
