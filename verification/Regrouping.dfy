/**
 * Runs whose fingerprints are the analysis's own: symbolicating an event's
 * frames never takes its fingerprint, so the statistics and the counts need no
 * hypothesis about it. An imported row's fingerprint is the dump's instead.
 * And an issue the counts let expire is one the statistics can forget.
 */
module Regrouping {
  import opened Calendar
  import opened Options
  import opened Tables
  import opened SentryEvents
  import opened Grouping
  import Issues
  import IssueRuns
  import Rollup

  // The fingerprint of a payload, on its frames as sent or as symbolicated.
  ghost predicate Computed(a: Analyser, e: Event, f: Option<Fingerprint>) {
    exists frames :: f == FingerprintOf(a, e, frames)
  }

  lemma ComputedIsGroupable(a: Analyser, e: Event, f: Option<Fingerprint>)
    requires Computed(a, e, f)
    ensures f.Some? <==> Groupable(a.isDefault, e)
  {
    var frames :| f == FingerprintOf(a, e, frames);
    EmptinessIgnoresFrames(a, e, frames);
  }

  // A row has a fingerprint exactly when its payload has something to group by.
  predicate Fits(a: Analyser, e: Event, f: Option<Fingerprint>) {
    f.Some? <==> Groupable(a.isDefault, e)
  }

  /* ---- the statistics ---- */

  ghost predicate StepComputed(a: Analyser, s: Rollup.State, step: Rollup.Step) {
    match step
    case Ingest(rows) => forall k :: k in rows ==> Computed(a, rows[k].payload, rows[k].fingerprint)
    case Move(k, moved) => k in s.events ==> Computed(a, s.events[k].payload, moved)
    case _ => true
  }

  ghost predicate AllComputed(a: Analyser, s: Rollup.State, steps: seq<Rollup.Step>)
    decreases |steps|
  {
    steps == [] || (StepComputed(a, s, steps[0]) && AllComputed(a, Rollup.Next(s, steps[0]), steps[1..]))
  }

  predicate RowsFit(a: Analyser, rows: Rollup.Rows) {
    forall k :: k in rows ==> Fits(a, rows[k].payload, rows[k].fingerprint)
  }

  lemma ComputedRowsFit(a: Analyser, rows: Rollup.Rows)
    requires forall k :: k in rows ==> Computed(a, rows[k].payload, rows[k].fingerprint)
    ensures RowsFit(a, rows)
  {
    forall k | k in rows
      ensures Fits(a, rows[k].payload, rows[k].fingerprint)
    {
      ComputedIsGroupable(a, rows[k].payload, rows[k].fingerprint);
    }
  }

  lemma {:induction false} ComputedStep(a: Analyser, s: Rollup.State, step: Rollup.Step)
    requires RowsFit(a, s.events) && StepComputed(a, s, step)
    ensures Rollup.Grouped(s, step) && RowsFit(a, Rollup.Next(s, step).events)
  {
    match step
    case Ingest(rows) =>
      ComputedRowsFit(a, rows);
      IngestedFit(a, s, rows);
    case Move(k, moved) =>
      if k in s.events {
        ComputedIsGroupable(a, s.events[k].payload, moved);
        MovedFit(a, s, k, moved);
      }
    case _ => OtherStep(a, s, step);
  }

  lemma IngestedFit(a: Analyser, s: Rollup.State, rows: Rollup.Rows)
    requires RowsFit(a, s.events) && RowsFit(a, rows)
    ensures RowsFit(a, Rollup.IngestStep(s, rows).events)
  {
  }

  lemma MovedFit(a: Analyser, s: Rollup.State, k: EventKey, moved: Option<Fingerprint>)
    requires RowsFit(a, s.events) && k in s.events && Fits(a, s.events[k].payload, moved)
    ensures Rollup.Grouped(s, Rollup.Move(k, moved)) && RowsFit(a, Rollup.MoveStep(s, k, moved).events)
  {
  }

  lemma OtherStep(a: Analyser, s: Rollup.State, step: Rollup.Step)
    requires RowsFit(a, s.events) && !step.Ingest? && !step.Move?
    ensures RowsFit(a, Rollup.Next(s, step).events)
  {
  }

  lemma {:induction false} ComputedIsGrouped(a: Analyser, s: Rollup.State, steps: seq<Rollup.Step>)
    requires RowsFit(a, s.events) && AllComputed(a, s, steps)
    ensures Rollup.AllGrouped(s, steps)
    decreases |steps|
  {
    if steps != [] {
      ComputedStep(a, s, steps[0]);
      ComputedIsGrouped(a, Rollup.Next(s, steps[0]), steps[1..]);
    }
  }

  // Rollup.StatsAreExact for every run without imported rows.
  lemma {:induction false} AnalysedStatsAreExact(
    a: Analyser, now: int, retention: nat, steps: seq<Rollup.Step>, h: Rollup.HourKey)
    requires AllComputed(a, Rollup.Init(now, retention), steps)
    requires Rollup.Covered(Rollup.Run(Rollup.Init(now, retention), steps), h)
    ensures var s := Rollup.Run(Rollup.Init(now, retention), steps);
      Rollup.ReadStats(s, h) == Rollup.Aggregate(s.events, h)
  {
    ComputedIsGrouped(a, Rollup.Init(now, retention), steps);
    Rollup.StatsAreExact(now, retention, steps, h);
  }

  // An imported row carries the dump's fingerprint: if its payload has nothing to
  // group by, symbolicating it leaves its clean hour wrong, and nothing else does.
  lemma ImportedRowIsExactIff(a: Analyser, s: Rollup.State, k: EventKey, frames: seq<Frame>)
    requires Rollup.Inv(s) && k in s.events && s.events[k].fingerprint.Some?
    requires Rollup.Covered(s, Rollup.HourKeyOf(k)) && Rollup.HourKeyOf(k) !in s.dirty
    ensures var s' := Rollup.MoveStep(s, k, FingerprintOf(a, s.events[k].payload, frames));
      var h := Rollup.HourKeyOf(k);
      Rollup.ReadStats(s', h) == Rollup.Aggregate(s'.events, h) <==> Groupable(a.isDefault, s.events[k].payload)
  {
    EmptinessIgnoresFrames(a, s.events[k].payload, frames);
    Rollup.MoveIsExactIff(s, k, FingerprintOf(a, s.events[k].payload, frames));
  }

  /* ---- the issue counts ---- */

  ghost predicate RunStepComputed(a: Analyser, s: IssueRuns.State, step: IssueRuns.Step) {
    match step
    case Ingest(sent) => forall e :: e in sent ==> Computed(a, e.event, e.fingerprint)
    case Symbolicate(k, _, _, moved) => k in s.events ==> Computed(a, s.events[k].payload, moved)
    case _ => true
  }

  ghost predicate RunComputed(a: Analyser, s: IssueRuns.State, steps: seq<IssueRuns.Step>)
    decreases |steps|
  {
    steps == [] || (RunStepComputed(a, s, steps[0]) && RunComputed(a, IssueRuns.Next(s, steps[0]), steps[1..]))
  }

  predicate StoredFit(a: Analyser, rows: IssueRuns.Rows) {
    forall k :: k in rows ==> Fits(a, rows[k].payload, rows[k].fingerprint)
  }

  predicate SentFit(a: Analyser, sent: seq<Issues.Prepared>) {
    forall e :: e in sent ==> Fits(a, e.event, e.fingerprint)
  }

  lemma ComputedSentFit(a: Analyser, sent: seq<Issues.Prepared>)
    requires forall e :: e in sent ==> Computed(a, e.event, e.fingerprint)
    ensures SentFit(a, sent)
  {
    forall e | e in sent
      ensures Fits(a, e.event, e.fingerprint)
    {
      ComputedIsGroupable(a, e.event, e.fingerprint);
    }
  }

  lemma {:induction false} AnalysedFit(a: Analyser, sent: seq<Issues.Prepared>, past: int, now: int)
    requires SentFit(a, sent)
    ensures SentFit(a, IssueRuns.Analysed(sent, past, now))
    decreases |sent|
  {
    if sent != [] {
      AnalysedFit(a, sent[..|sent| - 1], past, now);
      assert sent[|sent| - 1] in sent;
    }
  }

  lemma {:induction false} KeptFit(a: Analyser, es: seq<Issues.Prepared>, ids: set<nat>)
    requires SentFit(a, es)
    ensures SentFit(a, IssueRuns.Without(es, ids))
    decreases |es|
  {
    if es != [] {
      KeptFit(a, es[..|es| - 1], ids);
      assert es[|es| - 1] in es;
    }
  }

  lemma {:induction false} RowsStoredFit(a: Analyser, events: IssueRuns.Rows, es: seq<Issues.Prepared>)
    requires StoredFit(a, events) && SentFit(a, es)
    ensures StoredFit(a, IssueRuns.Stored(events, es))
    decreases |es|
  {
    if es != [] {
      RowsStoredFit(a, events, es[..|es| - 1]);
      assert es[|es| - 1] in es;
    }
  }

  lemma IngestFits(a: Analyser, s: IssueRuns.State, sent: seq<Issues.Prepared>)
    requires StoredFit(a, s.events) && SentFit(a, sent)
    ensures StoredFit(a, IssueRuns.IngestStep(s, sent).events)
  {
    var es := IssueRuns.Analysed(sent, s.now - s.retention, s.now);
    AnalysedFit(a, sent, s.now - s.retention, s.now);
    KeptFit(a, es, IssueRuns.Existing(s.events, es));
    RowsStoredFit(a, s.events, IssueRuns.New(s, sent));
  }

  lemma {:induction false} ComputedRunStep(a: Analyser, s: IssueRuns.State, step: IssueRuns.Step)
    requires StoredFit(a, s.events) && RunStepComputed(a, s, step) && 3 * s.retention >= WEEK
    ensures IssueRuns.Sound(s, step) && StoredFit(a, IssueRuns.Next(s, step).events)
    ensures IssueRuns.Next(s, step).retention == s.retention
  {
    match step
    case Ingest(sent) =>
      ComputedSentFit(a, sent);
      IngestFits(a, s, sent);
    case Symbolicate(k, _, _, moved) => if k in s.events { ComputedIsGroupable(a, s.events[k].payload, moved); }
    case ExpireIssues => IssueRuns.LongRetention(s.swept, s.retention);
    case _ =>
  }

  lemma {:induction false} ComputedIsSound(a: Analyser, s: IssueRuns.State, steps: seq<IssueRuns.Step>)
    requires StoredFit(a, s.events) && RunComputed(a, s, steps) && 3 * s.retention >= WEEK
    ensures IssueRuns.AllSound(s, steps)
    decreases |steps|
  {
    if steps != [] {
      ComputedRunStep(a, s, steps[0]);
      ComputedIsSound(a, IssueRuns.Next(s, steps[0]), steps[1..]);
    }
  }

  // IssueRuns.CountsAreConserved for every run without imported rows and three or
  // more RETENTION_DAYS: neither excluded step can happen.
  lemma {:induction false} AnalysedCountsAreConserved(
    a: Analyser, now: int, retention: int, steps: seq<IssueRuns.Step>, fp: Fingerprint)
    requires 3 * retention >= WEEK && RunComputed(a, IssueRuns.Init(now, retention), steps)
    ensures var s := IssueRuns.Run(IssueRuns.Init(now, retention), steps);
      if fp in s.issues then
        && s.issues[fp].storedCount == |IssueRuns.RowsOf(s.events, fp)| + IssueRuns.Gone(s.gone, fp)
        && s.issues[fp].eventCount >= s.issues[fp].storedCount
        && IssueRuns.Ranged(s.issues[fp], IssueRuns.RowsOf(s.events, fp))
      else IssueRuns.RowsOf(s.events, fp) == {}
  {
    ComputedIsSound(a, IssueRuns.Init(now, retention), steps);
    IssueRuns.CountsAreConserved(now, retention, steps, fp);
  }

  /* ---- an issue that expires ---- */

  // The statistics' raw rows of the project are its event rows.
  ghost predicate SameRows(rows: IssueRuns.Rows, events: Rollup.Rows, project: int) {
    forall k :: k in events && k.project == project ==>
      IssueRuns.RowKey(k.id, k.at) in rows && rows[IssueRuns.RowKey(k.id, k.at)].fingerprint == events[k].fingerprint
  }

  // The conserved range is what the statistics' expiry step asks for.
  lemma {:induction false} RangedIsSeen(s: IssueRuns.State, r: Rollup.State, project: int, fp: Fingerprint)
    requires IssueRuns.Inv(s) && fp in s.issues && SameRows(s.events, r.events, project)
    ensures Rollup.SeenBy(r, project, fp, s.issues[fp].lastSeen)
  {
    assert IssueRuns.IssueOk(Issues.At(s.issues, fp), IssueRuns.RowsOf(s.events, fp), IssueRuns.Gone(s.gone, fp));
    forall k | k in r.events && k.project == project && r.events[k].fingerprint == Some(fp)
      ensures k.at <= s.issues[fp].lastSeen
    {
      assert IssueRuns.RowKey(k.id, k.at) in IssueRuns.RowsOf(s.events, fp);
    }
  }

  predicate Settled(i: Issues.Issue) {
    i.status == Issues.Resolved || i.status == Issues.Ignored
  }

  // So an issue ExpireIssues deletes takes its rolled rows with it, by one of the
  // two cutoffs.
  lemma {:induction false} ExpiredIsForgotten(
    s: IssueRuns.State, r: Rollup.State, project: int, fp: Fingerprint) returns (settled: bool)
    requires IssueRuns.Inv(s) && fp in s.issues && SameRows(s.events, r.events, project)
    requires r.retention == s.retention && s.swept <= r.now && IssueRuns.Expires(s.issues[fp], s.swept, s.retention)
    ensures settled ==> Settled(s.issues[fp])
    ensures var r' := Rollup.ForgetStep(r, project, fp, s.issues[fp].lastSeen, settled, s.swept);
      forall h :: h in r'.rolled && h.project == project ==> fp !in r'.rolled[h].issues
  {
    RangedIsSeen(s, r, project, fp);
    settled := s.issues[fp].lastSeen >= IssueCutoff(false, s.swept, s.retention);
  }
}
