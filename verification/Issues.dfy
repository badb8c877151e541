/**
 * Issue bookkeeping: the upsert, and the fold that lets ingest upsert once per
 * issue and envelope instead of once per event.
 */
module Issues {
  import opened Basics
  import opened Options
  import opened Tables
  import opened SentryEvents

  datatype Status = Unresolved | Resolved | Ignored | Regression

  // title stands for the columns only the creating upsert sets.
  datatype Issue = Issue(
    title: string, level: Level, status: Status, eventCount: int, storedCount: int, firstSeen: int, lastSeen: int,
    firstRelease: Option<string>, lastRelease: Option<string>, releases: set<string>, resolvedReleases: set<string>)

  datatype Params = Params(
    title: string, level: Level, eventCount: int, storedCount: int, firstSeen: int, lastSeen: int,
    firstRelease: Option<string>, releases: set<string>, regress: bool)

  // One analysed event: event is what its payload says, keep the outcome of its
  // sampling coin flip, symbolicated whether its frames were resolved on the way in.
  datatype Prepared = Prepared(
    id: nat, at: int, clamped: bool, title: string, level: Level, release: string,
    fingerprint: Option<Fingerprint>, keep: bool, symbolicated: bool, event: Event)

  const BLANK := {' ', '\t', '\n', '\r'}

  function NilIfEmpty(s: string): Option<string> {
    if forall i :: 0 <= i < |s| ==> s[i] in BLANK then None else Some(s)
  }

  /* ---- UpsertIssue ---- */

  // This upsert turns a resolved issue into a regression.
  predicate Flips(i: Issue, p: Params) {
    p.regress && i.status == Resolved && !(p.releases <= i.resolvedReleases)
  }

  function Created(p: Params): Issue {
    Issue(p.title, p.level, Unresolved, p.eventCount, p.storedCount, p.firstSeen, p.lastSeen,
          p.firstRelease, p.firstRelease, p.releases, {})
  }

  function Merged(i: Issue, p: Params): Issue {
    var latest := p.lastSeen >= i.lastSeen;
    i.(eventCount := i.eventCount + p.eventCount,
       storedCount := i.storedCount + p.storedCount,
       lastSeen := Max(i.lastSeen, p.lastSeen),
       firstSeen := Min(i.firstSeen, p.firstSeen),
       lastRelease := if latest && p.firstRelease.Some? then p.firstRelease else i.lastRelease,
       level := if latest then p.level else i.level,
       releases := i.releases + p.releases,
       status := if Flips(i, p) then Regression else i.status)
  }

  function Upserted(i: Option<Issue>, p: Params): Issue {
    if i.None? then Created(p) else Merged(i.value, p)
  }

  function Flip(i: Option<Issue>, p: Params): nat {
    if i.Some? && Flips(i.value, p) then 1 else 0
  }

  // An upsert flips an issue exactly when it was resolved and is a regression after.
  lemma FlipIff(i: Option<Issue>, p: Params)
    ensures Flip(i, p) ==
      if i.Some? && i.value.status == Resolved && Upserted(i, p).status == Regression then 1 else 0
  {
  }

  /* ---- one event at a time ---- */

  function ParamsOf(e: Prepared): Params {
    Params(e.title, e.level, 1, if e.keep then 1 else 0, e.at, e.at, NilIfEmpty(e.release), {e.release}, true)
  }

  function OneByOne(i: Option<Issue>, g: seq<Prepared>): Option<Issue>
    decreases |g|
  {
    if g == [] then i else Some(Upserted(OneByOne(i, g[..|g| - 1]), ParamsOf(g[|g| - 1])))
  }

  function FlipsOneByOne(i: Option<Issue>, g: seq<Prepared>): nat
    decreases |g|
  {
    if g == [] then 0
    else FlipsOneByOne(i, g[..|g| - 1]) + Flip(OneByOne(i, g[..|g| - 1]), ParamsOf(g[|g| - 1]))
  }

  /* ---- the fold of a group ---- */

  datatype Fold = Fold(
    minAt: int, maxAt: int, lastRelease: Option<string>, level: Level, releases: set<string>, stored: nat)

  // Go's zero time is 0 here; minAt.IsZero() marks "none yet".
  function Folded(f: Fold, e: Prepared): Fold {
    var latest := e.at >= f.maxAt;
    Fold(
      if f.minAt == 0 || e.at < f.minAt then e.at else f.minAt,
      if latest then e.at else f.maxAt,
      if latest then NilIfEmpty(e.release) else f.lastRelease,
      if latest then e.level else f.level,
      f.releases + {e.release},
      if e.keep then f.stored + 1 else f.stored)
  }

  function FoldOf(g: seq<Prepared>): Fold
    requires g != []
    decreases |g|
  {
    if |g| == 1 then Folded(Fold(0, 0, None, g[0].level, {}, 0), g[0])
    else Folded(FoldOf(g[..|g| - 1]), g[|g| - 1])
  }

  function FoldParams(g: seq<Prepared>): Params
    requires g != []
  {
    var f := FoldOf(g);
    Params(g[0].title, f.level, |g|, f.stored, f.minAt, f.maxAt, f.lastRelease, f.releases, true)
  }

  // Event times are after the Go zero time: clampPast replaces any before the
  // retention window.
  predicate Timed(g: seq<Prepared>) {
    forall i :: 0 <= i < |g| ==> g[i].at > 0
  }

  lemma {:induction false} FoldTimes(g: seq<Prepared>)
    requires g != [] && Timed(g)
    ensures 0 < FoldOf(g).minAt <= FoldOf(g).maxAt
    ensures forall i :: 0 <= i < |g| ==> FoldOf(g).minAt <= g[i].at <= FoldOf(g).maxAt
    ensures forall i :: 0 <= i < |g| ==> g[i].release in FoldOf(g).releases
    decreases |g|
  {
    if |g| > 1 {
      FoldTimes(g[..|g| - 1]);
    }
  }

  // All that the fold preserves: everything but first_release and last_release.
  function Core(i: Issue): Issue {
    i.(firstRelease := None, lastRelease := None)
  }

  function CoreOf(i: Option<Issue>): Option<Issue> {
    if i.None? then None else Some(Core(i.value))
  }

  // One more event: upserting the grown fold is upserting the event after it.
  lemma GrowFold(i: Option<Issue>, g: seq<Prepared>, e: Prepared)
    requires g != [] && Timed(g) && e.at > 0
    ensures CoreOf(Some(Upserted(i, FoldParams(g + [e])))) ==
      CoreOf(Some(Upserted(Some(Upserted(i, FoldParams(g))), ParamsOf(e))))
    ensures Flip(i, FoldParams(g + [e])) == Flip(i, FoldParams(g)) + Flip(Some(Upserted(i, FoldParams(g))), ParamsOf(e))
  {
    assert (g + [e])[..|g|] == g;
    FoldTimes(g);
    var f := FoldOf(g);
    assert FoldOf(g + [e]) == Folded(f, e);
    if i.Some? {
      assert i.value.releases + (f.releases + {e.release}) == i.value.releases + f.releases + {e.release};
    }
  }

  lemma CoreCongruent(a: Option<Issue>, b: Option<Issue>, p: Params)
    requires CoreOf(a) == CoreOf(b)
    ensures CoreOf(Some(Upserted(a, p))) == CoreOf(Some(Upserted(b, p))) && Flip(a, p) == Flip(b, p)
  {
  }

  // Folding a group and upserting once is upserting its events one at a time in
  // order, whatever the issue was before: counts, times, level, releases,
  // status, and the number of times it flips to a regression.
  lemma {:induction false} FoldIsOneByOne(i: Option<Issue>, g: seq<Prepared>)
    requires g != [] && Timed(g)
    ensures CoreOf(Some(Upserted(i, FoldParams(g)))) == CoreOf(OneByOne(i, g))
    ensures Flip(i, FoldParams(g)) == FlipsOneByOne(i, g)
    decreases |g|
  {
    var front, e := g[..|g| - 1], g[|g| - 1];
    assert g == front + [e];
    if front == [] {
      assert g == [e] && FoldOf(g).releases == {e.release};
      assert FoldParams(g) == ParamsOf(e).(firstRelease := FoldParams(g).firstRelease);
      assert OneByOne(i, front) == i;
    } else {
      FoldIsOneByOne(i, front);
      GrowFold(i, front, e);
      CoreCongruent(Some(Upserted(i, FoldParams(front))), OneByOne(i, front), ParamsOf(e));
    }
  }

  // The latest of a group: no later time, and the last at its time.
  predicate IsLatest(g: seq<Prepared>, i: nat) {
    i < |g| && forall j :: 0 <= j < |g| ==> g[j].at < g[i].at || (g[j].at == g[i].at && j <= i)
  }

  function Keeps(g: seq<Prepared>): nat
    decreases |g|
  {
    if g == [] then 0 else Keeps(g[..|g| - 1]) + if g[|g| - 1].keep then 1 else 0
  }

  lemma {:induction false} FirstSeenIs(g: seq<Prepared>)
    requires g != []
    ensures var i := OneByOne(None, g).value;
      (forall k :: 0 <= k < |g| ==> i.firstSeen <= g[k].at) && (exists k :: 0 <= k < |g| && g[k].at == i.firstSeen)
    decreases |g|
  {
    var n := |g| - 1;
    assert g[n].at == g[n].at;
    if n > 0 {
      FirstSeenIs(g[..n]);
      assert forall k :: 0 <= k < n ==> g[k] == g[..n][k];
    }
  }

  lemma {:induction false} ReleasesAre(g: seq<Prepared>)
    requires g != []
    ensures OneByOne(None, g).value.releases == set e | e in g :: e.release
    decreases |g|
  {
    var front, e := g[..|g| - 1], g[|g| - 1];
    assert g == front + [e];
    if front != [] {
      ReleasesAre(front);
    }
  }

  // What an issue created by a group of events is, without reference to the
  // order of any upserts.
  lemma {:induction false} NewIssueIs(g: seq<Prepared>) returns (latest: nat)
    requires g != []
    ensures IsLatest(g, latest)
    ensures var i := OneByOne(None, g).value;
      && i.title == g[0].title && i.level == g[latest].level && i.status == Unresolved && i.resolvedReleases == {}
      && i.eventCount == |g| && i.storedCount == Keeps(g) && i.lastSeen == g[latest].at
      && (forall k :: 0 <= k < |g| ==> i.firstSeen <= g[k].at) && (exists k :: 0 <= k < |g| && g[k].at == i.firstSeen)
      && i.releases == set e | e in g :: e.release
    decreases |g|
  {
    var front, e := g[..|g| - 1], g[|g| - 1];
    if front == [] {
      latest := 0;
    } else {
      var last := NewIssueIs(front);
      latest := if e.at >= front[last].at then |g| - 1 else last;
      assert forall k :: 0 <= k < |front| ==> g[k] == front[k];
    }
    FirstSeenIs(g);
    ReleasesAre(g);
  }

  // A resolved issue becomes a regression exactly when some event carries a
  // release outside the set it had been seen on when it was resolved; any other
  // status stays.
  lemma {:induction false} RegressionIff(i: Issue, g: seq<Prepared>)
    ensures var now := OneByOne(Some(i), g).value;
      && now.resolvedReleases == i.resolvedReleases
      && now.status ==
           if i.status == Resolved && exists k :: 0 <= k < |g| && g[k].release !in i.resolvedReleases
           then Regression else i.status
    decreases |g|
  {
    if g != [] {
      var front, e := g[..|g| - 1], g[|g| - 1];
      RegressionIff(i, front);
      assert forall k :: 0 <= k < |front| ==> g[k] == front[k];
      assert e.release !in i.resolvedReleases ==> g[|g| - 1].release !in i.resolvedReleases;
    }
  }

  /* ---- what the fold does not preserve: the release columns ---- */

  function SeenBefore(i: Option<Issue>): int {
    if i.None? then 0 else i.value.lastSeen
  }

  function ReleaseBefore(i: Option<Issue>): Option<string> {
    if i.None? then None else i.value.lastRelease
  }

  predicate Names(e: Prepared) {
    NilIfEmpty(e.release).Some?
  }

  // Event k is the issue's latest when its turn comes.
  predicate RunningLatest(seen: int, g: seq<Prepared>, k: nat) {
    k < |g| && g[k].at >= seen && forall j :: 0 <= j < k ==> g[j].at <= g[k].at
  }

  predicate IsLastNaming(seen: int, g: seq<Prepared>, k: nat) {
    && RunningLatest(seen, g, k) && Names(g[k])
    && forall j :: k < j < |g| && RunningLatest(seen, g, j) ==> !Names(g[j])
  }

  lemma {:induction false} SeenOneByOne(i: Option<Issue>, g: seq<Prepared>)
    requires g != [] && Timed(g)
    ensures var now := OneByOne(i, g).value;
      && now.lastSeen >= SeenBefore(i) && (forall j :: 0 <= j < |g| ==> g[j].at <= now.lastSeen)
      && (now.lastSeen == SeenBefore(i) || exists j :: 0 <= j < |g| && g[j].at == now.lastSeen)
    decreases |g|
  {
    var n := |g| - 1;
    if n == 0 {
      assert OneByOne(i, g[..0]) == i;
    } else {
      SeenOneByOne(i, g[..n]);
      assert forall j :: 0 <= j < n ==> g[j] == g[..n][j];
      assert OneByOne(i, g).value.lastSeen == Max(OneByOne(i, g[..n]).value.lastSeen, g[n].at);
    }
  }

  lemma RunningIs(i: Option<Issue>, g: seq<Prepared>, e: Prepared)
    requires g != [] && Timed(g)
    ensures RunningLatest(SeenBefore(i), g + [e], |g|) <==> e.at >= OneByOne(i, g).value.lastSeen
  {
    SeenOneByOne(i, g);
    assert forall j :: 0 <= j < |g| ==> (g + [e])[j] == g[j];
  }

  // The release the issue shows, and the event k it came from, if any.
  ghost predicate Shown(seen: int, before: Option<string>, g: seq<Prepared>, k: Option<nat>, release: Option<string>) {
    if k.Some? then IsLastNaming(seen, g, k.value) && release == NilIfEmpty(g[k.value].release)
    else release == before && forall j: nat :: RunningLatest(seen, g, j) ==> !Names(g[j])
  }

  lemma ShownNext(
      seen: int, before: Option<string>, g: seq<Prepared>, k: Option<nat>, release: Option<string>, e: Prepared)
    requires Shown(seen, before, g, k, release)
    ensures if RunningLatest(seen, g + [e], |g|) && Names(e)
            then Shown(seen, before, g + [e], Some(|g|), NilIfEmpty(e.release))
            else Shown(seen, before, g + [e], k, release)
  {
    forall j: nat | j < |g|
      ensures RunningLatest(seen, g + [e], j) <==> RunningLatest(seen, g, j)
    {
      assert forall m :: 0 <= m <= j ==> (g + [e])[m] == g[m];
    }
  }

  lemma ShownFirst(i: Option<Issue>, e: Prepared) returns (k: Option<nat>)
    requires e.at > 0
    ensures Shown(SeenBefore(i), ReleaseBefore(i), [e], k, OneByOne(i, [e]).value.lastRelease)
  {
    assert OneByOne(i, [e]) == Some(Upserted(i, ParamsOf(e)));
    k := if RunningLatest(SeenBefore(i), [e], 0) && Names(e) then Some(0) else None;
  }

  // Upserting one at a time shows the release of the last running-latest event
  // that names one.
  lemma {:induction false} ShownOneByOne(i: Option<Issue>, g: seq<Prepared>) returns (k: Option<nat>)
    requires g != [] && Timed(g)
    ensures Shown(SeenBefore(i), ReleaseBefore(i), g, k, OneByOne(i, g).value.lastRelease)
    decreases |g|
  {
    var front, e := g[..|g| - 1], g[|g| - 1];
    assert g == front + [e];
    if front == [] {
      k := ShownFirst(i, e);
    } else {
      k := ShownOneByOne(i, front);
      ShownNext(SeenBefore(i), ReleaseBefore(i), front, k, OneByOne(i, front).value.lastRelease, e);
      RunningIs(i, front, e);
      if RunningLatest(SeenBefore(i), g, |front|) && Names(e) {
        k := Some(|front|);
      }
    }
  }

  // The fold shows the release of its latest event, named or not.
  lemma {:induction false} FoldLatest(g: seq<Prepared>) returns (latest: nat)
    requires g != [] && Timed(g)
    ensures IsLatest(g, latest) && FoldOf(g).maxAt == g[latest].at
    ensures FoldOf(g).lastRelease == NilIfEmpty(g[latest].release)
    decreases |g|
  {
    var front, e := g[..|g| - 1], g[|g| - 1];
    if front == [] {
      latest := 0;
    } else {
      var last := FoldLatest(front);
      latest := if e.at >= front[last].at then |g| - 1 else last;
    }
  }

  // The fold shows the same last_release as upserting one at a time exactly when
  // its latest event is the issue's latest and names a release, or no earlier
  // running-latest event named one other than the issue already showed.
  lemma {:induction false} LastReleaseIff(i: Option<Issue>, g: seq<Prepared>) returns (latest: nat)
    requires g != [] && Timed(g)
    ensures IsLatest(g, latest)
    ensures Upserted(i, FoldParams(g)).lastRelease == OneByOne(i, g).value.lastRelease <==>
      || (g[latest].at >= SeenBefore(i) && Names(g[latest]))
      || (forall k: nat :: IsLastNaming(SeenBefore(i), g, k) ==> NilIfEmpty(g[k].release) == ReleaseBefore(i))
  {
    latest := FoldLatest(g);
    var k := ShownOneByOne(i, g);
    LatestShows(SeenBefore(i), g, latest);
    if k.Some? {
      forall j: nat | IsLastNaming(SeenBefore(i), g, j)
        ensures j == k.value
      {
        OneLastNaming(SeenBefore(i), g, j, k.value);
      }
    }
  }

  lemma OneLastNaming(seen: int, g: seq<Prepared>, j: nat, k: nat)
    requires IsLastNaming(seen, g, j) && IsLastNaming(seen, g, k)
    ensures j == k
  {
  }

  lemma LatestShows(seen: int, g: seq<Prepared>, latest: nat)
    requires IsLatest(g, latest)
    ensures g[latest].at >= seen && Names(g[latest]) ==> IsLastNaming(seen, g, latest)
    ensures g[latest].at < seen ==> forall k: nat :: !RunningLatest(seen, g, k)
  {
  }

  // An existing issue's first_release never changes; a created one shows the
  // latest event's in place of the first's.
  lemma {:induction false} FirstReleaseIff(i: Option<Issue>, g: seq<Prepared>) returns (latest: nat)
    requires g != [] && Timed(g)
    ensures IsLatest(g, latest)
    ensures Upserted(i, FoldParams(g)).firstRelease == OneByOne(i, g).value.firstRelease <==>
      i.Some? || NilIfEmpty(g[latest].release) == NilIfEmpty(g[0].release)
  {
    latest := FoldLatest(g);
    FirstStays(i, g);
  }

  lemma {:induction false} FirstStays(i: Option<Issue>, g: seq<Prepared>)
    requires g != []
    ensures OneByOne(i, g).value.firstRelease == if i.Some? then i.value.firstRelease else NilIfEmpty(g[0].release)
    decreases |g|
  {
    if |g| > 1 {
      FirstStays(i, g[..|g| - 1]);
    } else {
      assert OneByOne(i, g[..0]) == i;
    }
  }

  // Such an envelope: an event with a release, then a later one without.
  lemma ReleasesDiffer(i: Issue, a: Prepared, b: Prepared)
    requires 0 < i.lastSeen <= a.at < b.at && a.release == "1.0" && b.release == "" && i.lastRelease.None?
    ensures Upserted(Some(i), FoldParams([a, b])).lastRelease != OneByOne(Some(i), [a, b]).value.lastRelease
    ensures Upserted(None, FoldParams([a, b])).firstRelease != OneByOne(None, [a, b]).value.firstRelease
  {
    assert "1.0"[0] !in BLANK;
    var last := LastReleaseIff(Some(i), [a, b]);
    var latest := FirstReleaseIff(None, [a, b]);
    assert last == latest == 1;
    assert IsLastNaming(i.lastSeen, [a, b], 0);
  }

  /* ---- many issues ---- */

  function At(issues: map<Fingerprint, Issue>, fp: Fingerprint): Option<Issue> {
    if fp in issues then Some(issues[fp]) else None
  }

  function Group(es: seq<Prepared>, fp: Fingerprint): seq<Prepared>
    decreases |es|
  {
    if es == [] then []
    else
      var front := Group(es[..|es| - 1], fp);
      if es[|es| - 1].fingerprint == Some(fp) then front + [es[|es| - 1]] else front
  }

  function Grouped(es: seq<Prepared>): set<Fingerprint> {
    set e | e in es && e.fingerprint.Some? :: e.fingerprint.value
  }

  // Every event on its own, in the order of the envelope.
  function EachUpserted(issues: map<Fingerprint, Issue>, es: seq<Prepared>): map<Fingerprint, Issue>
    decreases |es|
  {
    if es == [] then issues
    else
      var before := EachUpserted(issues, es[..|es| - 1]);
      var e := es[|es| - 1];
      if e.fingerprint.None? then before
      else before[e.fingerprint.value := Upserted(At(before, e.fingerprint.value), ParamsOf(e))]
  }

  lemma {:induction false} GroupIsIn(es: seq<Prepared>, fp: Fingerprint)
    ensures Group(es, fp) != [] <==> fp in Grouped(es)
    ensures Timed(es) ==> Timed(Group(es, fp))
    decreases |es|
  {
    if es != [] {
      var front, e := es[..|es| - 1], es[|es| - 1];
      GroupIsIn(front, fp);
      assert es == front + [e];
      assert Grouped(es) == Grouped(front) + if e.fingerprint.Some? then {e.fingerprint.value} else {};
    }
  }

  // One issue only sees its own group.
  lemma {:induction false} EachIsByGroup(issues: map<Fingerprint, Issue>, es: seq<Prepared>, fp: Fingerprint)
    ensures At(EachUpserted(issues, es), fp) == OneByOne(At(issues, fp), Group(es, fp))
    decreases |es|
  {
    if es != [] {
      EachIsByGroup(issues, es[..|es| - 1], fp);
      var g := Group(es[..|es| - 1], fp);
      assert (g + [es[|es| - 1]])[..|g|] == g;
    }
  }

  // Ingest's loop over the groups: one upsert per issue.
  function GroupsUpserted(
      issues: map<Fingerprint, Issue>, es: seq<Prepared>, order: seq<Fingerprint>): map<Fingerprint, Issue>
    requires forall fp :: fp in order ==> Group(es, fp) != []
    decreases |order|
  {
    if order == [] then issues
    else
      var n := |order| - 1;
      var before := GroupsUpserted(issues, es, order[..n]);
      before[order[n] := Upserted(At(before, order[n]), FoldParams(Group(es, order[n])))]
  }

  lemma {:induction false} GroupsUpsertedAt(
      issues: map<Fingerprint, Issue>, es: seq<Prepared>, order: seq<Fingerprint>, fp: Fingerprint)
    requires forall f :: f in order ==> Group(es, f) != []
    requires forall i, j :: 0 <= i < j < |order| ==> order[i] != order[j]
    ensures At(GroupsUpserted(issues, es, order), fp) ==
      if fp in order then Some(Upserted(At(issues, fp), FoldParams(Group(es, fp)))) else At(issues, fp)
    decreases |order|
  {
    if order != [] {
      var n := |order| - 1;
      GroupsUpsertedAt(issues, es, order[..n], fp);
      assert order == order[..n] + [order[n]];
      if fp == order[n] {
        assert fp !in order[..n];
      }
    }
  }

  ghost predicate SameCore(a: map<Fingerprint, Issue>, b: map<Fingerprint, Issue>) {
    forall fp: Fingerprint {:trigger At(a, fp)} {:trigger At(b, fp)} :: CoreOf(At(a, fp)) == CoreOf(At(b, fp))
  }

  // The whole envelope: folding by fingerprint and upserting once per issue, in
  // any order, is upserting every event on its own.
  lemma EnvelopeIsOneByOne(issues: map<Fingerprint, Issue>, es: seq<Prepared>, order: seq<Fingerprint>)
    requires Timed(es)
    requires forall fp :: fp in order <==> fp in Grouped(es)
    requires forall i, j :: 0 <= i < j < |order| ==> order[i] != order[j]
    ensures forall fp :: fp in order ==> Group(es, fp) != []
    ensures SameCore(GroupsUpserted(issues, es, order), EachUpserted(issues, es))
  {
    forall fp | fp in order
      ensures Group(es, fp) != []
    {
      GroupIsIn(es, fp);
    }
    forall fp: Fingerprint
      ensures CoreOf(At(GroupsUpserted(issues, es, order), fp)) == CoreOf(At(EachUpserted(issues, es), fp))
    {
      GroupIsIn(es, fp);
      GroupsUpsertedAt(issues, es, order, fp);
      EachIsByGroup(issues, es, fp);
      if fp in order {
        FoldIsOneByOne(At(issues, fp), Group(es, fp));
      }
    }
  }
}
