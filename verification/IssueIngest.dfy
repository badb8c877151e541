/** The transaction of Ingest, loop by loop, over the issue and event tables. */
module IssueIngest {
  import opened Basics
  import opened Calendar
  import opened Options
  import opened Sorting
  import opened Tables
  import opened Issues
  import opened IssueRuns

  datatype Result = Result(
    received: nat, stored: nat, duplicates: nat, sampled: nat,
    newIssues: set<Fingerprint>, regressions: set<Fingerprint>)

  // Step 1: each event once, times before the retention window replaced.
  method Analyse(sent: seq<Prepared>, past: int, now: int) returns (preps: seq<Prepared>, duplicates: nat)
    ensures preps == Analysed(sent, past, now) && |preps| + duplicates == |sent|
  {
    preps, duplicates := [], 0;
    var seen: set<nat> := {};
    for i := 0 to |sent|
      invariant preps == Analysed(sent[..i], past, now) && seen == Ids(preps)
      invariant |preps| + duplicates == i
    {
      var e := sent[i];
      assert sent[..i + 1][..i] == sent[..i];
      if e.id in seen {
        duplicates := duplicates + 1;
        continue;
      }
      seen := seen + {e.id};
      if e.at < past {
        e := e.(at := now, clamped := true);
      }
      IdsAppend(preps, e);
      preps := preps + [e];
    }
    assert sent[..|sent|] == sent;
  }

  // The envelope's own time window.
  method Window(preps: seq<Prepared>) returns (from: int, to: int)
    requires preps != []
    ensures forall at :: from <= at < to + MICROSECOND <==> InWindow(at, preps)
  {
    from, to := preps[0].at, preps[0].at;
    ghost var first, last := preps[0], preps[0];
    for i := 0 to |preps|
      invariant forall k :: 0 <= k < i ==> from <= preps[k].at <= to
      invariant first in preps && first.at == from && last in preps && last.at == to
    {
      if preps[i].at < from {
        from := preps[i].at;
        first := preps[i];
      }
      if preps[i].at > to {
        to := preps[i].at;
        last := preps[i];
      }
    }
    forall at
      ensures from <= at < to + MICROSECOND <==> InWindow(at, preps)
    {
      if from <= at < to + MICROSECOND {
        assert first.at <= at && at < last.at + MICROSECOND;
      }
    }
  }

  // kept := preps[:0], without the events already stored.
  method DropStored(preps: seq<Prepared>, stored: set<nat>) returns (kept: seq<Prepared>, duplicates: nat)
    ensures kept == Without(preps, stored) && |kept| + duplicates == |preps|
  {
    kept, duplicates := [], 0;
    for i := 0 to |preps|
      invariant kept == Without(preps[..i], stored) && |kept| + duplicates == i
    {
      assert preps[..i + 1][..i] == preps[..i];
      if preps[i].id in stored {
        duplicates := duplicates + 1;
      } else {
        kept := kept + [preps[i]];
      }
    }
    assert preps[..|preps|] == preps;
  }

  // Fold by fingerprint.
  method GroupByFingerprint(preps: seq<Prepared>) returns (groups: map<Fingerprint, seq<Prepared>>)
    ensures forall fp :: fp in groups <==> Group(preps, fp) != []
    ensures forall fp :: fp in groups ==> groups[fp] == Group(preps, fp)
  {
    groups := map[];
    for i := 0 to |preps|
      invariant forall fp :: fp in groups <==> Group(preps[..i], fp) != []
      invariant forall fp :: fp in groups ==> groups[fp] == Group(preps[..i], fp)
    {
      assert preps[..i + 1][..i] == preps[..i];
      if preps[i].fingerprint.None? {
        continue;
      }
      var fp := preps[i].fingerprint.value;
      groups := groups[fp := (if fp in groups then groups[fp] else []) + [preps[i]]];
    }
    assert preps[..|preps|] == preps;
  }

  method FoldGroup(g: seq<Prepared>) returns (p: Params)
    requires g != []
    ensures p == FoldParams(g)
  {
    var minAt, maxAt := 0, 0;
    var lastRelease: Option<string> := None;
    var level := g[0].level;
    var releases: set<string> := {};
    var stored := 0;
    for i := 0 to |g|
      invariant stored >= 0
      invariant Fold(minAt, maxAt, lastRelease, level, releases, stored) ==
        if i == 0 then Fold(0, 0, None, g[0].level, {}, 0) else FoldOf(g[..i])
    {
      var e := g[i];
      assert g[..i + 1][..i] == g[..i];
      releases := releases + {e.release};
      if minAt == 0 || e.at < minAt {
        minAt := e.at;
      }
      if !(e.at < maxAt) {
        maxAt := e.at;
        lastRelease := NilIfEmpty(e.release);
        level := e.level;
      }
      if e.keep {
        stored := stored + 1;
      }
    }
    assert g[..|g|] == g;
    p := Params(g[0].title, level, |g|, stored, minAt, maxAt, lastRelease, releases, true);
  }

  predicate Distinct(order: seq<Fingerprint>) {
    forall i, j :: 0 <= i < j < |order| ==> order[i] != order[j]
  }

  function CreatedIn(issues: map<Fingerprint, Issue>, order: seq<Fingerprint>): set<Fingerprint> {
    set fp | fp in order && fp !in issues
  }

  function RegressedIn(
      issues: map<Fingerprint, Issue>, preps: seq<Prepared>, order: seq<Fingerprint>): set<Fingerprint>
  {
    set fp | fp in order && FlipsOneByOne(At(issues, fp), Group(preps, fp)) > 0
  }

  class ProjectTables {
    var issues: map<Fingerprint, Issue>
    var events: Rows

    // ExistingEventIDs and ExistingEventIDsAnyTime.
    method AlreadyStored(preps: seq<Prepared>) returns (ids: set<nat>)
      ensures ids == Existing(events, preps)
    {
      ids := {};
      if |preps| > 0 {
        var from, to := Window(preps);
        ids := set k | k in events && k.id in Ids(preps) && from <= k.at < to + MICROSECOND :: k.id;
        var more := set k | k in events && k.id in ClampedIds(preps) :: k.id;
        ids := ids + more;
        assert ids == Existing(events, preps);
      }
    }

    // The loop's body: one upsert, and what its returned row says.
    method UpsertOne(fp: Fingerprint, g: seq<Prepared>) returns (created: bool, regressed: bool)
      requires g != [] && Timed(g)
      modifies this`issues
      ensures issues == old(issues)[fp := Upserted(At(old(issues), fp), FoldParams(g))]
      ensures created <==> fp !in old(issues)
      ensures regressed <==> FlipsOneByOne(At(old(issues), fp), g) > 0
      ensures !(created && regressed)
    {
      var p := FoldGroup(g);
      FoldIsOneByOne(At(issues, fp), g);
      var prev := At(issues, fp);
      issues := issues[fp := Upserted(prev, p)];
      created := prev.None?;
      regressed := !created && Flips(prev.value, p);
    }

    // One upsert per group, in fingerprint order.
    method UpsertInOrder(preps: seq<Prepared>, groups: map<Fingerprint, seq<Prepared>>, order: seq<Fingerprint>)
      returns (created: set<Fingerprint>, regressed: set<Fingerprint>)
      requires Timed(preps) && Distinct(order)
      requires forall fp :: fp in order ==> fp in groups && groups[fp] == Group(preps, fp) != []
      modifies this`issues
      ensures issues == GroupsUpserted(old(issues), preps, order)
      ensures created == CreatedIn(old(issues), order) && regressed == RegressedIn(old(issues), preps, order)
    {
      created, regressed := {}, {};
      ghost var before := issues;
      for i := 0 to |order|
        invariant issues == GroupsUpserted(before, preps, order[..i])
        invariant created == CreatedIn(before, order[..i]) && regressed == RegressedIn(before, preps, order[..i])
      {
        NotYet(before, preps, order, i);
        OneMore(before, preps, order, i);
        GroupIsIn(preps, order[i]);
        var isNew, isRegressed := UpsertOne(order[i], groups[order[i]]);
        if isNew {
          created := created + {order[i]};
        } else if isRegressed {
          regressed := regressed + {order[i]};
        }
      }
      assert order[..|order|] == order;
    }

    method UpsertGroups(preps: seq<Prepared>) returns (created: set<Fingerprint>, regressed: set<Fingerprint>)
      requires Timed(preps)
      modifies this`issues
      ensures SameCore(issues, EachUpserted(old(issues), preps))
      ensures created == Grouped(preps) - old(issues).Keys
      ensures forall fp :: fp in regressed <==>
        fp in Grouped(preps) && FlipsOneByOne(At(old(issues), fp), Group(preps, fp)) > 0
    {
      var groups := GroupByFingerprint(preps);
      GroupsAre(preps, groups);
      var order := Sorted(groups.Keys, NatBelow);
      AscendingDistinct(order, NatBelow);
      EnvelopeIsOneByOne(issues, preps, order);
      created, regressed := UpsertInOrder(preps, groups, order);
    }

    // InsertEvents.
    method InsertEvents(preps: seq<Prepared>) returns (stored: nat)
      requires DistinctIds(preps) && forall e :: e in preps ==> KeyOf(e) !in events
      modifies this`events
      ensures events == Stored(old(events), preps)
      ensures stored == |events| - |old(events)|
    {
      stored := 0;
      ghost var before := events;
      for i := 0 to |preps|
        invariant events == Stored(before, preps[..i]) && stored == |events| - |before|
      {
        assert preps[..i + 1][..i] == preps[..i];
        StoredKeys(before, preps[..i]);
        if preps[i].keep {
          assert KeyOf(preps[i]) !in events;
          events := events[KeyOf(preps[i]) := RowOf(preps[i])];
          stored := stored + 1;
        }
      }
      assert preps[..|preps|] == preps;
    }

    // What the transaction does to the tables: as if each new event had been
    // upserted and inserted on its own, in order.
    method Ingest(sent: seq<Prepared>, now: int, retention: int) returns (res: Result)
      requires 0 <= retention < now
      modifies this
      ensures var es := Kept(old(events), Analysed(sent, now - retention, now));
        && SameCore(issues, EachUpserted(old(issues), es))
        && events == Stored(old(events), es)
        && res.newIssues == Grouped(es) - old(issues).Keys
        && (forall fp :: fp in res.regressions <==>
            fp in Grouped(es) && FlipsOneByOne(At(old(issues), fp), Group(es, fp)) > 0)
        && res.stored + res.sampled == |es|
      ensures res.received == |sent| == res.duplicates + res.sampled + res.stored
      ensures res.stored == |events| - |old(events)|
      ensures forall gone :: IssuesOk(old(issues), old(events), gone) ==> IssuesOk(issues, events, gone)
    {
      var preps, twice := Analyse(sent, now - retention, now);
      AnalysedIs(sent, now - retention, now);
      var existing := AlreadyStored(preps);
      KeptAreNew(events, preps);
      var kept, resent := DropStored(preps, existing);
      var created, regressed := UpsertGroups(kept);
      var stored := InsertEvents(kept);
      StoredSize(old(events), kept);
      forall gone | IssuesOk(old(issues), old(events), gone)
        ensures IssuesOk(issues, events, gone)
      {
        EachKeeps(old(issues), old(events), gone, kept);
        CoreKeeps(issues, EachUpserted(old(issues), kept), events, gone);
      }
      res := Result(|sent|, stored, twice + resent, |kept| - stored, created, regressed);
    }
  }

  lemma NotYet(before: map<Fingerprint, Issue>, preps: seq<Prepared>, order: seq<Fingerprint>, i: nat)
    requires i < |order| && Distinct(order) && forall f :: f in order ==> Group(preps, f) != []
    ensures At(GroupsUpserted(before, preps, order[..i]), order[i]) == At(before, order[i])
  {
    GroupsUpsertedAt(before, preps, order[..i], order[i]);
  }

  lemma OneMore(before: map<Fingerprint, Issue>, preps: seq<Prepared>, order: seq<Fingerprint>, i: nat)
    requires i < |order| && forall f :: f in order ==> Group(preps, f) != []
    ensures var fp := order[i];
      && GroupsUpserted(before, preps, order[..i + 1]) ==
           GroupsUpserted(before, preps, order[..i])[fp :=
             Upserted(At(GroupsUpserted(before, preps, order[..i]), fp), FoldParams(Group(preps, fp)))]
      && CreatedIn(before, order[..i + 1]) == CreatedIn(before, order[..i]) + (if fp in before then {} else {fp})
      && RegressedIn(before, preps, order[..i + 1]) ==
           RegressedIn(before, preps, order[..i]) +
             (if FlipsOneByOne(At(before, fp), Group(preps, fp)) > 0 then {fp} else {})
  {
    assert order[..i + 1] == order[..i] + [order[i]] && order[..i + 1][..i] == order[..i];
  }

  lemma GroupsAre(preps: seq<Prepared>, groups: map<Fingerprint, seq<Prepared>>)
    requires forall fp :: fp in groups <==> Group(preps, fp) != []
    ensures groups.Keys == Grouped(preps)
  {
    forall fp: Fingerprint
      ensures fp in groups <==> fp in Grouped(preps)
    {
      GroupIsIn(preps, fp);
    }
  }

  lemma {:induction false} StoredSize(events: Rows, es: seq<Prepared>)
    ensures |events| <= |Stored(events, es)| <= |events| + |es|
    decreases |es|
  {
    if es != [] {
      StoredSize(events, es[..|es| - 1]);
    }
  }
}
