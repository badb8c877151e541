/** Weekly partitions: created ahead, dropped behind, strays moved, and the SQL rules that must agree. */
module Retention {
  import opened Basics
  import opened Calendar
  import opened Sorting

  const PARTITIONS_AHEAD := 2 * WEEK

  datatype Row = Row(id: nat, at: int)

  // A partition's rows; def is the DEFAULT partition.
  datatype Table = Table(parts: map<int, set<Row>>, def: set<Row>)

  function InWeek(rows: set<Row>, start: int): set<Row> {
    set r | r in rows && start <= r.at < start + WEEK
  }

  /* ---- the arithmetic ---- */

  lemma {:induction false} ExpiredIsBeforeTheWindow(start: int, cutoff: int)
    requires start % WEEK == 0
    ensures WeekExpired(start, cutoff) <==> start < WeekStart(cutoff)
  {
    WeekStartIsMonday(cutoff);
    AlignedExpiry(start, WeekStart(cutoff), cutoff);
  }

  lemma AlignedExpiry(start: int, monday: int, cutoff: int)
    requires start % WEEK == 0 && monday % WEEK == 0 && monday <= cutoff < monday + WEEK
    ensures start + WEEK <= cutoff <==> start < monday
  {
  }

  // The packs of a week and its spool rows expire exactly when its partition is
  // dropped, although their rule compares whole days.
  lemma {:induction false} SqlRuleIsPartitionRule(at: int, cutoff: int)
    ensures SweepRule(WeekStart(at), cutoff) <==> WeekExpired(WeekStart(at), cutoff)
    ensures WeekExpired(WeekStart(at), cutoff) <==> at < WeekStart(cutoff)
  {
    WeekStartIsMonday(at);
    WeekStartIsMonday(cutoff);
    SqlRule(at, WeekStart(at), cutoff, WeekStart(cutoff));
  }

  lemma {:induction false} SqlRule(at: int, week: int, cutoff: int, monday: int)
    requires week % WEEK == 0 && monday % WEEK == 0 && week <= at < week + WEEK && monday <= cutoff < monday + WEEK
    ensures SweepRule(week, cutoff) <==> WeekExpired(week, cutoff)
    ensures WeekExpired(week, cutoff) <==> at < monday
  {
    assert (week + WEEK) % DAY == 0 by {
      MondayIsMidnight(week);
    }
    MidnightRule(week + WEEK, cutoff);
    AlignedExpiry(week, monday, cutoff);
    BeforeMonday(at, week, monday);
  }

  lemma MondayIsMidnight(week: int)
    requires week % WEEK == 0
    ensures (week + WEEK) % DAY == 0
  {
    var days, q, r := 7 * (week / WEEK) + 7, (week + WEEK) / DAY, (week + WEEK) % DAY;
    assert week + WEEK == days * DAY && week + WEEK == q * DAY + r && 0 <= r < DAY;
    assert r == (days - q) * DAY;
  }

  lemma MidnightRule(midnight: int, cutoff: int)
    requires midnight % DAY == 0
    ensures midnight <= Truncate(cutoff, DAY) <==> midnight <= cutoff
  {
  }

  lemma BeforeMonday(at: int, monday: int, other: int)
    requires monday % WEEK == 0 && other % WEEK == 0 && monday <= at < monday + WEEK
    ensures monday < other <==> at < other
  {
  }

  // Every instant from the window's start to two weeks ahead has exactly one
  // Monday-aligned week among those EnsurePartitions covers.
  lemma {:induction false} OneWeekPerInstant(now: int, retention: int, t: int)
    requires now - retention <= t <= now + PARTITIONS_AHEAD
    ensures Ensured(now, retention, WeekStart(t)) && WeekStart(t) <= t < WeekStart(t) + WEEK
    ensures forall start :: Ensured(now, retention, start) && start <= t < start + WEEK ==> start == WeekStart(t)
  {
    WeekStartIsMonday(t);
    WeekStartMonotone(now - retention, t);
    WeekStartMonotone(t, now + PARTITIONS_AHEAD);
    forall start | Ensured(now, retention, start) && start <= t < start + WEEK
      ensures start == WeekStart(t)
    {
      SameWeek(t, start);
    }
  }

  // A week EnsurePartitions creates.
  predicate Ensured(now: int, retention: int, start: int) {
    start % WEEK == 0 && WeekStart(now - retention) <= start <= WeekStart(now + PARTITIONS_AHEAD)
  }

  // A sweep never drops a week it has just ensured.
  lemma EnsuredIsNotExpired(now: int, retention: int, start: int)
    requires Ensured(now, retention, start)
    ensures !WeekExpired(start, now - retention)
  {
    ExpiredIsBeforeTheWindow(start, now - retention);
  }

  /* ---- the table ---- */

  function AllRows(t: Table): set<Row> {
    t.def + set start, r | start in t.parts && r in t.parts[start] :: r
  }

  // Partitions hold their week's rows, and the default none that a partition covers.
  ghost predicate Valid(t: Table) {
    && (forall start :: start in t.parts ==> start % WEEK == 0)
    && (forall start, r :: start in t.parts && r in t.parts[start] ==> start <= r.at < start + WEEK)
    && (forall r :: r in t.def ==> WeekStart(r.at) !in t.parts)
  }

  // Row by row: in its week's partition if there is one, else in the default.
  lemma {:induction false} RowPlace(t: Table, r: Row)
    requires Valid(t)
    ensures r in AllRows(t) <==>
      if WeekStart(r.at) in t.parts then r in t.parts[WeekStart(r.at)] else r in t.def
  {
    forall start | start in t.parts && r in t.parts[start]
      ensures start == WeekStart(r.at)
    {
      SameWeek(r.at, start);
    }
    if WeekStart(r.at) in t.parts && r in t.parts[WeekStart(r.at)] {
      assert r in AllRows(t);
    }
  }

  // ensurePartition's transaction.
  function WithPartition(t: Table, start: int): Table {
    if start in t.parts then t
    else Table(t.parts[start := InWeek(t.def, start)], t.def - InWeek(t.def, start))
  }

  lemma WithPartitionKeeps(t: Table, start: int)
    requires Valid(t) && start % WEEK == 0
    ensures Valid(WithPartition(t, start)) && AllRows(WithPartition(t, start)) == AllRows(t)
  {
    var t' := WithPartition(t, start);
    if start !in t.parts {
      forall r | r in t'.def
        ensures WeekStart(r.at) !in t'.parts
      {
        WeekStartIsMonday(r.at);
      }
      forall r: Row
        ensures r in AllRows(t') <==> r in AllRows(t)
      {
        RowPlace(t, r);
        RowPlace(t', r);
        if start <= r.at < start + WEEK {
          SameWeek(r.at, start);
        } else {
          WeekStartIsMonday(r.at);
        }
      }
    }
  }

  // What the weekly expiry leaves.
  predicate Survives(t: Table, r: Row, cutoff: int) {
    SurvivesIn(t, r.at, WeekStart(r.at), cutoff)
  }

  predicate SurvivesIn(t: Table, at: int, week: int, cutoff: int) {
    if week in t.parts then !WeekExpired(week, cutoff) else at >= cutoff
  }

  // The aligned weeks from one on, up to another.
  predicate WeekIn(s: int, from: int, until: int) {
    s % WEEK == 0 && from <= s < until
  }

  ghost predicate Added(was: map<int, set<Row>>, now: map<int, set<Row>>, from: int, until: int) {
    forall s: int :: s in now <==> (s in was || WeekIn(s, from, until))
  }

  function NotExpired(parts: map<int, set<Row>>, cutoff: int): map<int, set<Row>> {
    map s | s in parts && !WeekExpired(s, cutoff) :: parts[s]
  }

  // Midway: the weeks of `later` have not been looked at.
  function NotExpiredOrLater(parts: map<int, set<Row>>, cutoff: int, later: seq<int>): map<int, set<Row>> {
    map s | s in parts && (s in later || !WeekExpired(s, cutoff)) :: parts[s]
  }

  lemma OneLooked(parts: map<int, set<Row>>, cutoff: int, list: seq<int>, i: nat)
    requires i < |list| && forall k, j :: 0 <= k < j < |list| ==> list[k] < list[j]
    ensures NotExpiredOrLater(parts, cutoff, list[i + 1..]) ==
      if WeekExpired(list[i], cutoff) then NotExpiredOrLater(parts, cutoff, list[i..]) - {list[i]}
      else NotExpiredOrLater(parts, cutoff, list[i..])
  {
    assert list[i..] == [list[i]] + list[i + 1..];
    assert list[i] !in list[i + 1..];
  }

  class PartitionedTable {
    var parts: map<int, set<Row>>
    var def: set<Row>

    function Contents(): Table
      reads this
    {
      Table(parts, def)
    }

    // Partition routing.
    method Insert(r: Row)
      requires Valid(Contents())
      modifies this
      ensures Valid(Contents()) && AllRows(Contents()) == old(AllRows(Contents())) + {r}
      ensures parts.Keys == old(parts.Keys)
    {
      ghost var before := Contents();
      var week := WeekStart(r.at);
      WeekStartIsMonday(r.at);
      if week in parts {
        parts := parts[week := parts[week] + {r}];
      } else {
        def := def + {r};
      }
      forall x: Row
        ensures x in AllRows(Contents()) <==> x in AllRows(before) || x == r
      {
        RowPlace(before, x);
        RowPlace(Contents(), x);
      }
    }

    method EnsurePartition(start: int)
      requires Valid(Contents()) && start % WEEK == 0
      modifies this
      ensures Contents() == WithPartition(old(Contents()), start)
    {
      if start in parts {
        return;
      }
      var stray := InWeek(def, start);
      if |stray| == 0 {
        parts := parts[start := {}];
        assert stray == {};
        return;
      }
      parts := parts[start := stray];
      def := def - stray;
    }

    // Only weeks of the window are added, and strays move into them: no row is
    // lost or made up.
    method EnsurePartitions(now: int, retention: int)
      requires Valid(Contents()) && retention >= 0
      modifies this
      ensures Valid(Contents()) && AllRows(Contents()) == old(AllRows(Contents()))
      ensures forall start :: start in parts <==> start in old(parts) || Ensured(now, retention, start)
    {
      var from := WeekStart(now - retention);
      var to := WeekStart(now + PARTITIONS_AHEAD);
      WeekStartIsMonday(now - retention);
      WeekStartIsMonday(now + PARTITIONS_AHEAD);
      WeekStartMonotone(now - retention, now + PARTITIONS_AHEAD);
      var have := parts.Keys;
      var start := from;
      while start <= to
        invariant start % WEEK == 0 && from <= start <= to + WEEK
        invariant Valid(Contents()) && AllRows(Contents()) == old(AllRows(Contents()))
        invariant Added(old(parts), parts, from, start)
      {
        if start !in have {
          WithPartitionKeeps(Contents(), start);
          EnsurePartition(start);
        }
        NextWeek(from, start);
        start := start + WEEK;
      }
      forall s: int
        ensures WeekIn(s, from, start) <==> Ensured(now, retention, s)
      {
        UpTo(s, to, start);
      }
    }

    // Partitions: the weeks' starts, oldest first.
    method Partitions() returns (list: seq<int>)
      ensures forall start :: start in list <==> start in parts
      ensures forall i, j :: 0 <= i < j < |list| ==> list[i] < list[j]
    {
      list := Sorted(parts.Keys, Below);
      forall i, j | 0 <= i < j < |list|
        ensures list[i] < list[j]
      {
        assert Below(list[i], list[j]);
      }
    }

    method DropWeeks(cutoff: int)
      modifies this`parts
      ensures parts == NotExpired(old(parts), cutoff)
    {
      var list := Partitions();
      ghost var before := parts;
      for i := 0 to |list|
        invariant parts == NotExpiredOrLater(before, cutoff, list[i..])
      {
        OneLooked(before, cutoff, list, i);
        if list[i] + WEEK > cutoff {
          continue;
        }
        parts := parts - {list[i]};
      }
    }

    method DropExpiredPartitions(now: int, retention: int)
      requires Valid(Contents())
      modifies this
      ensures Valid(Contents())
      ensures forall start :: start in parts <==> start in old(parts) && !WeekExpired(start, now - retention)
      ensures forall r: Row :: r in AllRows(Contents()) <==>
        r in old(AllRows(Contents())) && Survives(old(Contents()), r, now - retention)
    {
      var cutoff := now - retention;
      ghost var before := Contents();
      DropWeeks(cutoff);
      def := set r | r in def && !(r.at < cutoff);
      DroppedKeeps(before, Contents(), cutoff);
    }

    // The two in order, as the hourly sweep runs them: exactly the rows from the
    // start of the window's first week on are left, strays included, and all
    // the weeks ensured are still there.
    method Sweep(now: int, retention: int)
      requires Valid(Contents()) && retention >= 0
      modifies this
      ensures Valid(Contents())
      ensures forall start :: Ensured(now, retention, start) ==> start in parts
      ensures forall r: Row :: r in AllRows(Contents()) <==>
        r in old(AllRows(Contents())) && r.at >= WeekStart(now - retention)
    {
      EnsurePartitions(now, retention);
      ghost var ensured := Contents();
      DropExpiredPartitions(now, retention);
      forall start | Ensured(now, retention, start)
        ensures start in parts
      {
        EnsuredIsNotExpired(now, retention, start);
      }
      forall r: Row
        ensures Survives(ensured, r, now - retention) <==> r.at >= WeekStart(now - retention)
      {
        SurvivesIff(ensured, r, now, retention);
      }
    }
  }

  lemma NextWeek(from: int, start: int)
    requires from % WEEK == 0 && start % WEEK == 0 && from <= start
    ensures (start + WEEK) % WEEK == 0
    ensures forall s :: WeekIn(s, from, start + WEEK) <==> (WeekIn(s, from, start) || s == start)
  {
    forall s
      ensures WeekIn(s, from, start + WEEK) <==> (WeekIn(s, from, start) || s == start)
    {
      SameMonday(s, start);
    }
  }

  lemma SameMonday(s: int, start: int)
    requires start % WEEK == 0
    ensures s % WEEK == 0 && start <= s < start + WEEK <==> s == start
  {
  }

  lemma UpTo(s: int, to: int, start: int)
    requires to % WEEK == 0 && start % WEEK == 0 && to < start <= to + WEEK
    ensures s % WEEK == 0 ==> (s < start <==> s <= to)
  {
  }

  lemma {:induction false} DroppedKeeps(before: Table, after: Table, cutoff: int)
    requires Valid(before)
    requires forall s :: s in after.parts <==> s in before.parts && !WeekExpired(s, cutoff)
    requires forall s :: s in after.parts ==> after.parts[s] == before.parts[s]
    requires after.def == set r | r in before.def && !(r.at < cutoff)
    ensures Valid(after)
    ensures forall r: Row :: r in AllRows(after) <==> r in AllRows(before) && Survives(before, r, cutoff)
  {
    forall r: Row
      ensures r in AllRows(after) <==> r in AllRows(before) && Survives(before, r, cutoff)
    {
      RowPlace(before, r);
      RowPlace(after, r);
    }
  }

  lemma {:induction false} SurvivesIff(t: Table, r: Row, now: int, retention: int)
    requires retention >= 0
    requires forall start :: Ensured(now, retention, start) ==> start in t.parts
    ensures Survives(t, r, now - retention) <==> r.at >= WeekStart(now - retention)
  {
    WeekStartIsMonday(r.at);
    WeekStartIsMonday(now - retention);
    WeekStartIsMonday(now + PARTITIONS_AHEAD);
    WeekStartMonotone(now - retention, now + PARTITIONS_AHEAD);
    assert forall s :: WeekIn(s, WeekStart(now - retention), WeekStart(now + PARTITIONS_AHEAD) + 1) ==>
      Ensured(now, retention, s);
    SurvivesInIff(t, r.at, WeekStart(r.at), WeekStart(now - retention),
      WeekStart(now + PARTITIONS_AHEAD), now - retention);
  }

  lemma SurvivesInIff(t: Table, at: int, week: int, first: int, last: int, cutoff: int)
    requires week % WEEK == 0 && week <= at < week + WEEK && first % WEEK == 0 && last % WEEK == 0
    requires first <= cutoff < first + WEEK && first <= last
    requires forall s :: WeekIn(s, first, last + 1) ==> s in t.parts
    ensures SurvivesIn(t, at, week, cutoff) <==> at >= first
  {
    AlignedExpiry(week, first, cutoff);
    BeforeMonday(at, week, first);
    assert at >= first ==> WeekIn(week, first, last + 1) || week > last;
    BeforeMonday(cutoff, first, week);
  }
}
