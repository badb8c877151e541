/** retention.rollup and RollupAll against the statistics tables, with no writer about. */
module RollupJob {
  import opened Calendar
  import opened Options
  import opened Sizes
  import opened Sorting
  import opened Tables
  import opened Rollup

  const ROLLUP_BATCH := 500

  // ORDER BY bucket DESC.
  predicate NewestFirst(a: HourKey, b: HourKey) {
    a.bucket > b.bucket || (a.bucket == b.bucket && a.project < b.project)
  }

  function PastKeys(dirty: map<HourKey, int>, now: int): set<HourKey> {
    set h | h in dirty && h.bucket < HourOf(now)
  }

  function Batch(dirty: map<HourKey, int>, now: int): (keys: seq<HourKey>)
    ensures forall h :: h in keys ==> h in PastKeys(dirty, now)
    ensures keys == [] <==> PastKeys(dirty, now) == {}
  {
    var all := Sorted(PastKeys(dirty, now), NewestFirst);
    assert all == [] <==> PastKeys(dirty, now) == {};
    if |all| <= ROLLUP_BATCH then all else all[..ROLLUP_BATCH]
  }

  // In order: newest hours first, and only a full batch leaves one out.
  lemma {:induction false} BatchIsNewest(dirty: map<HourKey, int>, now: int)
    ensures var keys := Batch(dirty, now);
      && |keys| <= 500
      && (forall i, j :: 0 <= i < j < |keys| ==> keys[i] != keys[j] && keys[i].bucket >= keys[j].bucket)
      && (forall h :: h in keys ==> h in dirty && h.bucket < HourOf(now))
      && (forall h :: h in dirty && h.bucket < HourOf(now) && h !in keys ==>
            |keys| == 500 && forall i :: 0 <= i < |keys| ==> h.bucket <= keys[i].bucket)
  {
    NewestOf(Sorted(PastKeys(dirty, now), NewestFirst), Batch(dirty, now));
  }

  lemma NewestOf(all: seq<HourKey>, keys: seq<HourKey>)
    requires Ascending(all, NewestFirst) && keys == if |all| <= 500 then all else all[..500]
    ensures forall i, j :: 0 <= i < j < |keys| ==> keys[i] != keys[j] && keys[i].bucket >= keys[j].bucket
    ensures forall h :: h in all && h !in keys ==>
      |keys| == 500 && forall i :: 0 <= i < |keys| ==> h.bucket <= keys[i].bucket
  {
    forall i, j | 0 <= i < j < |all|
      ensures all[i] != all[j] && all[i].bucket >= all[j].bucket
    {
      assert NewestFirst(all[i], all[j]);
    }
    forall h | h in all && h !in keys
      ensures |keys| == 500 && forall i :: 0 <= i < |keys| ==> h.bucket <= keys[i].bucket
    {
      var j :| 0 <= j < |all| && all[j] == h;
      assert forall i :: 0 <= i < |keys| ==> keys[i] == all[i] && i != j;
    }
  }

  function KeySet(keys: seq<HourKey>): set<HourKey> {
    set h | h in keys
  }

  // One rollup run to its end: the three steps of the protocol.
  function Pass(s: State, started: int): State {
    ClearKeysStep(RecomputeStep(ReadKeysStep(s, KeySet(Batch(s.dirty, s.now)), started)))
  }

  // The keys of past hours with the generations read.
  function GensOf(dirty: map<HourKey, int>, keys: seq<HourKey>, now: int): map<HourKey, int> {
    map h | h in KeySet(keys) && h in dirty && h.bucket < HourOf(now) :: dirty[h]
  }

  function PassOver(s: State, keys: seq<HourKey>, started: int): State {
    s.(rolled := Recomputes(s.events, s.rolled, KeySet(keys), HourOf(started - s.retention)),
       dirty := Cleared(s.dirty, GensOf(s.dirty, keys, s.now)))
  }

  function PassResult(s: State, started: int): State {
    PassOver(s, Batch(s.dirty, s.now), started)
  }

  lemma {:induction false} PassIs(s: State, started: int)
    requires s.job.Idle? && started <= s.now
    ensures Pass(s, started) == PassResult(s, started)
  {
    PassOverIs(s, Batch(s.dirty, s.now), started);
  }

  lemma {:induction false} PassOverIs(s: State, keys: seq<HourKey>, started: int)
    requires s.job.Idle? && started <= s.now && KeySet(keys) <= PastKeys(s.dirty, s.now)
    ensures ClearKeysStep(RecomputeStep(ReadKeysStep(s, KeySet(keys), started))) == PassOver(s, keys, started)
  {
    assert GensOf(s.dirty, keys, s.now).Keys == KeySet(keys);
    assert ReadKeysStep(s, KeySet(keys), started).job ==
      Read(GensOf(s.dirty, keys, s.now), HourOf(started - s.retention));
  }

  ghost predicate OnlyPastCleared(dirty: map<HourKey, int>, left: map<HourKey, int>, now: int) {
    && (forall h :: h in left ==> h in dirty && left[h] == dirty[h])
    && (forall h :: h in dirty && h !in left ==> h.bucket < HourOf(now))
  }

  // Left dirty: exactly the keys of hours not yet past.
  ghost predicate OnlyCurrent(dirty: map<HourKey, int>, left: map<HourKey, int>, now: int) {
    left == map h | h in dirty && h.bucket >= HourOf(now) :: dirty[h]
  }

  lemma Remaining(dirty: map<HourKey, int>, left: map<HourKey, int>, now: int)
    requires OnlyPastCleared(dirty, left, now) && PastKeys(left, now) == {}
    ensures OnlyCurrent(dirty, left, now)
  {
    forall h | h in left
      ensures h.bucket >= HourOf(now)
    {
      assert h !in PastKeys(left, now);
    }
  }

  lemma ClearedTwice(a: map<HourKey, int>, b: map<HourKey, int>, c: map<HourKey, int>, now: int)
    requires OnlyPastCleared(a, b, now) && OnlyPastCleared(b, c, now)
    ensures OnlyPastCleared(a, c, now)
  {
  }

  // What one pass leaves: only past keys cleared, and progress until none is left.
  ghost predicate PassOk(s: State, s': State, n: nat) {
    && Inv(s') && OnlyPastCleared(s.dirty, s'.dirty, s.now)
    && (n == 0 ==> PastKeys(s'.dirty, s.now) == {})
    && (n > 0 ==> |s'.dirty| < |s.dirty|)
  }

  // Rollup returns early when no key is due.
  lemma EmptyPass(s: State, keys: seq<HourKey>, started: int)
    requires |keys| == 0
    ensures PassOver(s, keys, started) == s
  {
    assert Recomputes(s.events, s.rolled, KeySet(keys), HourOf(started - s.retention)) == s.rolled;
    assert Cleared(s.dirty, GensOf(s.dirty, keys, s.now)) == s.dirty;
  }

  lemma PassTables(s: State, keys: seq<HourKey>, started: int, rolled: map<HourKey, Stats>, dirty: map<HourKey, int>)
    requires rolled == Recomputes(s.events, s.rolled, KeySet(keys), HourOf(started - s.retention))
    requires dirty == Cleared(s.dirty, GensOf(s.dirty, keys, s.now))
    ensures s.(rolled := rolled, dirty := dirty) == PassOver(s, keys, started)
  {
  }

  lemma BatchProgress(dirty: map<HourKey, int>, now: int)
    ensures OnlyPastCleared(dirty, dirty - KeySet(Batch(dirty, now)), now)
    ensures Batch(dirty, now) == [] ==> PastKeys(dirty - KeySet(Batch(dirty, now)), now) == {}
    ensures Batch(dirty, now) != [] ==> |dirty - KeySet(Batch(dirty, now))| < |dirty|
  {
    var keys := Batch(dirty, now);
    if keys == [] {
      assert dirty - KeySet(keys) == dirty;
    } else {
      assert keys[0] in KeySet(keys) && keys[0] in PastKeys(dirty, now);
      Fewer(dirty, KeySet(keys));
    }
  }

  lemma {:induction false} PassFacts(s: State, started: int)
    requires Inv(s) && s.job.Idle? && started <= s.now
    ensures PassOk(s, PassResult(s, started), |Batch(s.dirty, s.now)|)
  {
    PassIs(s, started);
    PassKeeps(s, started);
    PassClears(s, started);
    BatchProgress(s.dirty, s.now);
  }

  // The rows a query bounded by [lo, hi) sees.
  function Window(events: Rows, lo: int, hi: int): Rows {
    map k | k in events && lo <= k.at < hi :: events[k]
  }

  // The planner's constants do not change an hour inside them.
  lemma WindowHoldsHour(events: Rows, lo: int, hi: int, h: HourKey)
    requires lo <= h.bucket && h.bucket + HOUR <= hi
    ensures Aggregate(Window(events, lo, hi), h) == Aggregate(events, h)
  {
    assert Hour(Window(events, lo, hi), h) == Hour(events, h);
  }

  lemma {:induction false} PassKeeps(s: State, started: int)
    requires Inv(s)
    ensures Inv(Pass(s, started))
  {
    var pick := KeySet(Batch(s.dirty, s.now));
    ReadKeysKeeps(s, pick, started);
    RecomputeKeeps(ReadKeysStep(s, pick, started));
    ClearKeysKeeps(RecomputeStep(ReadKeysStep(s, pick, started)));
  }

  // Without writers a pass clears every key it read.
  lemma PassClears(s: State, started: int)
    requires s.job.Idle? && started <= s.now
    ensures Pass(s, started).dirty == s.dirty - KeySet(Batch(s.dirty, s.now))
  {
    assert KeySet(Batch(s.dirty, s.now)) <= PastKeys(s.dirty, s.now);
  }

  method FromCutoff(keys: seq<HourKey>, cutoff: int) returns (buckets: seq<HourKey>)
    ensures forall h :: h in buckets <==> h in keys && h.bucket >= cutoff
  {
    buckets := [];
    for i := 0 to |keys|
      invariant forall h :: h in buckets <==> h in keys[..i] && h.bucket >= cutoff
    {
      assert keys[..i + 1] == keys[..i] + [keys[i]];
      if keys[i].bucket >= cutoff {
        buckets := buckets + [keys[i]];
      }
    }
    assert keys[..|keys|] == keys;
  }

  method Span(buckets: seq<HourKey>) returns (lo: int, hi: int)
    requires buckets != []
    ensures forall h :: h in buckets ==> lo <= h.bucket <= hi
  {
    lo, hi := buckets[0].bucket, buckets[0].bucket;
    for i := 0 to |buckets|
      invariant forall j :: 0 <= j < i ==> lo <= buckets[j].bucket <= hi
    {
      if buckets[i].bucket < lo {
        lo := buckets[i].bucket;
      }
      if buckets[i].bucket > hi {
        hi := buckets[i].bucket;
      }
    }
  }

  // The rows a batch of inserts stands for: the first of a key wins.
  function RowsOf(batch: seq<(EventKey, EventRow)>): Rows
    decreases |batch|
  {
    if batch == [] then map[]
    else
      var rows := RowsOf(batch[..|batch| - 1]);
      var last := batch[|batch| - 1];
      if last.0 in rows then rows else rows[last.0 := last.1]
  }

  // ON CONFLICT DO NOTHING, row by row.
  lemma RowsMore(batch: seq<(EventKey, EventRow)>, row: (EventKey, EventRow), before: Rows)
    ensures RowsOf(batch + [row]) + before ==
      if row.0 in RowsOf(batch) + before then RowsOf(batch) + before else (RowsOf(batch) + before)[row.0 := row.1]
  {
    assert (batch + [row])[..|batch|] == batch;
  }

  lemma IngestTables(s: State, rows: Rows, events: Rows, dirty: map<HourKey, int>)
    requires events == rows + s.events && dirty == Mark(s.dirty, HoursOf(rows))
    ensures s.(events := events, dirty := dirty) == IngestStep(s, rows)
  {
  }

  lemma HoursMore(batch: seq<(EventKey, EventRow)>, row: (EventKey, EventRow))
    ensures HoursOf(RowsOf(batch + [row])) == HoursOf(RowsOf(batch)) + {HourKeyOf(row.0)}
  {
    assert (batch + [row])[..|batch|] == batch;
  }

  class StatsTables {
    var events: Rows
    var rolled: map<HourKey, Stats>
    var dirty: map<HourKey, int>

    function Tables(now: int, retention: nat): State
      reads this
    {
      State(events, rolled, dirty, now, retention, Idle)
    }

    // InsertEvents: conflicting keys are skipped, and every hour touched is
    // marked once, with the rows, whether its row was new or not.
    method InsertEvents(batch: seq<(EventKey, EventRow)>, now: int, retention: nat)
      modifies this`events, this`dirty
      ensures Tables(now, retention) == IngestStep(old(Tables(now, retention)), RowsOf(batch))
    {
      var hours: seq<HourKey> := [];
      ghost var start := Tables(now, retention);
      for i := 0 to |batch|
        invariant events == RowsOf(batch[..i]) + start.events && dirty == start.dirty
        invariant KeySet(hours) == HoursOf(RowsOf(batch[..i]))
      {
        var k := batch[i].0;
        assert batch[..i + 1] == batch[..i] + [batch[i]];
        HoursMore(batch[..i], batch[i]);
        RowsMore(batch[..i], batch[i], start.events);
        if k !in events {
          events := events[k := batch[i].1];
        }
        if HourKeyOf(k) !in hours {
          hours := hours + [HourKeyOf(k)];
        }
      }
      assert batch[..|batch|] == batch;
      MarkEventStatsDirty(hours);
      IngestTables(start, RowsOf(batch), events, dirty);
    }

    method MarkEventStatsDirty(hours: seq<HourKey>)
      modifies this`dirty
      ensures dirty == Mark(old(dirty), KeySet(hours))
    {
      dirty := Mark(dirty, KeySet(hours));
    }

    // The recompute transaction: the batch's hours from the cutoff on, read
    // through the window their buckets span.
    method RecomputeHours(keys: seq<HourKey>, cutoff: int)
      modifies this`rolled
      ensures rolled == Recomputes(events, old(rolled), KeySet(keys), cutoff)
    {
      var buckets := FromCutoff(keys, cutoff);
      if |buckets| == 0 {
        assert rolled == Recomputes(events, rolled, KeySet(keys), cutoff);
        return;
      }
      var lo, hi := Span(buckets);
      var rows := Window(events, lo, hi + HOUR);
      forall h | h in buckets
        ensures Aggregate(rows, h) == Aggregate(events, h)
      {
        WindowHoldsHour(events, lo, hi + HOUR, h);
      }
      rolled := rolled + map h | h in KeySet(buckets) :: Aggregate(rows, h);
    }

    method ClearKeys(keys: map<HourKey, int>)
      modifies this`dirty
      ensures dirty == Cleared(old(dirty), keys)
    {
      dirty := map h | h in dirty && !(h in keys && keys[h] == dirty[h]) :: dirty[h];
    }

    // The body of Rollup, for the keys it has read.
    method RollupKeys(batch: seq<HourKey>, now: int, retention: nat, started: int)
      modifies this`rolled, this`dirty
      ensures Tables(now, retention) == PassOver(old(Tables(now, retention)), batch, started)
    {
      ghost var before := Tables(now, retention);
      var keys := GensOf(dirty, batch, now);
      if |batch| == 0 {
        EmptyPass(before, batch, started);
        return;
      }
      RecomputeHours(batch, HourOf(started - retention));
      ClearKeys(keys);
      PassTables(before, batch, started, rolled, dirty);
    }

    // One Rollup of the events statistics; n is the number of keys processed.
    method RollupOnce(now: int, retention: nat, started: int) returns (n: nat)
      modifies this`rolled, this`dirty
      ensures Tables(now, retention) == PassResult(old(Tables(now, retention)), started)
      ensures n == |Batch(old(dirty), now)|
    {
      var batch := Batch(dirty, now);
      n := |batch|;
      RollupKeys(batch, now, retention, started);
    }

    // A pass seen as the protocol's steps.
    method RollupPass(now: int, retention: nat, started: int) returns (n: nat)
      requires started <= now && Inv(Tables(now, retention))
      modifies this`rolled, this`dirty
      ensures Tables(now, retention) == PassResult(old(Tables(now, retention)), started)
      ensures PassOk(old(Tables(now, retention)), Tables(now, retention), n)
    {
      PassFacts(Tables(now, retention), started);
      n := RollupOnce(now, retention, started);
    }

    // Pass i reads the clock anew. Terminates with only hours not yet past at the
    // last pass dirty, and every past covered hour exact.
    method RollupAll(retention: nat, clock: nat -> int, started: nat -> int) returns (last: nat)
      requires ClockOk(clock, started) && Inv(Tables(clock(0), retention))
      modifies this`rolled, this`dirty
      ensures OnlyCurrent(old(dirty), dirty, clock(last))
      ensures AllExact(Tables(clock(last), retention))
    {
      last := 0;
      while true
        invariant Inv(Tables(clock(last), retention))
        invariant OnlyPastCleared(old(dirty), dirty, clock(last))
        decreases |dirty|
      {
        ghost var before := dirty;
        var n := RollupPass(clock(last), retention, started(last));
        ClearedTwice(old(dirty), before, dirty, clock(last));
        if n == 0 {
          AllClean(Tables(clock(last), retention));
          Remaining(old(dirty), dirty, clock(last));
          return;
        }
        Later(old(dirty), Tables(clock(last), retention), clock(last + 1));
        last := last + 1;
      }
    }
  }

  // The clock does not run backwards, and each pass takes its cutoff from a read
  // not after that of its query.
  ghost predicate ClockOk(clock: nat -> int, started: nat -> int) {
    forall i: nat :: clock(i) <= clock(i + 1) && started(i) <= clock(i)
  }

  // Between two passes only the clock moves.
  lemma {:induction false} Later(dirty: map<HourKey, int>, s: State, now: int)
    requires Inv(s) && OnlyPastCleared(dirty, s.dirty, s.now) && s.now <= now
    ensures Inv(s.(now := now)) && OnlyPastCleared(dirty, s.dirty, now)
  {
    TickKeeps(s, now);
    assert HourOf(s.now) <= HourOf(now);
    if now == s.now {
      assert s.(now := now) == s;
    }
  }

  ghost predicate AllExact(s: State) {
    forall h :: Covered(s, h) && h.bucket < HourOf(s.now) ==> Rolled(s, h) == Aggregate(s.events, h)
  }

  lemma AllClean(s: State)
    requires Inv(s) && PastKeys(s.dirty, s.now) == {}
    ensures AllExact(s)
  {
    forall h | Covered(s, h) && h.bucket < HourOf(s.now)
      ensures Exact(s, h)
    {
      assert h !in PastKeys(s.dirty, s.now);
    }
  }

  lemma Fewer(dirty: map<HourKey, int>, keys: set<HourKey>)
    requires exists h :: h in keys && h in dirty
    ensures |dirty - keys| < |dirty|
  {
    var h :| h in keys && h in dirty;
    assert (dirty - keys).Keys <= dirty.Keys - {h};
    SubsetSize((dirty - keys).Keys, dirty.Keys - {h});
  }
}
