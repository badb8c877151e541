/** The jobs table's statements and a worker's RunOnce over them. */
module JobWorker {
  import opened Basics
  import opened Options
  import opened Calendar
  import opened Sorting
  import opened Int64
  import opened JobQueue

  const BASE_BACKOFF := 5 * SECOND
  const MAX_BACKOFF := 600 * SECOND
  const MAX_ERROR_CHARS := 500

  function Backoff(attempts: int): int {
    var n := if attempts < 0 then 0 else attempts;
    if n > 10 then MAX_BACKOFF
    else
      var d := BASE_BACKOFF * Pow2(n);
      if d > MAX_BACKOFF then MAX_BACKOFF else d
  }

  lemma {:induction false} Pow2Grows(n: nat, m: nat)
    requires n <= m
    ensures Pow2(n) <= Pow2(m)
    decreases m
  {
    if n < m {
      Pow2Grows(n, m - 1);
    }
  }

  // 5 s doubled per failed attempt and capped at 10 minutes: the special case
  // past ten attempts is not a jump.
  lemma BackoffIsCapped(n: nat)
    ensures Backoff(n) == if BASE_BACKOFF * Pow2(n) > MAX_BACKOFF then MAX_BACKOFF else BASE_BACKOFF * Pow2(n)
    ensures BASE_BACKOFF <= Backoff(n) <= Backoff(n + 1) <= MAX_BACKOFF
  {
    assert Pow2(7) == 128;
    if n >= 7 {
      Pow2Grows(7, n);
    }
  }

  // truncate: no NUL bytes, at most n characters.
  function Truncated(s: string, n: nat): string {
    var clean := WithoutNul(s);
    if |clean| <= n then clean else clean[..n]
  }

  function WithoutNul(s: string): string {
    if s == "" then "" else (if s[0] == '\0' then "" else [s[0]]) + WithoutNul(s[1..])
  }

  lemma {:induction false} WithoutNulAppends(a: string, b: string)
    ensures WithoutNul(a + b) == WithoutNul(a) + WithoutNul(b)
  {
    if a == "" {
      assert a + b == b;
    } else {
      WithoutNulAppends(a[1..], b);
      assert (a + b)[1..] == a[1..] + b && (a + b)[0] == a[0];
      Regroup(if a[0] == '\0' then "" else [a[0]], WithoutNul(a[1..]), WithoutNul(b));
    }
  }

  lemma {:induction false} NoNulStays(s: string)
    ensures '\0' !in WithoutNul(s) && ('\0' !in s ==> WithoutNul(s) == s)
  {
    if s != "" {
      NoNulStays(s[1..]);
    }
  }

  // s without its NULs, which splits it at; only the first n characters of it.
  ghost predicate CleanOf(s: string, n: nat, t: string) {
    && |t| <= n && '\0' !in t && (|t| < n ==> t == WithoutNul(s))
    && t <= WithoutNul(s) && ('\0' !in s ==> t <= s)
  }

  lemma TruncatedIsClean(s: string, n: nat)
    ensures CleanOf(s, n, Truncated(s, n))
  {
    NoNulStays(s);
  }

  datatype Handled = Ok | Unknown | Error(message: string) | ShutDown

  // The row a handled job leaves behind, if any; duplicate is whether another
  // row of its key is live.
  function After(j: Job, h: Handled, now: int, duplicate: bool): Option<Job> {
    match h
    case Ok => None
    case Unknown => None
    case Error(message) => Some(j.(
      lastError := Some(Truncated(message, MAX_ERROR_CHARS)),
      runAfter := now + Backoff(j.attempts - 1), lockedUntil := None))
    case ShutDown =>
      if !Leased(j, now) then Some(j)
      else if duplicate then None
      else Some(j.(lockedUntil := None, attempts := j.attempts - 1))
  }

  // The same on the fields: a failed job stays and backs off, one handed back
  // loses lease and attempt, and a row goes only when it is done, unknown, or
  // handed back beside a live duplicate.
  ghost predicate Ends(j: Job, h: Handled, now: int, duplicate: bool, row: Option<Job>) {
    match h
    case Ok => row == None
    case Unknown => row == None
    case Error(message) =>
      && row.Some? && row.value.key == j.key && row.value.attempts == j.attempts && row.value.created == j.created
      && row.value.lockedUntil == None
      && row.value.lastError.Some? && CleanOf(message, 500, row.value.lastError.value)
      && (j.attempts > 0 ==> row.value.runAfter == now + Min(600_000_000, 5_000_000 * Pow2(j.attempts - 1)))
    case ShutDown =>
      if j.lockedUntil.None? || j.lockedUntil.value < now then row == Some(j)
      else if duplicate then row == None
      else row == Some(Job(j.key, j.runAfter, j.attempts - 1, None, j.lastError, j.created))
  }

  lemma AfterEnds(j: Job, h: Handled, now: int, duplicate: bool)
    ensures Ends(j, h, now, duplicate, After(j, h, now, duplicate))
  {
    if h.Error? {
      TruncatedIsClean(h.message, MAX_ERROR_CHARS);
      if j.attempts > 0 {
        BackoffIsCapped(j.attempts - 1);
      }
    }
  }

  // What the queue's state machine calls it.
  function OutcomeOf(j: Job, h: Handled, now: int): Outcome {
    match h
    case Ok => Success
    case Unknown => NoHandler
    case Error(message) => Failure(Truncated(message, MAX_ERROR_CHARS), now + Backoff(j.attempts - 1))
    case ShutDown => Cancelled
  }

  function Row(jobs: Jobs, id: nat): Option<Job> {
    if id in jobs then Some(jobs[id]) else None
  }

  function DueIds(jobs: Jobs, now: int): set<nat> {
    set id | id in jobs && Due(jobs[id], now)
  }

  // ORDER BY run_after, id.
  predicate Sooner(a: (int, nat), b: (int, nat)) {
    a.0 < b.0 || (a.0 == b.0 && a.1 < b.1)
  }

  function DueKeys(jobs: Jobs, now: int): set<(int, nat)> {
    set id | id in DueIds(jobs, now) :: (jobs[id].runAfter, id)
  }

  function Seconds(keys: seq<(int, nat)>): (ids: seq<nat>)
    ensures |ids| == |keys| && forall i :: 0 <= i < |ids| ==> ids[i] == keys[i].1
  {
    seq(|keys|, i requires 0 <= i < |keys| => keys[i].1)
  }

  // The first max due jobs.
  function Batch(jobs: Jobs, now: int, max: nat): (ids: seq<nat>)
  {
    var all := Sorted(DueKeys(jobs, now), Sooner);
    Seconds(if |all| <= max then all else all[..max])
  }

  // In order: nothing due is left out before something taken, and only a full
  // batch leaves anything out.
  predicate FirstDue(jobs: Jobs, ids: seq<nat>, now: int, max: nat) {
    && |ids| <= max && Distinct(ids) && AllDue(jobs, ids, now)
    && (forall id :: id in DueIds(jobs, now) && id !in ids ==> |ids| == max && NoneLater(jobs, ids, id))
  }

  predicate NoneLater(jobs: Jobs, ids: seq<nat>, id: nat)
    requires id in jobs
  {
    forall i :: 0 <= i < |ids| && ids[i] in jobs ==> jobs[ids[i]].runAfter <= jobs[id].runAfter
  }

  lemma {:induction false} BatchIs(jobs: Jobs, now: int, max: nat)
    ensures FirstDue(jobs, Batch(jobs, now, max), now, max)
  {
    FirstOf(jobs, Sorted(DueKeys(jobs, now), Sooner), now, max);
  }

  lemma FirstOf(jobs: Jobs, all: seq<(int, nat)>, now: int, max: nat)
    requires Ascending(all, Sooner) && forall x :: x in all <==> x in DueKeys(jobs, now)
    ensures FirstDue(jobs, Seconds(if |all| <= max then all else all[..max]), now, max)
  {
    var ids := Seconds(if |all| <= max then all else all[..max]);
    forall i | 0 <= i < |all|
      ensures all[i].1 in DueIds(jobs, now) && all[i].0 == jobs[all[i].1].runAfter
    {
      assert all[i] in DueKeys(jobs, now);
    }
    forall i, j | 0 <= i < j < |ids|
      ensures ids[i] != ids[j]
    {
      assert Sooner(all[i], all[j]);
    }
    forall id | id in DueIds(jobs, now) && id !in ids
      ensures |ids| == max && NoneLater(jobs, ids, id)
    {
      assert (jobs[id].runAfter, id) in all;
      assert forall m :: 0 <= m < |ids| ==> ids[m] != id;
      var j :| 0 <= j < |all| && all[j] == (jobs[id].runAfter, id);
      forall i | 0 <= i < |ids|
        ensures i < j && jobs[ids[i]].runAfter <= jobs[id].runAfter
      {
        assert i < j && Sooner(all[i], all[j]);
      }
    }
  }

  // Keys stay, and only rows that were live before the batch are live.
  ghost predicate From(before: Jobs, jobs: Jobs) {
    forall id :: id in jobs ==> id in before && jobs[id].key == before[id].key && (Live(jobs[id]) ==> Live(before[id]))
  }

  lemma NoDuplicate(before: Jobs, jobs: Jobs, id: nat)
    requires UniqueLive(before) && From(before, jobs) && id in jobs && Live(before[id])
    ensures !HasOtherLive(jobs, id)
  {
  }

  // When a job is claimed again: once its lease has run out, after its back-off, and
  // never after the eighth attempt.
  lemma ClaimedAgainIff(j: Job, now: int, until: int, later: int)
    requires Due(j, now) && now <= later
    ensures Due(Claimed(j, until), later) <==> later > until && j.attempts + 1 < 8
  {
  }

  lemma FailedAgainIff(j: Job, message: string, now: int, duplicate: bool, later: int)
    requires j.attempts > 0
    ensures var row := After(j, Error(message), now, duplicate);
      && row.Some?
      && (Due(row.value, later) <==>
            j.attempts < 8 && later >= now + Min(600_000_000, 5_000_000 * Pow2(j.attempts - 1)))
  {
    AfterEnds(j, Error(message), now, duplicate);
  }

  lemma EnqueuedIsDueIff(jobs: Jobs, next: nat, key: Key, runAfter: int, now: int, later: int)
    requires next !in jobs && !HasLive(jobs, key)
    ensures var after := Enqueued(jobs, next, key, runAfter, now);
      next in after && (Due(after[next], later) <==> later >= runAfter)
  {
  }

  class JobsTable {
    var jobs: Jobs
    var next: nat

    // The upsert of an enqueue: the work is live, and due no later than asked.
    method EnqueueJob(key: Key, runAfter: int, now: int)
      modifies this
      ensures jobs == Enqueued(old(jobs), old(next), key, runAfter, now)
      ensures exists id :: id in jobs && LiveAs(jobs[id], key) && jobs[id].runAfter <= runAfter
      ensures next == if HasLive(old(jobs), key) then old(next) else old(next) + 1
    {
      if HasLive(jobs, key) {
        ghost var id :| id in jobs && LiveAs(jobs[id], key);
        jobs := map i | i in jobs ::
          if LiveAs(jobs[i], key) then jobs[i].(runAfter := Min(jobs[i].runAfter, runAfter)) else jobs[i];
        assert id in jobs && LiveAs(jobs[id], key) && jobs[id].runAfter <= runAfter;
      } else {
        jobs := jobs[next := Job(key, runAfter, 0, None, None, now)];
        assert next in jobs && LiveAs(jobs[next], key);
        next := next + 1;
      }
    }

    // Only dead jobs go, a week after they were made.
    method ExpireJobs(now: int) returns (n: nat)
      modifies this`jobs
      ensures forall id :: id in jobs <==>
        id in old(jobs) && (old(jobs)[id].attempts < 8 || now - old(jobs)[id].created <= 604_800_000_000)
      ensures forall id :: id in jobs ==> jobs[id] == old(jobs)[id]
      ensures n == |old(jobs)| - |jobs|
    {
      var gone := ExpiredIds(jobs, now);
      n := |gone|;
      assert jobs.Keys == (jobs - gone).Keys + gone;
      jobs := jobs - gone;
    }

    method ClaimJobs(now: int, until: int, max: nat) returns (ids: seq<nat>)
      modifies this`jobs
      ensures FirstDue(old(jobs), ids, now, max)
      ensures forall id :: id in ids ==> id in jobs
      ensures forall id :: id in ids ==>
        jobs[id] == old(jobs)[id].(lockedUntil := Some(until), attempts := old(jobs)[id].attempts + 1)
      ensures forall id: nat :: id !in ids ==> Row(jobs, id) == Row(old(jobs), id)
    {
      BatchIs(jobs, now, max);
      ids := Batch(jobs, now, max);
      jobs := ClaimedAll(jobs, IdSet(ids), until);
    }

    method DeleteJob(id: nat)
      modifies this`jobs
      ensures jobs == old(jobs) - {id}
    {
      jobs := jobs - {id};
    }

    method RetryJob(id: nat, error: string, runAfter: int)
      modifies this`jobs
      ensures jobs == Retried(old(jobs), id, error, runAfter)
    {
      if id in jobs {
        jobs := jobs[id := jobs[id].(lastError := Some(error), runAfter := runAfter, lockedUntil := None)];
      }
    }

    method ReleaseJob(id: nat, now: int)
      modifies this`jobs
      ensures jobs == Released(old(jobs), id, now)
      ensures UniqueLive(old(jobs)) ==> UniqueLive(jobs)
      ensures id in old(jobs) ==> (id !in jobs <==> Leased(old(jobs)[id], now) && HasOtherLive(old(jobs), id))
    {
      ghost var was := jobs;
      if UniqueLive(was) {
        ReleasedUnique(was, id, now);
      }
      if id in jobs && Leased(jobs[id], now) {
        if HasOtherLive(jobs, id) {
          jobs := jobs - {id};
        } else {
          var attempts := if jobs[id].attempts > 0 then jobs[id].attempts - 1 else 0;
          jobs := jobs[id := jobs[id].(lockedUntil := None, attempts := attempts)];
        }
      }
    }

    // One claimed job and how its handler ended.
    method Dispatch(id: nat, j: Job, h: Handled, now: int)
      requires id in jobs && jobs[id] == j && j.attempts > 0
      modifies this`jobs
      ensures Row(jobs, id) == After(j, h, now, HasOtherLive(old(jobs), id))
      ensures Ends(j, h, now, HasOtherLive(old(jobs), id), Row(jobs, id))
      ensures forall s: State :: s.jobs == old(jobs) && s.now == now && UniqueLive(s.jobs) ==>
        jobs == Recorded(s, id, OutcomeOf(j, h, now)).jobs
      ensures forall other :: other != id ==> Row(jobs, other) == Row(old(jobs), other)
    {
      AfterEnds(j, h, now, HasOtherLive(jobs, id));
      match h
      case Unknown => DeleteJob(id);
      case Ok => DeleteJob(id);
      case ShutDown => ReleaseJob(id, now);
      case Error(message) =>
        var delay := Backoff(j.attempts - 1);
        RetryJob(id, Truncated(message, MAX_ERROR_CHARS), now + delay);
    }

    // The loop of RunOnce over a claimed batch.
    method DispatchAll(ghost before: Jobs, ids: seq<nat>, now: int, until: int, handled: seq<Handled>, stopAfter: nat)
      requires UniqueLive(before) && AttemptsOk(before) && until >= now && |handled| >= |ids|
      requires Distinct(ids) && AllDue(before, ids, now) && jobs == ClaimedAll(before, IdSet(ids), until)
      modifies this`jobs
      ensures HandledRows(before, jobs, ids, until, handled, stopAfter, now, |ids|)
      ensures OthersSame(before, jobs, ids)
    {
      for i := 0 to |ids|
        invariant From(before, jobs)
        invariant ClaimedRows(before, jobs, ids, until, i)
        invariant HandledRows(before, jobs, ids, until, handled, stopAfter, now, i)
        invariant OthersSame(before, jobs, ids)
      {
        var id := ids[i];
        assert Row(jobs, id) == Some(Claimed(before[id], until));
        NoDuplicate(before, jobs, id);
        ghost var was := jobs;
        var h := if i >= stopAfter then ShutDown else handled[i];
        Dispatch(id, jobs[id], h, now);
        StillFrom(before, was, jobs, id);
        OneHandled(before, was, jobs, ids, until, handled, stopAfter, now, i);
      }
    }

    // One batch with no other worker about: every claimed job ends as its
    // handler did, and on a shutdown the rest are handed back uncounted.
    method RunOnce(now: int, until: int, max: nat, handled: seq<Handled>, stopAfter: nat) returns (ids: seq<nat>)
      requires UniqueLive(jobs) && AttemptsOk(jobs) && until >= now && |handled| >= max
      modifies this`jobs
      ensures FirstDue(old(jobs), ids, now, max)
      ensures HandledRows(old(jobs), jobs, ids, until, handled, stopAfter, now, |ids|)
      ensures OthersSame(old(jobs), jobs, ids)
      ensures EndedRows(old(jobs), jobs, ids, until, handled, stopAfter, now)
      ensures forall s: State, w: nat :: Inv(s) && s.jobs == old(jobs) && s.now == now && w !in s.workers ==>
        Run(s, BatchSteps(s, w, ids, until, handled, stopAfter)).jobs == jobs
    {
      ghost var before := jobs;
      ids := ClaimJobs(now, until, max);
      ClaimedIs(before, jobs, ids, until);
      DispatchAll(before, ids, now, until, handled, stopAfter);
      HandledEnd(before, jobs, ids, until, handled, stopAfter, now);
      forall s: State, w: nat | Inv(s) && s.jobs == before && s.now == now && w !in s.workers
        ensures Run(s, BatchSteps(s, w, ids, until, handled, stopAfter)).jobs == jobs
      {
        BatchIsRun(s, w, ids, until, handled, stopAfter, jobs);
      }
    }
  }

  lemma ClaimedIs(before: Jobs, jobs: Jobs, ids: seq<nat>, until: int)
    requires forall id :: id in ids ==> id in before && Row(jobs, id) == Some(Claimed(before[id], until))
    requires forall id: nat :: id !in ids ==> Row(jobs, id) == Row(before, id)
    ensures jobs == ClaimedAll(before, IdSet(ids), until)
  {
    forall id: nat
      ensures Row(jobs, id) == Row(ClaimedAll(before, IdSet(ids), until), id)
    {
    }
    SameRows(jobs, ClaimedAll(before, IdSet(ids), until));
  }

  lemma SameRows(a: Jobs, b: Jobs)
    requires forall id: nat :: Row(a, id) == Row(b, id)
    ensures a == b
  {
    forall id: nat
      ensures id in a <==> id in b
      ensures id in a ==> a[id] == b[id]
    {
      assert Row(a, id) == Row(b, id);
    }
  }

  predicate ClaimedRows(before: Jobs, jobs: Jobs, ids: seq<nat>, until: int, from: nat) {
    forall k :: from <= k < |ids| ==> ids[k] in before && Row(jobs, ids[k]) == Some(Claimed(before[ids[k]], until))
  }

  // How the batch's job k ended.
  function Ending(handled: seq<Handled>, stopAfter: nat, k: nat): Handled
    requires k < |handled|
  {
    if k < stopAfter then handled[k] else ShutDown
  }

  predicate HandledRows(
      before: Jobs, jobs: Jobs, ids: seq<nat>, until: int, handled: seq<Handled>, stopAfter: nat, now: int, to: nat)
    requires to <= |ids| <= |handled|
  {
    forall k :: 0 <= k < to ==>
      (ids[k] in before &&
       Row(jobs, ids[k]) == After(Claimed(before[ids[k]], until), Ending(handled, stopAfter, k), now, false))
  }

  ghost predicate OthersSame(before: Jobs, jobs: Jobs, ids: seq<nat>) {
    forall id: nat :: id !in ids ==> Row(jobs, id) == Row(before, id)
  }

  lemma OneHandled(
      before: Jobs, was: Jobs, jobs: Jobs, ids: seq<nat>, until: int, handled: seq<Handled>, stopAfter: nat, now: int,
      i: nat)
    requires i < |ids| <= |handled| && Distinct(ids) && ids[i] in before
    requires ClaimedRows(before, was, ids, until, i) && HandledRows(before, was, ids, until, handled, stopAfter, now, i)
    requires OthersSame(before, was, ids)
    requires Row(jobs, ids[i]) == After(Claimed(before[ids[i]], until), Ending(handled, stopAfter, i), now, false)
    requires forall other: nat :: other != ids[i] ==> Row(jobs, other) == Row(was, other)
    ensures ClaimedRows(before, jobs, ids, until, i + 1)
    ensures HandledRows(before, jobs, ids, until, handled, stopAfter, now, i + 1)
    ensures OthersSame(before, jobs, ids)
  {
  }

  // The batch on the fields of the rows: claimed, then ended.
  ghost predicate EndedRows(
    before: Jobs, jobs: Jobs, ids: seq<nat>, until: int, handled: seq<Handled>, stopAfter: nat, now: int)
    requires |ids| <= |handled|
  {
    forall k :: 0 <= k < |ids| ==>
      && ids[k] in before
      && var j := before[ids[k]];
         Ends(j.(lockedUntil := Some(until), attempts := j.attempts + 1),
              if k < stopAfter then handled[k] else ShutDown, now, false, Row(jobs, ids[k]))
  }

  lemma HandledEnd(
    before: Jobs, jobs: Jobs, ids: seq<nat>, until: int, handled: seq<Handled>, stopAfter: nat, now: int)
    requires |ids| <= |handled| && HandledRows(before, jobs, ids, until, handled, stopAfter, now, |ids|)
    ensures EndedRows(before, jobs, ids, until, handled, stopAfter, now)
  {
    forall k | 0 <= k < |ids|
      ensures ids[k] in before
      ensures Ends(Claimed(before[ids[k]], until), Ending(handled, stopAfter, k), now, false, Row(jobs, ids[k]))
    {
      AfterEnds(Claimed(before[ids[k]], until), Ending(handled, stopAfter, k), now, false);
    }
  }

  /* ---- a batch is a run of the queue ---- */

  // The claim, and one record per job.
  function BatchSteps(s: State, w: nat, ids: seq<nat>, until: int, handled: seq<Handled>, stopAfter: nat): seq<Step>
    requires |ids| <= |handled|
  {
    [Claim(w, ids, until)] + seq(|ids|, k requires 0 <= k < |ids| =>
      if ids[k] in s.jobs
      then Record(w, OutcomeOf(Claimed(s.jobs[ids[k]], until), Ending(handled, stopAfter, k), s.now))
      else Record(w, Unrecorded))
  }

  // Recording an outcome leaves the row the handler's end leaves.
  lemma RecordedRow(s: State, id: nat, h: Handled)
    requires UniqueLive(s.jobs) && id in s.jobs && s.jobs[id].attempts > 0
    ensures var jobs := Recorded(s, id, OutcomeOf(s.jobs[id], h, s.now)).jobs;
      && Row(jobs, id) == After(s.jobs[id], h, s.now, HasOtherLive(s.jobs, id))
      && forall other: nat :: other != id ==> Row(jobs, other) == Row(s.jobs, other)
  {
  }

  lemma {:induction false} RunMore(s: State, steps: seq<Step>, last: Step)
    requires Inv(s)
    ensures Run(s, steps + [last]) == Next(Run(s, steps), last)
    decreases |steps|
  {
    NextKeeps(s, (steps + [last])[0]);
    if steps == [] {
      assert (steps + [last])[1..] == [];
    } else {
      assert (steps + [last])[1..] == steps[1..] + [last];
      RunMore(Next(s, steps[0]), steps[1..], last);
    }
  }

  lemma RunPrefix(s: State, steps: seq<Step>, n: nat)
    requires Inv(s) && n < |steps|
    ensures Run(s, steps[..n + 1]) == Next(Run(s, steps[..n]), steps[n])
  {
    assert steps[..n + 1] == steps[..n] + [steps[n]];
    RunMore(s, steps[..n], steps[n]);
  }

  // After the claim and n records.
  ghost predicate Midway(
    before: State, s: State, w: nat, ids: seq<nat>, until: int, handled: seq<Handled>, stopAfter: nat, n: nat)
    requires n <= |ids| <= |handled|
  {
    && Inv(s) && s.now == before.now && w in s.workers && s.workers[w] == ids[n..] && From(before.jobs, s.jobs)
    && ClaimedRows(before.jobs, s.jobs, ids, until, n) && OthersSame(before.jobs, s.jobs, ids)
    && HandledRows(before.jobs, s.jobs, ids, until, handled, stopAfter, before.now, n)
  }

  lemma {:induction false} MidwayMore(
    before: State, s: State, w: nat, ids: seq<nat>, until: int, handled: seq<Handled>, stopAfter: nat, n: nat)
    requires n < |ids| <= |handled| && until >= before.now
    requires Inv(before) && Distinct(ids) && AllDue(before.jobs, ids, before.now)
    requires Midway(before, s, w, ids, until, handled, stopAfter, n)
    ensures Midway(before, Next(s, BatchSteps(before, w, ids, until, handled, stopAfter)[n + 1]),
                   w, ids, until, handled, stopAfter, n + 1)
  {
    var id := ids[n];
    assert id in ids && Row(s.jobs, id) == Some(Claimed(before.jobs[id], until));
    var h := Ending(handled, stopAfter, n);
    var o := OutcomeOf(Claimed(before.jobs[id], until), h, before.now);
    assert BatchSteps(before, w, ids, until, handled, stopAfter)[n + 1] == Record(w, o);
    var hand := s.(workers := s.workers[w := ids[n..][1..]]);
    var next := Recorded(hand, id, o);
    RecordKeeps(s, w, o);
    RecordedHand(hand, id, o);
    NoDuplicate(before.jobs, s.jobs, id);
    RecordedRow(hand, id, h);
    OneHandled(before.jobs, s.jobs, next.jobs, ids, until, handled, stopAfter, before.now, n);
    StillFrom(before.jobs, s.jobs, next.jobs, id);
    assert ids[n..][1..] == ids[n + 1..];
  }

  lemma RecordedHand(s: State, id: nat, o: Outcome)
    requires UniqueLive(s.jobs)
    ensures Recorded(s, id, o).workers == s.workers && Recorded(s, id, o).now == s.now
  {
  }

  lemma {:induction false} JustClaimed(
    s: State, w: nat, ids: seq<nat>, until: int, handled: seq<Handled>, stopAfter: nat)
    requires |ids| <= |handled| && Inv(s) && Distinct(ids) && AllDue(s.jobs, ids, s.now) && w !in s.workers
    ensures Midway(s, Run(s, [Claim(w, ids, until)]), w, ids, until, handled, stopAfter, 0)
  {
    var claimed := ClaimStep(s, w, ids, until);
    ClaimKeeps(s, w, ids, until);
    assert [Claim(w, ids, until)][1..] == [];
    assert Run(s, [Claim(w, ids, until)]) == Run(claimed, []) == claimed;
    assert ids[0..] == ids;
  }

  lemma {:induction false} BatchRuns(
    s: State, w: nat, ids: seq<nat>, until: int, handled: seq<Handled>, stopAfter: nat, n: nat)
    requires n <= |ids| <= |handled| && until >= s.now
    requires Inv(s) && Distinct(ids) && AllDue(s.jobs, ids, s.now) && w !in s.workers
    ensures Midway(s, Run(s, BatchSteps(s, w, ids, until, handled, stopAfter)[..n + 1]),
                   w, ids, until, handled, stopAfter, n)
    decreases n
  {
    var steps := BatchSteps(s, w, ids, until, handled, stopAfter);
    if n == 0 {
      assert steps[..1] == [Claim(w, ids, until)];
      JustClaimed(s, w, ids, until, handled, stopAfter);
    } else {
      BatchRuns(s, w, ids, until, handled, stopAfter, n - 1);
      BatchRunsOn(s, w, ids, until, handled, stopAfter, n - 1, Run(s, steps[..n]));
    }
  }

  lemma BatchRunsOn(
      s: State, w: nat, ids: seq<nat>, until: int, handled: seq<Handled>, stopAfter: nat, n: nat, mid: State)
    requires n < |ids| <= |handled| && until >= s.now
    requires Inv(s) && Distinct(ids) && AllDue(s.jobs, ids, s.now)
    requires mid == Run(s, BatchSteps(s, w, ids, until, handled, stopAfter)[..n + 1])
    requires Midway(s, mid, w, ids, until, handled, stopAfter, n)
    ensures Midway(s, Run(s, BatchSteps(s, w, ids, until, handled, stopAfter)[..n + 2]),
                   w, ids, until, handled, stopAfter, n + 1)
  {
    var steps := BatchSteps(s, w, ids, until, handled, stopAfter);
    RunPrefix(s, steps, n + 1);
    MidwayMore(s, mid, w, ids, until, handled, stopAfter, n);
    assert Run(s, steps[..n + 2]) == Next(mid, steps[n + 1]);
  }

  // The table a batch leaves is the table of the queue's own steps.
  lemma {:induction false} BatchIsRun(
    s: State, w: nat, ids: seq<nat>, until: int, handled: seq<Handled>, stopAfter: nat, jobs: Jobs)
    requires |ids| <= |handled| && until >= s.now
    requires Inv(s) && Distinct(ids) && AllDue(s.jobs, ids, s.now) && w !in s.workers
    requires HandledRows(s.jobs, jobs, ids, until, handled, stopAfter, s.now, |ids|) && OthersSame(s.jobs, jobs, ids)
    ensures Run(s, BatchSteps(s, w, ids, until, handled, stopAfter)).jobs == jobs
  {
    var steps := BatchSteps(s, w, ids, until, handled, stopAfter);
    BatchRuns(s, w, ids, until, handled, stopAfter, |ids|);
    assert steps[..|ids| + 1] == steps;
    var end := Run(s, steps).jobs;
    forall id: nat
      ensures Row(end, id) == Row(jobs, id)
    {
      if id in ids {
        var k :| 0 <= k < |ids| && ids[k] == id;
        assert Row(end, ids[k]) == Row(jobs, ids[k]);
      }
    }
    SameRows(end, jobs);
  }

  // What a finished batch means: no claimed row keeps its lease, and a job
  // handed back on shutdown has neither lease nor attempt counted.
  lemma BatchReturnsLeases(
      before: Jobs, jobs: Jobs, ids: seq<nat>, until: int, handled: seq<Handled>, stopAfter: nat, now: int, i: nat)
    requires i < |ids| <= |handled| && HandledRows(before, jobs, ids, until, handled, stopAfter, now, |ids|)
    requires until >= now
    ensures ids[i] in jobs ==> jobs[ids[i]].lockedUntil == None
    ensures i >= stopAfter ==> ids[i] in before && Row(jobs, ids[i]) == Some(before[ids[i]].(lockedUntil := None))
  {
    assert ids[i] in before;
    assert Row(jobs, ids[i]) == After(Claimed(before[ids[i]], until), Ending(handled, stopAfter, i), now, false);
  }

  lemma StillFrom(before: Jobs, was: Jobs, jobs: Jobs, id: nat)
    requires From(before, was) && id in before && Live(before[id])
    requires forall other :: other != id ==> Row(jobs, other) == Row(was, other)
    requires Row(jobs, id).Some? ==> Row(jobs, id).value.key == before[id].key
    ensures From(before, jobs)
  {
    forall k | k in jobs
      ensures k in before && jobs[k].key == before[k].key && (Live(jobs[k]) ==> Live(before[k]))
    {
      if k != id {
        assert Row(jobs, k) == Row(was, k);
      } else {
        assert Row(jobs, id) == Some(jobs[id]);
      }
    }
  }
}
