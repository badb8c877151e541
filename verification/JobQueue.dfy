/**
 * The job queue as a state machine: enqueues, claims, outcomes, shutdown
 * releases, expiry and crashed workers in any interleaving. A step is one
 * statement against the jobs table.
 */
module JobQueue {
  import opened Basics
  import opened Options
  import opened Calendar
  import opened Sorting

  const MAX_ATTEMPTS := 8
  const DEAD_FOR := 7 * DAY

  datatype Key = Key(kind: string, project: int, args: string)
  datatype Job = Job(
    key: Key, runAfter: int, attempts: int, lockedUntil: Option<int>, lastError: Option<string>, created: int)

  type Jobs = map<nat, Job>

  /* ---- the statements ---- */

  predicate Live(j: Job) {
    j.attempts < MAX_ATTEMPTS
  }

  predicate LiveAs(j: Job, key: Key) {
    Live(j) && j.key == key
  }

  predicate HasLive(jobs: Jobs, key: Key) {
    exists id :: id in jobs && LiveAs(jobs[id], key)
  }

  // ON CONFLICT on jobs_pending: the live job is pulled forward.
  function Enqueued(jobs: Jobs, next: nat, key: Key, runAfter: int, now: int): Jobs {
    if HasLive(jobs, key) then
      map id | id in jobs ::
        if LiveAs(jobs[id], key) then jobs[id].(runAfter := Min(jobs[id].runAfter, runAfter)) else jobs[id]
    else jobs[next := Job(key, runAfter, 0, None, None, now)]
  }

  predicate Due(j: Job, now: int) {
    j.runAfter <= now && (j.lockedUntil.None? || j.lockedUntil.value < now) && Live(j)
  }

  function Claimed(j: Job, until: int): Job {
    j.(lockedUntil := Some(until), attempts := j.attempts + 1)
  }

  function ClaimedAll(jobs: Jobs, pick: set<nat>, until: int): Jobs {
    map id | id in jobs :: if id in pick then Claimed(jobs[id], until) else jobs[id]
  }

  function Retried(jobs: Jobs, id: nat, error: string, runAfter: int): Jobs {
    if id !in jobs then jobs
    else jobs[id := jobs[id].(lastError := Some(error), runAfter := runAfter, lockedUntil := None)]
  }

  predicate Leased(j: Job, now: int) {
    j.lockedUntil.Some? && j.lockedUntil.value >= now
  }

  predicate HasOtherLive(jobs: Jobs, id: nat)
    requires id in jobs
  {
    exists other :: other in jobs && other != id && LiveAs(jobs[other], jobs[id].key)
  }

  // ReleaseJob: give the lease and the attempt back, or drop the row when a
  // newer duplicate is live.
  function Released(jobs: Jobs, id: nat, now: int): Jobs {
    if id !in jobs || !Leased(jobs[id], now) then jobs
    else if HasOtherLive(jobs, id) then jobs - {id}
    else jobs[id := jobs[id].(lockedUntil := None,
           attempts := if jobs[id].attempts > 0 then jobs[id].attempts - 1 else 0)]
  }

  predicate Expired(j: Job, now: int) {
    j.attempts >= MAX_ATTEMPTS && j.created < now - DEAD_FOR
  }

  /* ---- the state machine ---- */

  // Why a row left the table.
  datatype Why = Succeeded | UnknownKind | SupersededBy(other: nat) | Died
  datatype Exit = Exit(id: nat, why: Why)

  // A worker's hand: the jobs it has claimed and not yet recorded. keys,
  // claims and exits are history.
  datatype State = State(
    jobs: Jobs,
    workers: map<nat, seq<nat>>,
    now: int,
    keys: seq<Key>,
    claims: map<nat, nat>,
    exits: seq<Exit>)

  // Unrecorded: the statement failed, and the worker goes on with its batch.
  datatype Outcome = Success | NoHandler | Failure(error: string, runAfter: int) | Cancelled | Unrecorded

  datatype Step =
    | Tick(t: int)
    | Enqueue(batch: seq<(Key, int)>)
    | Claim(w: nat, pick: seq<nat>, until: int)
    | Record(w: nat, outcome: Outcome)
    | Crash(w: nat)
    | Expire

  function EnqueueOne(s: State, key: Key, runAfter: int): State {
    s.(jobs := Enqueued(s.jobs, |s.keys|, key, runAfter, s.now),
       keys := if HasLive(s.jobs, key) then s.keys else s.keys + [key])
  }

  function EnqueueAll(s: State, batch: seq<(Key, int)>): State
    decreases |batch|
  {
    if batch == [] then s else EnqueueAll(EnqueueOne(s, batch[0].0, batch[0].1), batch[1..])
  }

  predicate DistinctKeys(batch: seq<(Key, int)>) {
    forall i, j :: 0 <= i < j < |batch| ==> batch[i].0 != batch[j].0
  }

  // One statement cannot update a row twice: it fails as a whole.
  function EnqueueStep(s: State, batch: seq<(Key, int)>): State {
    if DistinctKeys(batch) then EnqueueAll(s, batch) else s
  }

  predicate Distinct(ids: seq<nat>) {
    forall i, j :: 0 <= i < j < |ids| ==> ids[i] != ids[j]
  }

  predicate AllDue(jobs: Jobs, pick: seq<nat>, now: int) {
    forall id :: id in pick ==> id in jobs && Due(jobs[id], now)
  }

  function IdSet(ids: seq<nat>): set<nat> {
    set id | id in ids
  }

  function Claims(claims: map<nat, nat>, id: nat): nat {
    if id in claims then claims[id] else 0
  }

  // SKIP LOCKED: any of the due jobs.
  function ClaimStep(s: State, w: nat, pick: seq<nat>, until: int): State {
    if w in s.workers || !Distinct(pick) || !AllDue(s.jobs, pick, s.now) then s
    else
      s.(jobs := ClaimedAll(s.jobs, IdSet(pick), until),
         workers := s.workers[w := pick],
         claims := map id | id in s.claims.Keys + IdSet(pick) :: Claims(s.claims, id) + if id in pick then 1 else 0)
  }

  function Leave(s: State, id: nat, why: Why): State {
    if id !in s.jobs then s else s.(jobs := s.jobs - {id}, exits := s.exits + [Exit(id, why)])
  }

  // Some live duplicate of the job.
  function OtherLive(jobs: Jobs, id: nat): (other: nat)
    requires id in jobs && HasOtherLive(jobs, id) && UniqueLive(jobs)
    ensures other in jobs && other != id && LiveAs(jobs[other], jobs[id].key)
  {
    var other :| other in jobs && other != id && LiveAs(jobs[other], jobs[id].key);
    other
  }

  function ReleaseStep(s: State, id: nat): State
    requires UniqueLive(s.jobs)
  {
    if id in s.jobs && Leased(s.jobs[id], s.now) && HasOtherLive(s.jobs, id) then
      Leave(s, id, SupersededBy(OtherLive(s.jobs, id)))
    else s.(jobs := Released(s.jobs, id, s.now))
  }

  function Recorded(s: State, id: nat, outcome: Outcome): State
    requires UniqueLive(s.jobs)
  {
    match outcome
    case Success => Leave(s, id, Succeeded)
    case NoHandler => Leave(s, id, UnknownKind)
    case Failure(error, runAfter) => s.(jobs := Retried(s.jobs, id, error, runAfter))
    case Cancelled => ReleaseStep(s, id)
    case Unrecorded => s
  }

  // The worker's first unrecorded job; an empty hand is put down.
  function RecordStep(s: State, w: nat, outcome: Outcome): State
    requires UniqueLive(s.jobs)
  {
    if w !in s.workers then s
    else if s.workers[w] == [] then s.(workers := s.workers - {w})
    else Recorded(s.(workers := s.workers[w := s.workers[w][1..]]), s.workers[w][0], outcome)
  }

  function ExpiredIds(jobs: Jobs, now: int): set<nat> {
    set id | id in jobs && Expired(jobs[id], now)
  }

  // DELETE of several rows.
  function LeaveAll(s: State, ids: seq<nat>): State
    decreases |ids|
  {
    if ids == [] then s else LeaveAll(Leave(s, ids[0], Died), ids[1..])
  }

  function Next(s: State, step: Step): State
    requires UniqueLive(s.jobs)
  {
    match step
    case Tick(t) => if t > s.now then s.(now := t) else s
    case Enqueue(batch) => EnqueueStep(s, batch)
    case Claim(w, pick, until) => ClaimStep(s, w, pick, until)
    case Record(w, outcome) => RecordStep(s, w, outcome)
    case Crash(w) => s.(workers := s.workers - {w})
    case Expire => LeaveAll(s, Sorted(ExpiredIds(s.jobs, s.now), NatBelow))
  }

  /* ---- the invariant ---- */

  // The unique index jobs_pending.
  predicate UniqueLive(jobs: Jobs) {
    forall a, b :: a in jobs && b in jobs && a != b && Live(jobs[a]) && Live(jobs[b]) ==> jobs[a].key != jobs[b].key
  }

  predicate AttemptsOk(jobs: Jobs) {
    forall id :: id in jobs ==> 0 <= jobs[id].attempts <= MAX_ATTEMPTS
  }

  predicate InExits(exits: seq<Exit>, id: nat) {
    exists i :: 0 <= i < |exits| && exits[i].id == id
  }

  // Every id handed out is a row, with its key, or has left.
  predicate Accounted(s: State) {
    && (forall id :: id in s.jobs ==> id < |s.keys| && s.jobs[id].key == s.keys[id])
    && (forall id: nat :: id < |s.keys| ==> id in s.jobs || InExits(s.exits, id))
  }

  predicate ExitOk(s: State, i: nat)
    requires i < |s.exits|
  {
    var e := s.exits[i];
    && e.id < |s.keys| && e.id !in s.jobs
    && (e.why.SupersededBy? ==>
          e.why.other < |s.keys| && s.keys[e.why.other] == s.keys[e.id] && !InExits(s.exits[..i + 1], e.why.other))
    && (e.why.Died? ==> Claims(s.claims, e.id) >= MAX_ATTEMPTS)
  }

  predicate ExitsOk(s: State) {
    forall i: nat :: i < |s.exits| ==> ExitOk(s, i)
  }

  // Every attempt was counted by a claim.
  predicate ClaimsOk(s: State) {
    forall id :: id in s.jobs ==> s.jobs[id].attempts <= Claims(s.claims, id)
  }

  predicate Inv(s: State) {
    UniqueLive(s.jobs) && AttemptsOk(s.jobs) && Accounted(s) && ExitsOk(s) && ClaimsOk(s)
  }

  /* ---- every step keeps it ---- */

  // A step that only changes rows in place or adds new ones.
  ghost predicate Extends(s: State, s': State) {
    && s'.exits == s.exits && s.keys <= s'.keys
    && (forall id :: id in s.jobs ==> id in s'.jobs)
    && (forall id :: id in s'.jobs ==> id in s.jobs || id >= |s.keys|)
    && (forall id :: Claims(s.claims, id) <= Claims(s'.claims, id))
  }

  lemma ExtendsExits(s: State, s': State)
    requires ExitsOk(s) && Extends(s, s')
    ensures ExitsOk(s')
  {
    forall i: nat | i < |s'.exits|
      ensures ExitOk(s', i)
    {
      assert ExitOk(s, i);
    }
  }

  lemma EnqueueOneKeeps(s: State, key: Key, runAfter: int)
    requires Inv(s)
    ensures Inv(EnqueueOne(s, key, runAfter))
  {
    EnqueuedUnique(s.jobs, |s.keys|, key, runAfter, s.now);
    ExtendsExits(s, EnqueueOne(s, key, runAfter));
    EnqueueAccounted(s, key, runAfter);
  }

  lemma EnqueuedUnique(jobs: Jobs, next: nat, key: Key, runAfter: int, now: int)
    requires UniqueLive(jobs)
    ensures UniqueLive(Enqueued(jobs, next, key, runAfter, now))
  {
  }

  lemma EnqueueAccounted(s: State, key: Key, runAfter: int)
    requires Accounted(s)
    ensures Accounted(EnqueueOne(s, key, runAfter))
  {
    var after := EnqueueOne(s, key, runAfter);
    if !HasLive(s.jobs, key) {
      assert forall id: nat :: id < |s.keys| ==> after.keys[id] == s.keys[id];
    }
  }

  // Some row of the key is live and due by the time.
  ghost predicate LiveBy(jobs: Jobs, key: Key, latest: int) {
    exists id :: id in jobs && LiveAs(jobs[id], key) && jobs[id].runAfter <= latest
  }

  // What an enqueue promises its caller: the work is queued, no later than asked.
  lemma EnqueueOneIsLive(s: State, key: Key, runAfter: int)
    ensures LiveBy(EnqueueOne(s, key, runAfter).jobs, key, runAfter)
  {
    var jobs := EnqueueOne(s, key, runAfter).jobs;
    if HasLive(s.jobs, key) {
      var id :| id in s.jobs && LiveAs(s.jobs[id], key);
      assert id in jobs && LiveAs(jobs[id], key) && jobs[id].runAfter <= runAfter;
    } else {
      assert |s.keys| in jobs && LiveAs(jobs[|s.keys|], key);
    }
  }

  // A key already live only has its row pulled forward; another gets one new row.
  lemma EnqueuedIs(jobs: Jobs, next: nat, key: Key, runAfter: int, now: int)
    requires next !in jobs
    ensures var after := Enqueued(jobs, next, key, runAfter, now);
      if HasLive(jobs, key) then
        && after.Keys == jobs.Keys
        && forall id :: id in jobs ==>
             && after[id].(runAfter := jobs[id].runAfter) == jobs[id]
             && after[id].runAfter ==
                  if jobs[id].key == key && jobs[id].attempts < 8 && runAfter < jobs[id].runAfter then runAfter
                  else jobs[id].runAfter
      else next in after && after[next] == Job(key, runAfter, 0, None, None, now) && after - {next} == jobs
  {
  }

  lemma LiveStays(s: State, key: Key, runAfter: int, other: Key, latest: int)
    requires |s.keys| !in s.jobs
    requires LiveBy(s.jobs, other, latest)
    ensures LiveBy(EnqueueOne(s, key, runAfter).jobs, other, latest)
  {
    var id :| id in s.jobs && LiveAs(s.jobs[id], other) && s.jobs[id].runAfter <= latest;
    var jobs := EnqueueOne(s, key, runAfter).jobs;
    assert id in jobs && LiveAs(jobs[id], other) && jobs[id].runAfter <= latest;
  }

  // A whole batch is live after its statement, each job due no later than asked.
  lemma {:induction false} EnqueueAllAreLive(s: State, batch: seq<(Key, int)>, i: nat)
    requires Inv(s) && i < |batch|
    ensures LiveBy(EnqueueAll(s, batch).jobs, batch[i].0, batch[i].1)
    decreases |batch|
  {
    EnqueueOneKeeps(s, batch[0].0, batch[0].1);
    var one := EnqueueOne(s, batch[0].0, batch[0].1);
    if i > 0 {
      EnqueueAllAreLive(one, batch[1..], i - 1);
    } else {
      EnqueueOneIsLive(s, batch[0].0, batch[0].1);
      LiveThrough(one, batch[1..], batch[0].0, batch[0].1);
    }
  }

  // A statement that names a key twice fails as a whole; any other leaves all its jobs
  // live.
  lemma {:induction false} EnqueueStepIs(s: State, batch: seq<(Key, int)>)
    requires Inv(s)
    ensures if exists i, j :: 0 <= i < j < |batch| && batch[i].0 == batch[j].0 then EnqueueStep(s, batch) == s
      else forall i :: 0 <= i < |batch| ==> LiveBy(EnqueueStep(s, batch).jobs, batch[i].0, batch[i].1)
  {
    if DistinctKeys(batch) {
      forall i | 0 <= i < |batch|
        ensures LiveBy(EnqueueAll(s, batch).jobs, batch[i].0, batch[i].1)
      {
        EnqueueAllAreLive(s, batch, i);
      }
    }
  }

  lemma {:induction false} LiveThrough(s: State, batch: seq<(Key, int)>, key: Key, latest: int)
    requires Inv(s)
    requires LiveBy(s.jobs, key, latest)
    ensures LiveBy(EnqueueAll(s, batch).jobs, key, latest)
    decreases |batch|
  {
    if batch != [] {
      LiveStays(s, batch[0].0, batch[0].1, key, latest);
      EnqueueOneKeeps(s, batch[0].0, batch[0].1);
      LiveThrough(EnqueueOne(s, batch[0].0, batch[0].1), batch[1..], key, latest);
    }
  }

  lemma {:induction false} EnqueueAllKeeps(s: State, batch: seq<(Key, int)>)
    requires Inv(s)
    ensures Inv(EnqueueAll(s, batch))
    decreases |batch|
  {
    if batch != [] {
      EnqueueOneKeeps(s, batch[0].0, batch[0].1);
      EnqueueAllKeeps(EnqueueOne(s, batch[0].0, batch[0].1), batch[1..]);
    }
  }

  lemma ClaimKeeps(s: State, w: nat, pick: seq<nat>, until: int)
    requires Inv(s)
    ensures Inv(ClaimStep(s, w, pick, until))
  {
    var s' := ClaimStep(s, w, pick, until);
    ExtendsExits(s, s');
    ClaimedUnique(s.jobs, IdSet(pick), until);
  }

  lemma ClaimedUnique(jobs: Jobs, pick: set<nat>, until: int)
    requires UniqueLive(jobs)
    ensures UniqueLive(ClaimedAll(jobs, pick, until))
  {
  }

  lemma LeaveExits(s: State, id: nat, why: Why)
    requires Inv(s) && id in s.jobs
    requires why.SupersededBy? ==> why.other in s.jobs && why.other != id && s.jobs[why.other].key == s.jobs[id].key
    requires why.Died? ==> s.jobs[id].attempts >= MAX_ATTEMPTS
    ensures ExitsOk(Leave(s, id, why))
  {
    var s' := Leave(s, id, why);
    forall i: nat | i < |s'.exits|
      ensures ExitOk(s', i)
    {
      if i < |s.exits| {
        assert ExitOk(s, i);
        assert s'.exits[..i + 1] == s.exits[..i + 1];
      } else {
        assert s'.exits[..i + 1] == s'.exits;
        forall j | 0 <= j < |s.exits|
          ensures s.exits[j].id !in s.jobs
        {
          assert ExitOk(s, j);
        }
      }
    }
  }

  lemma LeaveAccounted(s: State, id: nat, why: Why)
    requires Accounted(s)
    ensures Accounted(Leave(s, id, why))
  {
    var s' := Leave(s, id, why);
    forall k: nat | k < |s'.keys|
      ensures k in s'.jobs || InExits(s'.exits, k)
    {
      if InExits(s.exits, k) {
        var i :| 0 <= i < |s.exits| && s.exits[i].id == k;
        assert s'.exits[i].id == k;
      } else if k == id {
        assert id in s.jobs ==> s'.exits[|s.exits|].id == k;
      }
    }
  }

  lemma LeaveKeeps(s: State, id: nat, why: Why)
    requires Inv(s)
    requires id in s.jobs && why.SupersededBy? ==>
      why.other in s.jobs && why.other != id && s.jobs[why.other].key == s.jobs[id].key
    requires id in s.jobs && why.Died? ==> s.jobs[id].attempts >= MAX_ATTEMPTS
    ensures Inv(Leave(s, id, why))
  {
    if id in s.jobs {
      LeaveExits(s, id, why);
      LeaveAccounted(s, id, why);
    }
  }

  lemma RetriedKeeps(s: State, id: nat, error: string, runAfter: int)
    requires Inv(s)
    ensures Inv(s.(jobs := Retried(s.jobs, id, error, runAfter)))
  {
    ExtendsExits(s, s.(jobs := Retried(s.jobs, id, error, runAfter)));
  }

  // Un-counting an attempt makes a dead row live again: no live duplicate is
  // there to collide with.
  lemma ReleaseKeeps(s: State, id: nat)
    requires Inv(s)
    ensures Inv(ReleaseStep(s, id))
  {
    if id in s.jobs && Leased(s.jobs[id], s.now) && HasOtherLive(s.jobs, id) {
      LeaveKeeps(s, id, SupersededBy(OtherLive(s.jobs, id)));
    } else {
      ReleasedUnique(s.jobs, id, s.now);
      ExtendsExits(s, s.(jobs := Released(s.jobs, id, s.now)));
    }
  }

  lemma ReleasedUnique(jobs: Jobs, id: nat, now: int)
    requires UniqueLive(jobs)
    ensures UniqueLive(Released(jobs, id, now))
  {
    var jobs' := Released(jobs, id, now);
    forall a, b | a in jobs' && b in jobs' && a != b && Live(jobs'[a]) && Live(jobs'[b])
      ensures jobs'[a].key != jobs'[b].key
    {
      if a == id && jobs'[a] != jobs[a] {
        assert !LiveAs(jobs[b], jobs[id].key);
      } else if b == id && jobs'[b] != jobs[b] {
        assert !LiveAs(jobs[a], jobs[id].key);
      }
    }
  }

  lemma RecordKeeps(s: State, w: nat, outcome: Outcome)
    requires Inv(s)
    ensures Inv(RecordStep(s, w, outcome))
  {
    if w in s.workers {
      if s.workers[w] == [] {
        ExtendsExits(s, s.(workers := s.workers - {w}));
      } else {
        var s' := s.(workers := s.workers[w := s.workers[w][1..]]);
        ExtendsExits(s, s');
        match outcome
        case Success => LeaveKeeps(s', s.workers[w][0], Succeeded);
        case NoHandler => LeaveKeeps(s', s.workers[w][0], UnknownKind);
        case Failure(error, runAfter) => RetriedKeeps(s', s.workers[w][0], error, runAfter);
        case Cancelled => ReleaseKeeps(s', s.workers[w][0]);
        case Unrecorded =>
      }
    }
  }

  lemma {:induction false} LeaveAllKeeps(s: State, ids: seq<nat>)
    requires Inv(s) && forall id :: id in ids && id in s.jobs ==> s.jobs[id].attempts >= MAX_ATTEMPTS
    ensures Inv(LeaveAll(s, ids))
    decreases |ids|
  {
    if ids != [] {
      LeaveKeeps(s, ids[0], Died);
      LeaveAllKeeps(Leave(s, ids[0], Died), ids[1..]);
    }
  }

  lemma NextKeeps(s: State, step: Step)
    requires Inv(s)
    ensures Inv(Next(s, step))
  {
    match step
    case Tick(t) => ExtendsExits(s, Next(s, step));
    case Enqueue(batch) => EnqueueAllKeeps(s, batch);
    case Claim(w, pick, until) => ClaimKeeps(s, w, pick, until);
    case Record(w, outcome) => RecordKeeps(s, w, outcome);
    case Crash(w) => ExtendsExits(s, Next(s, step));
    case Expire => LeaveAllKeeps(s, Sorted(ExpiredIds(s.jobs, s.now), NatBelow));
  }

  function Run(s: State, steps: seq<Step>): (end: State)
    requires Inv(s)
    ensures Inv(end)
    decreases |steps|
  {
    if steps == [] then s
    else
      NextKeeps(s, steps[0]);
      Run(Next(s, steps[0]), steps[1..])
  }

  function Init(now: int): (s: State)
    ensures Inv(s)
  {
    State(map[], map[], now, [], map[], [])
  }

  /* ---- the theorems ---- */

  // In every state of every run: at most one live row per (kind, project, args),
  // and no more than eight attempts.
  lemma OneLiveRowPerKey(now: int, steps: seq<Step>, a: nat, b: nat)
    requires var jobs := Run(Init(now), steps).jobs;
      a in jobs && b in jobs && jobs[a].key == jobs[b].key && Live(jobs[a]) && Live(jobs[b])
    ensures a == b
    ensures 0 <= Run(Init(now), steps).jobs[a].attempts <= MAX_ATTEMPTS
  {
    assert Inv(Run(Init(now), steps));
  }

  // Settled: still a row, or left by its handler's success, as an unknown kind,
  // or dead after at least eight claims.
  predicate Settled(s: State, id: nat) {
    || id in s.jobs
    || (exists i :: 0 <= i < |s.exits| && s.exits[i].id == id &&
          (s.exits[i].why.Succeeded? || s.exits[i].why.UnknownKind? ||
           (s.exits[i].why.Died? && Claims(s.claims, id) >= MAX_ATTEMPTS)))
  }

  lemma {:induction false} ChainSettles(s: State, i: nat) returns (id: nat)
    requires Inv(s) && i < |s.exits|
    ensures s.exits[i].id < |s.keys| && id < |s.keys| && s.keys[id] == s.keys[s.exits[i].id] && Settled(s, id)
    decreases |s.exits| - i
  {
    var e := s.exits[i];
    assert ExitOk(s, i);
    id := e.id;
    if e.why.SupersededBy? {
      var other := e.why.other;
      if other in s.jobs {
        id := other;
      } else {
        assert InExits(s.exits, other);
        assert forall k: nat :: k <= i ==> s.exits[..i + 1][k] == s.exits[k];
        var j: nat :| j < |s.exits| && s.exits[j].id == other;
        id := ChainSettles(s, j);
      }
    }
  }

  // No enqueued work is silently lost: in every state of every run each row ever
  // inserted is settled, or gave way to a duplicate of the same key that is.
  lemma NoWorkIsLost(now: int, steps: seq<Step>, id: nat) returns (settled: nat)
    requires id < |Run(Init(now), steps).keys|
    ensures var s := Run(Init(now), steps);
      settled < |s.keys| && s.keys[settled] == s.keys[id] && Settled(s, settled)
  {
    var s := Run(Init(now), steps);
    assert Inv(s);
    settled := id;
    if id !in s.jobs {
      assert InExits(s.exits, id);
      var i: nat :| i < |s.exits| && s.exits[i].id == id;
      settled := ChainSettles(s, i);
    }
  }
}
