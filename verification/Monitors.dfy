/** Monitor hysteresis: Record over a whole history of outcomes. */
module Monitors {
  import opened Options

  const INT32_MAX := 0x7fff_ffff

  // Go's int32 x + 1.
  function Plus1(x: int): int {
    if x == INT32_MAX then -0x8000_0000 else x + 1
  }

  datatype Transition = Transition(failures: int, successes: int, alerting: bool, failed: bool, recovered: bool)

  function Record(
      failures: int, successes: int, alerting: bool, failureThreshold: int, recoveryThreshold: int,
      ok: bool): Transition
  {
    var s := if ok then Plus1(successes) else 0;
    var f := if ok then 0 else Plus1(failures);
    if !alerting && f >= failureThreshold then Transition(f, s, true, true, false)
    else if alerting && s >= recoveryThreshold then Transition(f, s, false, false, true)
    else Transition(f, s, alerting, false, false)
  }

  // The thresholds of parseMonitorConfig: positive ones are taken over, absent
  // and other ones become the default.
  const DEFAULT_THRESHOLD := 1

  function Threshold(raw: Option<int>): (t: int)
    ensures t >= 1 && (raw.None? ==> t == 1) && (raw.Some? && raw.value >= 1 ==> t == raw.value)
  {
    if raw.Some? && raw.value > 0 then raw.value else DEFAULT_THRESHOLD
  }

  /* ---- a history, oldest first ---- */

  function After(history: seq<bool>, f: int, r: int): Transition
    decreases |history|
  {
    if history == [] then Transition(0, 0, false, false, false)
    else
      var t := After(history[..|history| - 1], f, r);
      Record(t.failures, t.successes, t.alerting, f, r, history[|history| - 1])
  }

  // A run of n equal outcomes ends just before position end.
  predicate RunEnds(history: seq<bool>, ok: bool, n: nat, end: nat) {
    n <= end <= |history| && forall i :: end - n <= i < end ==> history[i] == ok
  }

  // Some run of f failures ended later than every run of r successes.
  ghost predicate FailuresLast(history: seq<bool>, f: nat, r: nat) {
    exists end: nat :: RunEnds(history, false, f, end) &&
      forall later: nat :: end <= later ==> !RunEnds(history, true, r, later)
  }

  // The length of the last run.
  function Trailing(history: seq<bool>, ok: bool): (n: nat)
    ensures n <= |history|
    decreases |history|
  {
    if history == [] || history[|history| - 1] != ok then 0 else Trailing(history[..|history| - 1], ok) + 1
  }

  lemma {:induction false} TrailingIs(history: seq<bool>, ok: bool, n: nat)
    ensures RunEnds(history, ok, n, |history|) <==> n <= Trailing(history, ok)
    decreases |history|
  {
    if history != [] {
      var front := history[..|history| - 1];
      if n > 0 {
        TrailingIs(front, ok, n - 1);
        if history[|history| - 1] == ok {
          assert RunEnds(history, ok, n, |history|) <==> RunEnds(front, ok, n - 1, |front|) by {
            assert forall i :: 0 <= i < |front| ==> front[i] == history[i];
          }
        } else {
          assert |history| - n <= |history| - 1;
        }
      }
    }
  }

  // x in 32 bits.
  function Int32(x: int): int {
    (x + 0x8000_0000) % 0x1_0000_0000 - 0x8000_0000
  }

  lemma Int32Plus1(n: nat)
    ensures Plus1(Int32(n)) == Int32(n + 1) && Int32(0) == 0
  {
  }

  // The counters are the lengths of the last runs, in 32 bits.
  lemma {:induction false} CountersAreRuns(history: seq<bool>, f: int, r: int)
    ensures var t := After(history, f, r);
      && t.failures == Int32(Trailing(history, false))
      && t.successes == Int32(Trailing(history, true))
    decreases |history|
  {
    if history != [] {
      var front := history[..|history| - 1];
      CountersAreRuns(front, f, r);
      Int32Plus1(Trailing(front, false));
      Int32Plus1(Trailing(front, true));
    }
  }

  lemma RunsOfLonger(history: seq<bool>, x: bool, ok: bool, n: nat, end: nat)
    requires end <= |history|
    ensures RunEnds(history + [x], ok, n, end) <==> RunEnds(history, ok, n, end)
  {
    if n <= end {
      assert forall i :: 0 <= i < |history| ==> (history + [x])[i] == history[i];
    }
  }

  // A shorter history's last failure run counts until a run of successes ends.
  lemma LastCarriesOver(history: seq<bool>, x: bool, f: nat, r: nat)
    requires FailuresLast(history, f, r) && !RunEnds(history + [x], true, r, |history| + 1)
    ensures FailuresLast(history + [x], f, r)
  {
    var end: nat :| RunEnds(history, false, f, end) &&
      forall later: nat :: end <= later ==> !RunEnds(history, true, r, later);
    RunsOfLonger(history, x, false, f, end);
    forall later: nat | end <= later
      ensures !RunEnds(history + [x], true, r, later)
    {
      if later <= |history| {
        RunsOfLonger(history, x, true, r, later);
      }
    }
  }

  lemma LastCarriesBack(history: seq<bool>, x: bool, f: nat, r: nat)
    requires FailuresLast(history + [x], f, r) && !RunEnds(history + [x], false, f, |history| + 1)
    ensures FailuresLast(history, f, r)
  {
    var longer := history + [x];
    var end: nat :| RunEnds(longer, false, f, end) &&
      forall later: nat :: end <= later ==> !RunEnds(longer, true, r, later);
    RunsOfLonger(history, x, false, f, end);
    forall later: nat | end <= later
      ensures !RunEnds(history, true, r, later)
    {
      if later <= |history| {
        RunsOfLonger(history, x, true, r, later);
      }
    }
  }

  lemma LastRunAlerts(history: seq<bool>, f: nat, r: nat)
    requires r >= 1 && f >= 1 && RunEnds(history, false, f, |history|)
    ensures FailuresLast(history, f, r)
  {
    assert history[|history| - 1] == false;
    forall later: nat | |history| <= later
      ensures !RunEnds(history, true, r, later)
    {
    }
  }

  // One more outcome moves the condition as Record moves the flag.
  lemma FailuresLastStep(history: seq<bool>, x: bool, f: nat, r: nat)
    requires f >= 1 && r >= 1
    ensures FailuresLast(history + [x], f, r) <==>
      if Trailing(history + [x], false) >= f then true
      else if Trailing(history + [x], true) >= r then false
      else FailuresLast(history, f, r)
  {
    var longer := history + [x];
    TrailingIs(longer, false, f);
    TrailingIs(longer, true, r);
    if RunEnds(longer, false, f, |longer|) {
      LastRunAlerts(longer, f, r);
    } else if !RunEnds(longer, true, r, |longer|) {
      if FailuresLast(history, f, r) {
        LastCarriesOver(history, x, f, r);
      }
      if FailuresLast(longer, f, r) {
        LastCarriesBack(history, x, f, r);
      }
    }
  }

  lemma LastRunDecides(history: seq<bool>, f: nat, r: nat)
    requires f >= 1 && r >= 1
    ensures Trailing(history, false) >= f ==> FailuresLast(history, f, r)
    ensures Trailing(history, true) >= r ==> !FailuresLast(history, f, r)
  {
    if history != [] {
      var front, x := history[..|history| - 1], history[|history| - 1];
      assert history == front + [x];
      FailuresLastStep(front, x, f, r);
      assert Trailing(history, false) == 0 || Trailing(history, true) == 0;
    }
  }

  // A monitor is alerting after a history exactly when some run of failures of
  // the threshold's length ended later than every such run of successes. The
  // counters may wrap around in a long run; by then it has decided.
  lemma {:induction false} AlertingIff(history: seq<bool>, f: nat, r: nat)
    requires 1 <= f <= INT32_MAX && 1 <= r <= INT32_MAX
    ensures After(history, f, r).alerting <==> FailuresLast(history, f, r)
    decreases |history|
  {
    if history == [] {
      assert forall end: nat :: !RunEnds(history, false, f, end);
    } else {
      var front, x := history[..|history| - 1], history[|history| - 1];
      assert history == front + [x];
      AlertingIff(front, f, r);
      LastRunDecides(front, f, r);
      CountersAreRuns(history, f, r);
      FailuresLastStep(front, x, f, r);
      AlertingStep(front, x, f, r);
    }
  }

  lemma AlertingStep(front: seq<bool>, x: bool, f: nat, r: nat)
    requires 1 <= f <= INT32_MAX && 1 <= r <= INT32_MAX
    requires var t := After(front + [x], f, r);
      && (Trailing(front + [x], false) <= INT32_MAX ==> t.failures == Trailing(front + [x], false))
      && (Trailing(front + [x], true) <= INT32_MAX ==> t.successes == Trailing(front + [x], true))
    requires After(front, f, r).alerting <==> FailuresLast(front, f, r)
    requires Trailing(front, false) >= f ==> FailuresLast(front, f, r)
    requires Trailing(front, true) >= r ==> !FailuresLast(front, f, r)
    ensures After(front + [x], f, r).alerting <==>
      if Trailing(front + [x], false) >= f then true
      else if Trailing(front + [x], true) >= r then false
      else FailuresLast(front, f, r)
  {
    assert (front + [x])[..|front|] == front;
  }

  /* ---- Failed and Recovered ---- */

  // The one-shot signals of a history: true for Failed, false for Recovered.
  function Signals(history: seq<bool>, f: int, r: int): seq<bool>
    decreases |history|
  {
    if history == [] then []
    else
      var before := Signals(history[..|history| - 1], f, r);
      var t := After(history, f, r);
      if t.failed then before + [true] else if t.recovered then before + [false] else before
  }

  // They alternate, starting with Failed, and the last says whether the monitor
  // is alerting -- whatever the thresholds.
  lemma {:induction false} SignalsAlternate(history: seq<bool>, f: int, r: int)
    ensures var s := Signals(history, f, r);
      && (forall i :: 0 <= i < |s| ==> s[i] == (i % 2 == 0))
      && (After(history, f, r).alerting <==> |s| % 2 == 1)
    decreases |history|
  {
    if history != [] {
      SignalsAlternate(history[..|history| - 1], f, r);
    }
  }

  // Why the parser's thresholds matter: with a failure threshold below one a
  // monitor that has only ever succeeded is alerting.
  lemma ThresholdBelowOneAlerts(f: int)
    ensures After([true], f, 1).alerting <==> f < 1
  {
    assert [true][..0] == [];
  }
}
