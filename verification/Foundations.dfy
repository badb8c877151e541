/** An optional value: a nullable column, a missing row, a failed read. */
module Options {
  datatype Option<+T> = None | Some(value: T)
}

/** Times are integers: microseconds since the Go zero time, Monday 1 January of year 1, 00:00 UTC. */
module Calendar {
  const MICROSECOND := 1
  const SECOND := 1_000_000
  const HOUR := 3600 * SECOND
  const DAY := 24 * HOUR
  const WEEK := 7 * DAY

  // t.Truncate(d) for UTC times.
  function Truncate(t: int, d: int): int
    requires d > 0
  {
    t - t % d
  }

  // Go's time.Weekday: Sunday is 0. Day 0 is a Monday.
  function Weekday(t: int): int {
    (t / DAY + 1) % 7
  }

  // retention.weekStart: the midnight of t, minus the days since Monday.
  function WeekStart(t: int): int {
    Truncate(t, DAY) - (Weekday(Truncate(t, DAY)) + 6) % 7 * DAY
  }

  // dropExpiredPartitions: a week that ends before the cutoff.
  predicate WeekExpired(week: int, cutoff: int) {
    week + WEEK <= cutoff
  }

  // week + 7 <= cutoff::date, the rule for packs; for the spool the week is
  // date_trunc('week', occurred_at). Dates are midnights here, in UTC.
  predicate SweepRule(week: int, cutoff: int) {
    week + WEEK <= Truncate(cutoff, DAY)
  }

  // ExpireIssues: a resolved or ignored issue last seen before the oldest
  // surviving week, or any issue last seen four retentions ago.
  const STALE_ISSUE_FACTOR := 4

  function IssueCutoff(settled: bool, swept: int, retention: int): int {
    if settled then WeekStart(swept - retention) else swept - STALE_ISSUE_FACTOR * retention
  }

  // The hour bucket of a time.
  function HourOf(t: int): int {
    Truncate(t, HOUR)
  }

  lemma {:induction false} WeekStartIsMonday(t: int)
    ensures WeekStart(t) == t / WEEK * WEEK
    ensures WeekStart(t) % WEEK == 0 && WeekStart(t) <= t < WeekStart(t) + WEEK
  {
    var day := t / DAY;
    assert Truncate(t, DAY) == day * DAY;
    assert (Weekday(day * DAY) + 6) % 7 == day % 7 by {
      assert day * DAY / DAY == day;
    }
    assert day == day / 7 * 7 + day % 7;
    assert t / WEEK == day / 7;
  }

  lemma {:induction false} WeekStartMonotone(a: int, b: int)
    requires a <= b
    ensures WeekStart(a) <= WeekStart(b)
  {
    WeekStartIsMonday(a);
    WeekStartIsMonday(b);
    MondaysInOrder(WeekStart(a), a, WeekStart(b), b);
  }

  lemma MondaysInOrder(x: int, a: int, y: int, b: int)
    requires x % WEEK == 0 && y % WEEK == 0 && x <= a < x + WEEK && y <= b < y + WEEK && a <= b
    ensures x <= y
  {
  }

  lemma {:induction false} SameWeek(t: int, start: int)
    requires start % WEEK == 0 && start <= t < start + WEEK
    ensures WeekStart(t) == start
  {
    WeekStartIsMonday(t);
  }
}

/** What the tables share. */
module Tables {
  type Fingerprint = nat
  datatype Level = Fatal | Error | Warning | Info | Debug

  // The key of an event row.
  datatype EventKey = EventKey(project: int, at: int, id: nat)
}

/** The blob store. */
module Blobs {
  // How a Put ends: an unacknowledged one has written the object all the same.
  datatype PutOutcome = PutDone | PutRefused | PutUnacknowledged
}

/** Small facts about numbers and sequences. */
module Basics {
  function Min(a: int, b: int): int {
    if b < a then b else a
  }

  function Max(a: int, b: int): int {
    if a < b then b else a
  }

  predicate Below(a: int, b: int) {
    a < b
  }

  predicate NatBelow(a: nat, b: nat) {
    a < b
  }

  lemma Regroup<T>(a: seq<T>, b: seq<T>, c: seq<T>)
    ensures a + b + c == a + (b + c)
  {
  }
}

/** Sizes of finite sets. */
module Sizes {
  lemma {:induction false} SubsetSize<T>(a: set<T>, b: set<T>)
    requires a <= b
    ensures |a| <= |b|
  {
    if a != {} {
      var x :| x in a;
      SubsetSize(a - {x}, b - {x});
    }
  }
}

/** Finite sets listed in the order of a strict total order: what ORDER BY returns. */
module Sorting {
  ghost predicate StrictOrder<T(!new)>(less: (T, T) -> bool) {
    && (forall x :: !less(x, x))
    && (forall x, y, z :: less(x, y) && less(y, z) ==> less(x, z))
    && (forall x, y :: x != y ==> less(x, y) || less(y, x))
  }

  ghost predicate Ascending<T(!new)>(s: seq<T>, less: (T, T) -> bool) {
    forall i, j :: 0 <= i < j < |s| ==> less(s[i], s[j])
  }

  ghost predicate IsLeast<T(!new)>(x: T, s: set<T>, less: (T, T) -> bool) {
    x in s && forall y :: y in s && y != x ==> less(x, y)
  }

  lemma {:induction false} LeastExists<T(!new)>(s: set<T>, less: (T, T) -> bool)
    requires StrictOrder(less) && s != {}
    ensures exists x :: IsLeast(x, s, less)
  {
    var x :| x in s;
    if s == {x} {
      assert IsLeast(x, s, less);
    } else {
      LeastExists(s - {x}, less);
      var y :| IsLeast(y, s - {x}, less);
      if less(x, y) {
        forall z | z in s && z != x
          ensures less(x, z)
        {
          assert z == y || less(y, z);
        }
        assert IsLeast(x, s, less);
      } else {
        assert IsLeast(y, s, less);
      }
    }
  }

  function Least<T(!new, ==)>(s: set<T>, less: (T, T) -> bool): (x: T)
    requires StrictOrder(less) && s != {}
    ensures IsLeast(x, s, less)
  {
    LeastExists(s, less);
    var x :| x in s && forall y :: y in s ==> y == x || less(x, y);
    x
  }

  // Every element of s once, least first.
  function Sorted<T(!new, ==)>(s: set<T>, less: (T, T) -> bool): (q: seq<T>)
    requires StrictOrder(less)
    ensures forall x :: x in q <==> x in s
    ensures |q| == |s|
    ensures Ascending(q, less)
  {
    if s == {} then []
    else
      var x := Least(s, less);
      [x] + Sorted(s - {x}, less)
  }

  lemma AscendingDistinct<T(!new)>(q: seq<T>, less: (T, T) -> bool)
    requires StrictOrder(less) && Ascending(q, less)
    ensures forall i, j :: 0 <= i < j < |q| ==> q[i] != q[j]
  {
  }
}

/** Go's 64-bit int: wrap-around and shifts written out. */
module Int64 {
  const TWO_62 := 0x4000_0000_0000_0000
  const TWO_63 := 0x8000_0000_0000_0000
  const TWO_64 := 0x1_0000_0000_0000_0000

  function Wrap(x: int): (r: int)
    ensures -TWO_63 <= r < TWO_63
    ensures -TWO_63 <= x < TWO_63 ==> r == x
  {
    (x + TWO_63) % TWO_64 - TWO_63
  }

  function Pow2(k: nat): (p: nat)
    ensures p >= 1
  {
    if k == 0 then 1 else 2 * Pow2(k - 1)
  }

  // x << s: bits pushed past the 64th are lost, and s may be any size.
  function Shl(x: int, s: nat): int {
    if s >= 64 then 0 else Wrap(x * Pow2(s))
  }

  lemma WrapAt(x: int, k: int)
    ensures Wrap(x + k * TWO_64) == Wrap(x)
  {
    ModAt(x + TWO_63, k);
  }

  lemma ModAt(x: int, k: int)
    ensures (x + k * TWO_64) % TWO_64 == x % TWO_64
  {
    var q := (x + k * TWO_64) / TWO_64;
    var r := (x + k * TWO_64) % TWO_64;
    assert (q - k) * TWO_64 + r == x;
    assert (q - k - x / TWO_64) * TWO_64 == x % TWO_64 - r;
  }

  lemma WrapIsCongruent(x: int) returns (k: int)
    ensures Wrap(x) == x + k * TWO_64
  {
    k := -((x + TWO_63) / TWO_64);
  }

  lemma WrapSum(x: int, y: int)
    ensures Wrap(Wrap(x) + Wrap(y)) == Wrap(x + y)
  {
    var i := WrapIsCongruent(x);
    var j := WrapIsCongruent(y);
    assert Wrap(x) + Wrap(y) == x + y + (i + j) * TWO_64;
    WrapAt(x + y, i + j);
  }

  lemma {:induction false} Pow2Sum(a: nat, b: nat)
    ensures Pow2(a + b) == Pow2(a) * Pow2(b)
  {
    if a > 0 {
      Pow2Sum(a - 1, b);
      assert Pow2(a + b) == 2 * Pow2(a - 1 + b);
    }
  }

  lemma Pow2Values()
    ensures Pow2(5) == 32 && Pow2(64) == TWO_64
  {
    assert Pow2(5) == 32 && Pow2(8) == 0x100;
    Pow2Sum(8, 8);
    Pow2Sum(16, 16);
    Pow2Sum(32, 32);
  }

  lemma {:induction false} ShlIsProduct(x: int, s: nat)
    ensures Wrap(Shl(x, s)) == Wrap(x * Pow2(s))
  {
    if s >= 64 {
      Pow2Values();
      Pow2Sum(s - 64, 64);
      assert x * Pow2(s) == 0 + (x * Pow2(s - 64)) * TWO_64 by {
        Associates(x, Pow2(s - 64), TWO_64);
      }
      WrapAt(0, x * Pow2(s - 64));
    }
  }

  lemma Associates(a: int, b: int, c: int)
    ensures a * (b * c) == (a * b) * c
  {
  }
}

/** Go's strings and bytes functions the model needs. */
module Text {
  // IndexByte: the first index of c, or -1.
  function IndexOf<T(==)>(s: seq<T>, c: T): (i: int)
    ensures i == -1 ==> c !in s
    ensures i != -1 ==> 0 <= i < |s| && s[i] == c && c !in s[..i]
  {
    if s == [] then -1
    else if s[0] == c then 0
    else
      var i := IndexOf(s[1..], c);
      assert i != -1 ==> s[..i + 1] == [s[0]] + s[1..][..i];
      if i == -1 then -1 else i + 1
  }

  predicate HasSuffix(s: string, part: string) {
    |part| <= |s| && s[|s| - |part|..] == part
  }

  predicate Contains(s: string, part: string)
    decreases |s|
  {
    part <= s || (s != "" && Contains(s[1..], part))
  }

  // The part after the last slash or backslash.
  function AfterLastSlash(p: string): (tail: string)
    ensures '/' !in tail && '\\' !in tail
    decreases |p|
  {
    if p == "" then ""
    else if p[|p| - 1] == '/' || p[|p| - 1] == '\\' then ""
    else AfterLastSlash(p[..|p| - 1]) + [p[|p| - 1]]
  }

  lemma {:induction false} ContainsIff(s: string, part: string)
    ensures Contains(s, part) <==> exists i :: 0 <= i <= |s| && part <= s[i..]
    decreases |s|
  {
    assert s[0..] == s;
    if s != [] {
      ContainsIff(s[1..], part);
      if Contains(s[1..], part) {
        var i :| 0 <= i <= |s[1..]| && part <= s[1..][i..];
        assert s[i + 1..] == s[1..][i..];
      }
      if i :| 0 < i <= |s| && part <= s[i..] {
        assert s[1..][i - 1..] == s[i..];
      }
    }
  }

  // What follows the last separator is the base name.
  lemma {:induction false} BaseOf(dir: string, file: string)
    requires dir == "" || dir[|dir| - 1] in "/\\"
    requires '/' !in file && '\\' !in file
    ensures AfterLastSlash(dir + file) == file
    decreases |file|
  {
    if file == "" {
      assert dir + file == dir;
    } else {
      var n := |file| - 1;
      BaseOf(dir, file[..n]);
      assert (dir + file)[..|dir + file| - 1] == dir + file[..n];
      assert (dir + file)[|dir + file| - 1] == file[n];
    }
  }

  // strings.Split for a one-byte separator.
  function Split(s: string, c: char): (parts: seq<string>)
    ensures parts != []
    ensures forall p :: p in parts ==> c !in p
  {
    if s == "" then [""]
    else
      var rest := Split(s[1..], c);
      if s[0] == c then [""] + rest else [[s[0]] + rest[0]] + rest[1..]
  }

  function Join(parts: seq<string>, c: char): string {
    if parts == [] then ""
    else if |parts| == 1 then parts[0]
    else parts[0] + [c] + Join(parts[1..], c)
  }

  lemma {:induction false} SplitHead(a: string, rest: string, c: char)
    requires c !in a
    ensures Split(a + [c] + rest, c) == [a] + Split(rest, c)
    ensures Split(a, c) == [a]
  {
    if a == "" {
      assert (a + [c] + rest)[1..] == rest;
    } else {
      SplitHead(a[1..], rest, c);
      assert (a + [c] + rest)[1..] == a[1..] + [c] + rest;
      assert [a[0]] + a[1..] == a;
    }
  }

  lemma {:induction false} SplitUndoesJoin(parts: seq<string>, c: char)
    requires parts != [] && forall p :: p in parts ==> c !in p
    ensures Split(Join(parts, c), c) == parts
  {
    SplitHead(parts[0], Join(parts[1..], c), c);
    if |parts| > 1 {
      SplitUndoesJoin(parts[1..], c);
    }
  }
}
