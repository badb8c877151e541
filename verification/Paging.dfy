/** Keyset paging of the event list, with the table changing between pages. */
module Paging {
  import opened Options
  import opened Sizes
  import opened Sorting

  // A row's position; time 0 is Go's zero time.
  datatype Key = Key(at: int, id: nat)

  // Zero is "from the newest": Cursor.IsZero looks at the time alone.
  datatype Cursor = Cursor(at: int, id: nat)

  const DEFAULT_LIMIT := 50
  const MAX_LIMIT := 500

  predicate Newer(a: Key, b: Key) {
    a.at > b.at || (a.at == b.at && a.id > b.id)
  }

  predicate IsZero(c: Cursor) {
    c.at == 0
  }

  function CursorOf(k: Key): Cursor {
    Cursor(k.at, k.id)
  }

  // (occurred_at, event_id) < (cursor), or no condition.
  predicate IsAfter(k: Key, c: Cursor) {
    IsZero(c) || Newer(Key(c.at, c.id), k)
  }

  function Limit(raw: int): (limit: nat)
    ensures 1 <= limit <= MAX_LIMIT
  {
    if raw <= 0 then DEFAULT_LIMIT else if raw > MAX_LIMIT then MAX_LIMIT else raw
  }

  function Eligible(rows: set<Key>, c: Cursor): set<Key> {
    set k | k in rows && IsAfter(k, c)
  }

  datatype Page = Page(rows: seq<Key>, more: bool)

  // One row more than the limit is fetched to learn whether there are any.
  function Cut(all: seq<Key>, limit: nat): Page {
    var fetched := if |all| <= limit + 1 then all else all[..limit + 1];
    if |fetched| > limit then Page(fetched[..limit], true) else Page(fetched, false)
  }

  function PageOf(rows: set<Key>, c: Cursor, raw: int): Page {
    Cut(Sorted(Eligible(rows, c), Newer), Limit(raw))
  }

  method ListEvents(rows: set<Key>, before: Cursor, raw: int) returns (page: Page)
    ensures page == PageOf(rows, before, raw)
  {
    var limit := raw;
    if limit <= 0 {
      limit := DEFAULT_LIMIT;
    }
    if limit > MAX_LIMIT {
      limit := MAX_LIMIT;
    }
    var all := Sorted(Eligible(rows, before), Newer);
    var list := if |all| <= limit + 1 then all else all[..limit + 1];
    var more := false;
    if |list| > limit {
      list, more := list[..limit], true;
    }
    return Page(list, more);
  }

  // What a page promises: its rows are eligible, in order, and come before
  // everything it leaves out; it leaves something out exactly when it says so.
  // A page is full to the limit asked for, 50 without one and never more than 500,
  // unless there are not so many rows.
  lemma PageIsFull(rows: set<Key>, c: Cursor, raw: int)
    ensures var limit := if raw <= 0 then 50 else if raw < 500 then raw else 500;
      |PageOf(rows, c, raw).rows| == if |Eligible(rows, c)| < limit then |Eligible(rows, c)| else limit
  {
  }

  ghost predicate PageOk(rows: set<Key>, c: Cursor, limit: nat, p: Page) {
    && |p.rows| <= limit && (p.more ==> |p.rows| == limit)
    && (forall k :: k in p.rows ==> k in rows && IsAfter(k, c))
    && Ascending(p.rows, Newer)
    && (forall k, i :: k in rows && IsAfter(k, c) && k !in p.rows && 0 <= i < |p.rows| ==> Newer(p.rows[i], k))
    && (p.more <==> exists k :: k in rows && IsAfter(k, c) && k !in p.rows)
  }

  lemma PageIsOk(rows: set<Key>, c: Cursor, raw: int)
    ensures PageOk(rows, c, Limit(raw), PageOf(rows, c, raw))
  {
    CutIsOk(rows, c, Sorted(Eligible(rows, c), Newer), Limit(raw));
  }

  lemma CutIsOk(rows: set<Key>, c: Cursor, all: seq<Key>, limit: nat)
    requires limit >= 1 && Ascending(all, Newer) && forall k :: k in all <==> k in rows && IsAfter(k, c)
    ensures PageOk(rows, c, limit, Cut(all, limit))
  {
    var page := if |all| > limit then all[..limit] else all;
    assert Cut(all, limit) == Page(page, |all| > limit);
    forall k, i | k in rows && IsAfter(k, c) && k !in page && 0 <= i < |page|
      ensures Newer(page[i], k)
    {
      assert k in all;
      var j :| 0 <= j < |all| && all[j] == k;
      assert j >= |page| by {
        assert forall m :: 0 <= m < |page| ==> page[m] != k;
      }
    }
    if |all| > limit {
      var k := all[limit];
      assert k in rows && IsAfter(k, c);
      assert k !in page by {
        assert forall m :: 0 <= m < limit ==> Newer(all[m], k);
      }
    }
  }

  /* ---- following the cursors ---- */

  datatype Walk = Walk(visited: seq<Key>, done: bool)

  // tables[i] is the matching rows when page i is read.
  function Follow(tables: seq<set<Key>>, c: Cursor, raw: int): Walk
    decreases |tables|
  {
    if tables == [] then Walk([], false)
    else
      var p := PageOf(tables[0], c, raw);
      if !p.more || p.rows == [] then Walk(p.rows, !p.more)
      else
        var rest := Follow(tables[1..], CursorOf(p.rows[|p.rows| - 1]), raw);
        Walk(p.rows + rest.visited, rest.done)
  }

  // No row is at Go's zero time: its cursor would start over.
  predicate Dated(tables: seq<set<Key>>) {
    forall i, k :: 0 <= i < |tables| && k in tables[i] ==> k.at != 0
  }

  predicate Throughout(tables: seq<set<Key>>, k: Key) {
    forall i :: 0 <= i < |tables| ==> k in tables[i]
  }

  ghost predicate VisitedOk(tables: seq<set<Key>>, c: Cursor, w: Walk) {
    && Ascending(w.visited, Newer)
    && (forall k :: k in w.visited ==> IsAfter(k, c) && exists i :: 0 <= i < |tables| && k in tables[i])
    && (w.done ==> forall k :: Throughout(tables, k) && IsAfter(k, c) ==> k in w.visited)
  }

  lemma {:induction false} FollowIsOk(tables: seq<set<Key>>, c: Cursor, raw: int)
    requires Dated(tables)
    ensures VisitedOk(tables, c, Follow(tables, c, raw))
    decreases |tables|
  {
    if tables != [] {
      var p := FirstPage(tables, c, raw);
      if p.more && p.rows != [] {
        var last := CursorOf(p.rows[|p.rows| - 1]);
        FollowIsOk(tables[1..], last, raw);
        StepIsOk(tables, c, Limit(raw), p, Follow(tables[1..], last, raw));
      } else {
        LastIsOk(tables, c, Limit(raw), p);
      }
    }
  }

  lemma FirstPage(tables: seq<set<Key>>, c: Cursor, raw: int) returns (p: Page)
    requires tables != []
    ensures PageOk(tables[0], c, Limit(raw), p)
    ensures !p.more || p.rows == [] ==> Follow(tables, c, raw) == Walk(p.rows, !p.more)
    ensures p.more && p.rows != [] ==>
      var rest := Follow(tables[1..], CursorOf(p.rows[|p.rows| - 1]), raw);
      Follow(tables, c, raw) == Walk(p.rows + rest.visited, rest.done)
  {
    p := PageOf(tables[0], c, raw);
    PageIsOk(tables[0], c, raw);
  }

  lemma LastIsOk(tables: seq<set<Key>>, c: Cursor, limit: nat, p: Page)
    requires tables != [] && PageOk(tables[0], c, limit, p)
    ensures VisitedOk(tables, c, Walk(p.rows, !p.more))
  {
    forall k | k in p.rows
      ensures IsAfter(k, c) && exists i :: 0 <= i < |tables| && k in tables[i]
    {
      assert k in tables[0];
    }
    forall k | Throughout(tables, k) && IsAfter(k, c) && !p.more
      ensures k in p.rows
    {
      assert k in tables[0];
    }
  }

  lemma StepIsOk(tables: seq<set<Key>>, c: Cursor, limit: nat, p: Page, rest: Walk)
    requires tables != [] && Dated(tables) && PageOk(tables[0], c, limit, p) && p.rows != []
    requires VisitedOk(tables[1..], CursorOf(p.rows[|p.rows| - 1]), rest)
    ensures VisitedOk(tables, c, Walk(p.rows + rest.visited, rest.done))
  {
    var last := p.rows[|p.rows| - 1];
    assert last in p.rows && last.at != 0;
    var all := p.rows + rest.visited;
    forall i, j | 0 <= i < j < |all|
      ensures Newer(all[i], all[j])
    {
      if i < |p.rows| <= j {
        assert all[j] in rest.visited && IsAfter(all[j], CursorOf(last));
        assert i < |p.rows| - 1 ==> Newer(all[i], last);
      }
    }
    forall k | k in all
      ensures IsAfter(k, c) && exists i :: 0 <= i < |tables| && k in tables[i]
    {
      if k in p.rows {
        assert k in tables[0];
      } else {
        var i :| 0 <= i < |tables[1..]| && k in tables[1..][i];
        assert k in tables[i + 1];
        assert Newer(last, k) && IsAfter(last, c);
      }
    }
    if rest.done {
      forall k | Throughout(tables, k) && IsAfter(k, c)
        ensures k in all
      {
        if k !in p.rows {
          assert k in tables[0] && Newer(last, k);
          assert Throughout(tables[1..], k);
        }
      }
    }
  }

  // Following next-page cursors to the end visits every row that is there
  // throughout, exactly once, strictly newest first, whatever is inserted or
  // removed between the pages; nothing visited was never there.
  lemma {:induction false} PagesVisitEveryRow(tables: seq<set<Key>>, raw: int, k: Key)
    requires Dated(tables) && Throughout(tables, k)
    ensures var w := Follow(tables, Cursor(0, 0), raw);
      && Ascending(w.visited, Newer)
      && (w.done ==> exists i ::
            && 0 <= i < |w.visited| && w.visited[i] == k
            && forall j :: 0 <= j < |w.visited| && w.visited[j] == k ==> j == i)
  {
    FollowIsOk(tables, Cursor(0, 0), raw);
    var w := Follow(tables, Cursor(0, 0), raw);
    OnceEach(w.visited);
    if w.done {
      var i :| 0 <= i < |w.visited| && w.visited[i] == k;
    }
  }

  lemma OnceEach(list: seq<Key>)
    requires Ascending(list, Newer)
    ensures forall i, j :: 0 <= i < |list| && 0 <= j < |list| && list[i] == list[j] ==> i == j
  {
    forall i, j | 0 <= i < j < |list|
      ensures list[i] != list[j]
    {
      assert Newer(list[i], list[j]);
    }
  }

  // On a table that stands still the walk ends.
  lemma {:induction false} WalkEnds(tables: seq<set<Key>>, rows: set<Key>, c: Cursor, raw: int)
    requires Dated([rows]) && forall i :: 0 <= i < |tables| ==> tables[i] == rows
    requires |tables| > |Eligible(rows, c)|
    ensures Follow(tables, c, raw).done
    decreases |tables|
  {
    var p := FirstPage(tables, c, raw);
    if p.more {
      var last := p.rows[|p.rows| - 1];
      assert last in p.rows;
      FewerLeft(rows, c, last);
      WalkEnds(tables[1..], rows, CursorOf(last), raw);
    }
  }

  lemma FewerLeft(rows: set<Key>, c: Cursor, last: Key)
    requires Dated([rows]) && last in rows && IsAfter(last, c)
    ensures |Eligible(rows, CursorOf(last))| < |Eligible(rows, c)|
  {
    assert last in [rows][0] && last.at != 0;
    Smaller(Eligible(rows, CursorOf(last)), Eligible(rows, c), last);
  }

  lemma Smaller(a: set<Key>, b: set<Key>, x: Key)
    requires a <= b - {x} && x in b
    ensures |a| < |b|
  {
    SubsetSize(a, b - {x});
  }

  // Why zero times matter: the page after a row's cursor leaves the row itself
  // out exactly when its time is not Go's zero time.
  lemma CursorExcludesItsRowIff(rows: set<Key>, k: Key)
    requires k in rows
    ensures k !in Eligible(rows, CursorOf(k)) <==> k.at != 0
    ensures k.at == 0 ==> Eligible(rows, CursorOf(k)) == rows
  {
    if k.at == 0 {
      assert Eligible(rows, CursorOf(k)) == rows;
    }
  }
}
