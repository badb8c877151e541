/** Source maps: the stable sort, Resolve's binary search, and indexed maps. */
module SourceMapLookup {
  import opened Options
  import opened Int64
  import opened SourceMaps
  import opened Text

  /* ---- sortMappings ---- */

  predicate Before(a: Mapping, b: Mapping) {
    a.genLine < b.genLine || (a.genLine == b.genLine && a.genCol < b.genCol)
  }

  predicate Ordered(ms: seq<Mapping>) {
    forall i, j :: 0 <= i < j < |ms| ==> !Before(ms[j], ms[i])
  }

  // x goes after every mapping it is not before.
  function Insert(ms: seq<Mapping>, x: Mapping): seq<Mapping>
    decreases |ms|
  {
    if ms == [] || !Before(x, ms[|ms| - 1]) then ms + [x]
    else Insert(ms[..|ms| - 1], x) + [ms[|ms| - 1]]
  }

  // sort.SliceStable by generated position.
  function StableSort(ms: seq<Mapping>): seq<Mapping>
    decreases |ms|
  {
    if ms == [] then [] else Insert(StableSort(ms[..|ms| - 1]), ms[|ms| - 1])
  }

  function AtPosition(ms: seq<Mapping>, line: int, col: int): seq<Mapping>
    decreases |ms|
  {
    if ms == [] then []
    else
      var m := ms[|ms| - 1];
      var front := AtPosition(ms[..|ms| - 1], line, col);
      if m.genLine == line && m.genCol == col then front + [m] else front
  }

  // What sort.SliceStable promises: ordered, and mappings at one position keep
  // their order.
  ghost predicate IsStableSort(ms: seq<Mapping>, sorted: seq<Mapping>) {
    Ordered(sorted) && forall line, col :: AtPosition(sorted, line, col) == AtPosition(ms, line, col)
  }

  lemma AtPositionLast(ms: seq<Mapping>, x: Mapping, line: int, col: int)
    ensures AtPosition(ms + [x], line, col) ==
      if x.genLine == line && x.genCol == col then AtPosition(ms, line, col) + [x] else AtPosition(ms, line, col)
  {
    assert (ms + [x])[..|ms|] == ms;
  }

  lemma {:induction false} InsertAtPosition(ms: seq<Mapping>, x: Mapping, line: int, col: int)
    ensures AtPosition(Insert(ms, x), line, col) == AtPosition(ms + [x], line, col)
    decreases |ms|
  {
    if ms != [] && Before(x, ms[|ms| - 1]) {
      var front, m := ms[..|ms| - 1], ms[|ms| - 1];
      InsertAtPosition(front, x, line, col);
      AtPositionLast(Insert(front, x), m, line, col);
      AtPositionLast(front, x, line, col);
      AtPositionLast(ms, x, line, col);
    }
  }

  lemma {:induction false} InsertOrdered(ms: seq<Mapping>, x: Mapping)
    requires Ordered(ms)
    ensures Ordered(Insert(ms, x)) && |Insert(ms, x)| == |ms| + 1
    ensures forall m :: m in Insert(ms, x) ==> m in ms || m == x
    decreases |ms|
  {
    if ms != [] && Before(x, ms[|ms| - 1]) {
      var front, m := ms[..|ms| - 1], ms[|ms| - 1];
      InsertOrdered(front, x);
      forall e | e in Insert(front, x)
        ensures !Before(m, e)
      {
        assert e in front || e == x;
      }
    } else if ms != [] {
      forall i | 0 <= i < |ms|
        ensures !Before(x, ms[i])
      {
        assert i < |ms| - 1 ==> !Before(ms[|ms| - 1], ms[i]);
      }
    }
  }

  lemma {:induction false} StableSortIsStable(ms: seq<Mapping>)
    ensures IsStableSort(ms, StableSort(ms))
    decreases |ms|
  {
    if ms != [] {
      var front, x := ms[..|ms| - 1], ms[|ms| - 1];
      StableSortIsStable(front);
      InsertOrdered(StableSort(front), x);
      forall line, col
        ensures AtPosition(StableSort(ms), line, col) == AtPosition(ms, line, col)
      {
        InsertAtPosition(StableSort(front), x, line, col);
        AtPositionLast(StableSort(front), x, line, col);
      }
    }
  }

  lemma {:induction false} InAtPosition(ms: seq<Mapping>, line: int, col: int)
    requires AtPosition(ms, line, col) != []
    ensures exists i :: 0 <= i < |ms| && ms[i].genLine == line && ms[i].genCol == col
    decreases |ms|
  {
    var m := ms[|ms| - 1];
    if !(m.genLine == line && m.genCol == col) {
      InAtPosition(ms[..|ms| - 1], line, col);
    }
  }

  // The greatest position of an ordered list is its last mapping's.
  lemma LastIsGreatest(a: seq<Mapping>, b: seq<Mapping>)
    requires Ordered(a) && Ordered(b) && a != []
    requires forall line, col :: AtPosition(a, line, col) == AtPosition(b, line, col)
    ensures b != [] && !Before(b[|b| - 1], a[|a| - 1])
  {
    var m := a[|a| - 1];
    assert AtPosition(a, m.genLine, m.genCol) != [];
    InAtPosition(b, m.genLine, m.genCol);
  }

  lemma {:induction false} StableSortsAgree(a: seq<Mapping>, b: seq<Mapping>)
    requires Ordered(a) && Ordered(b)
    requires forall line, col :: AtPosition(a, line, col) == AtPosition(b, line, col)
    ensures a == b
    decreases |a|
  {
    if a == [] {
      if b != [] {
        LastIsGreatest(b, a);
      }
    } else {
      LastIsGreatest(a, b);
      LastIsGreatest(b, a);
      var x, y := a[|a| - 1], b[|b| - 1];
      var fa, fb := a[..|a| - 1], b[..|b| - 1];
      assert AtPosition(a, x.genLine, x.genCol) == AtPosition(fa, x.genLine, x.genCol) + [x];
      assert AtPosition(b, x.genLine, x.genCol) == AtPosition(fb, x.genLine, x.genCol) + [y];
      SameLast(AtPosition(fa, x.genLine, x.genCol), x, AtPosition(fb, x.genLine, x.genCol), y);
      assert a == fa + [x] && b == fb + [x];
      forall line, col
        ensures AtPosition(fa, line, col) == AtPosition(fb, line, col)
      {
        SamePosition(fa, fb, x, line, col);
      }
      StableSortsAgree(fa, fb);
    }
  }

  lemma SameLast<T>(a: seq<T>, x: T, b: seq<T>, y: T)
    requires a + [x] == b + [y]
    ensures a == b && x == y
  {
    assert |a| == |b| && (a + [x])[|a|] == x && (b + [y])[|b|] == y;
    assert a == (a + [x])[..|a|] && b == (b + [y])[..|b|];
  }

  lemma SamePosition(a: seq<Mapping>, b: seq<Mapping>, x: Mapping, line: int, col: int)
    requires AtPosition(a + [x], line, col) == AtPosition(b + [x], line, col)
    ensures AtPosition(a, line, col) == AtPosition(b, line, col)
  {
    AtPositionLast(a, x, line, col);
    AtPositionLast(b, x, line, col);
    if x.genLine == line && x.genCol == col {
      SameLast(AtPosition(a, line, col), x, AtPosition(b, line, col), x);
    }
  }

  // There is only one stable sort, so sort.SliceStable computes StableSort.
  lemma StableSortIff(ms: seq<Mapping>, sorted: seq<Mapping>)
    ensures IsStableSort(ms, sorted) <==> sorted == StableSort(ms)
  {
    StableSortIsStable(ms);
    if IsStableSort(ms, sorted) {
      StableSortsAgree(sorted, StableSort(ms));
    }
  }

  /* ---- Resolve ---- */

  predicate Candidate(m: Mapping, line: int, col: int) {
    m.genLine == line && m.genCol <= col
  }

  function Better(a: Option<Mapping>, b: Option<Mapping>): Option<Mapping> {
    if b.None? || (a.Some? && b.value.genCol < a.value.genCol) then a else b
  }

  // A linear scan: on the line, the greatest column not past col, ties to the
  // mapping latest in the list.
  function Scan(ms: seq<Mapping>, line: int, col: int): Option<Mapping>
    decreases |ms|
  {
    if ms == [] then None
    else
      var m := ms[|ms| - 1];
      Better(Scan(ms[..|ms| - 1], line, col), if Candidate(m, line, col) then Some(m) else None)
  }

  lemma {:induction false} ScanFindsLatest(ms: seq<Mapping>, line: int, col: int) returns (i: int)
    ensures Scan(ms, line, col).None? ==> forall k :: 0 <= k < |ms| ==> !Candidate(ms[k], line, col)
    ensures Scan(ms, line, col).Some? ==>
      && 0 <= i < |ms| && Scan(ms, line, col) == Some(ms[i]) && Candidate(ms[i], line, col)
      && forall k :: 0 <= k < |ms| && Candidate(ms[k], line, col) ==>
           ms[k].genCol < ms[i].genCol || (ms[k].genCol == ms[i].genCol && k <= i)
    decreases |ms|
  {
    i := -1;
    if ms != [] {
      i := ScanFindsLatest(ms[..|ms| - 1], line, col);
      var m := ms[|ms| - 1];
      if Candidate(m, line, col) && (Scan(ms[..|ms| - 1], line, col).None? || ms[i].genCol <= m.genCol) {
        i := |ms| - 1;
      }
    }
  }

  lemma ScanLast(ms: seq<Mapping>, x: Mapping, line: int, col: int)
    ensures Scan(ms + [x], line, col) == Better(Scan(ms, line, col), if Candidate(x, line, col) then Some(x) else None)
  {
    assert (ms + [x])[..|ms|] == ms;
  }

  lemma {:induction false} ScanOfInsert(ms: seq<Mapping>, x: Mapping, line: int, col: int)
    ensures Scan(Insert(ms, x), line, col) == Scan(ms + [x], line, col)
    decreases |ms|
  {
    if ms != [] && Before(x, ms[|ms| - 1]) {
      var front, m := ms[..|ms| - 1], ms[|ms| - 1];
      ScanOfInsert(front, x, line, col);
      ScanLast(Insert(front, x), m, line, col);
      ScanLast(front, x, line, col);
      ScanLast(ms, x, line, col);
    }
  }

  // Sorting does not change what the scan finds.
  lemma {:induction false} ScanOfSorted(ms: seq<Mapping>, line: int, col: int)
    ensures Scan(StableSort(ms), line, col) == Scan(ms, line, col)
    decreases |ms|
  {
    if ms != [] {
      var front, x := ms[..|ms| - 1], ms[|ms| - 1];
      ScanOfSorted(front, line, col);
      ScanOfInsert(StableSort(front), x, line, col);
      ScanLast(StableSort(front), x, line, col);
    }
  }

  function Answer(f: Frame, found: Option<Mapping>): Frame {
    if found.None? || !found.value.hasOrig then f
    else
      var m := found.value;
      Frame(
        if m.source != "" then m.source else f.filename,
        if m.source != "" then "" else f.absPath,
        if m.name != "" then m.name else f.func,
        m.origLine, Wrap(m.origCol + 1))
  }

  // Sentry columns are 1-based.
  function Column(f: Frame): int {
    if f.colno > 0 then f.colno - 1 else f.colno
  }

  function Resolution(ms: seq<Mapping>, f: Frame): Frame {
    if f.lineno < 1 then f else Answer(f, Scan(ms, f.lineno, Column(f)))
  }

  /* ---- what Resolve means, on the fields of frame and mappings ---- */

  // The mapping, moved by a section's offset, is on the frame's line and not past
  // its column. Frames count columns from 1, mappings from 0.
  predicate AtOrBefore(m: Mapping, line: int, col: int, f: Frame) {
    var at := if m.genLine == 1 then m.genCol + col else m.genCol;
    m.genLine + line == f.lineno && if f.colno > 0 then at < f.colno else at <= f.colno
  }

  // The greatest column, and the latest in the list at it.
  predicate Answers(ms: seq<Mapping>, line: int, col: int, f: Frame, i: nat) {
    && i < |ms| && AtOrBefore(ms[i], line, col, f)
    && forall k :: 0 <= k < |ms| && AtOrBefore(ms[k], line, col, f) ==>
         ms[k].genCol < ms[i].genCol || (ms[k].genCol == ms[i].genCol && k <= i)
  }

  // The frame with the mapping's original position, and its source and name where
  // it has them.
  predicate Shows(f: Frame, m: Mapping, out: Frame) {
    && out.lineno == m.origLine && (-TWO_62 <= m.origCol < TWO_62 ==> out.colno == m.origCol + 1)
    && (if m.source == "" then out.filename == f.filename && out.absPath == f.absPath
        else out.filename == m.source && out.absPath == "")
    && out.func == if m.name == "" then f.func else m.name
  }

  ghost predicate Answered(ms: seq<Mapping>, line: int, col: int, f: Frame) {
    exists i: nat :: Answers(ms, line, col, f, i)
  }

  ghost predicate Resolves(ms: seq<Mapping>, line: int, col: int, f: Frame, out: Frame) {
    if f.lineno >= 1 && Answered(ms, line, col, f)
    then exists i: nat :: Answers(ms, line, col, f, i) && if ms[i].hasOrig then Shows(f, ms[i], out) else out == f
    else out == f
  }

  lemma {:induction false} AnswerResolves(ms: seq<Mapping>, line: int, col: int, f: Frame)
    requires f.lineno >= 1
    ensures var c := if f.lineno - line == 1 then Column(f) - col else Column(f);
      && Resolves(ms, line, col, f, Answer(f, Scan(ms, f.lineno - line, c)))
      && (Scan(ms, f.lineno - line, c).Some? <==> Answered(ms, line, col, f))
  {
    var c := if f.lineno - line == 1 then Column(f) - col else Column(f);
    var i := ScanFindsLatest(ms, f.lineno - line, c);
    assert forall m :: Candidate(m, f.lineno - line, c) <==> AtOrBefore(m, line, col, f);
    if 0 <= i < |ms| && Scan(ms, f.lineno - line, c).Some? {
      assert Answers(ms, line, col, f, i);
      Shown(f, ms[i]);
    }
  }

  lemma Shown(f: Frame, m: Mapping)
    ensures m.hasOrig ==> Shows(f, m, Answer(f, Some(m)))
  {
  }

  // The reference answer is what Resolve means.
  lemma {:induction false} ResolutionIs(ms: seq<Mapping>, f: Frame)
    ensures Resolves(ms, 0, 0, f, Resolution(ms, f))
  {
    if f.lineno >= 1 {
      AnswerResolves(ms, 0, 0, f);
    }
  }

  /* ---- the binary search ---- */

  predicate Past(m: Mapping, line: int, col: int) {
    m.genLine > line || (m.genLine == line && m.genCol > col)
  }

  lemma {:induction false} ScanOfOrdered(ms: seq<Mapping>, n: nat, line: int, col: int)
    requires Ordered(ms) && n <= |ms|
    requires forall k :: 0 <= k < n ==> !Past(ms[k], line, col)
    requires forall k :: n <= k < |ms| ==> Past(ms[k], line, col)
    ensures Scan(ms, line, col) == if n > 0 && ms[n - 1].genLine == line then Some(ms[n - 1]) else None
    decreases |ms|
  {
    if n < |ms| {
      ScanOfOrdered(ms[..|ms| - 1], n, line, col);
    } else if ms != [] {
      var i := ScanFindsLatest(ms, line, col);
      assert ms[n - 1].genLine == line ==> Candidate(ms[n - 1], line, col);
    }
  }

  // sort.Search for the first mapping past a position.
  method FirstPast(ms: seq<Mapping>, line: int, col: int) returns (i: nat)
    requires Ordered(ms)
    ensures i <= |ms| && (forall k :: 0 <= k < i ==> !Past(ms[k], line, col))
    ensures forall k :: i <= k < |ms| ==> Past(ms[k], line, col)
  {
    i := 0;
    var j := |ms|;
    while i < j
      invariant 0 <= i <= j <= |ms|
      invariant forall k :: 0 <= k < i ==> !Past(ms[k], line, col)
      invariant forall k :: j <= k < |ms| ==> Past(ms[k], line, col)
    {
      var h := (i + j) / 2;
      if !Past(ms[h], line, col) {
        i := h + 1;
      } else {
        j := h;
      }
    }
  }

  method Resolve(ms: seq<Mapping>, f: Frame) returns (out: Frame)
    requires Ordered(ms)
    ensures out == Resolution(ms, f) && Resolves(ms, 0, 0, f, out)
  {
    ResolutionIs(ms, f);
    if f.lineno < 1 || |ms| == 0 {
      return f;
    }
    var col := f.colno;
    if col > 0 {
      col := col - 1;
    }
    var i: int := FirstPast(ms, f.lineno, col);
    ScanOfOrdered(ms, i, f.lineno, col);
    i := i - 1;
    if i < 0 {
      return f;
    }
    var m := ms[i];
    if !m.hasOrig || m.genLine != f.lineno {
      return f;
    }
    out := f.(lineno := m.origLine, colno := Wrap(m.origCol + 1));
    if m.source != "" {
      out := out.(filename := m.source, absPath := "");
    }
    if m.name != "" {
      out := out.(func := m.name);
    }
  }

  /* ---- ParseSourceMap ---- */

  function TrimSlash(s: string): string {
    if s != "" && s[|s| - 1] == '/' then s[..|s| - 1] else s
  }

  function Rooted(src: string, root: string): string {
    if root == "" || src == "" || TrimSlash(root) + "/" <= src || Contains(src, "://") then src
    else TrimSlash(root) + "/" + src
  }

  function AllRooted(sources: seq<string>, root: string): seq<string> {
    seq(|sources|, i requires 0 <= i < |sources| => Rooted(sources[i], root))
  }

  // The column offset applies to the section's first line only.
  function Shifted(m: Mapping, line: int, col: int): Mapping {
    m.(genCol := if m.genLine == 1 then Wrap(m.genCol + col) else m.genCol, genLine := Wrap(m.genLine + line))
  }

  function ShiftAll(ms: seq<Mapping>, line: int, col: int): seq<Mapping> {
    seq(|ms|, i requires 0 <= i < |ms| => Shifted(ms[i], line, col))
  }

  // The mappings before the final sort; None is a JSON error.
  function Listed(doc: Document): Option<seq<Mapping>>
    decreases doc, 0
  {
    if doc.Unreadable? then None
    else if doc.sections != [] then Some(Folded(doc, |doc.sections|))
    else Some(Mappings(doc.mappings, AllRooted(doc.sources, doc.root), doc.names))
  }

  function Parsed(doc: Document): Option<seq<Mapping>>
    decreases doc, 1
  {
    var list := Listed(doc);
    if list.None? then None else Some(StableSort(list.value))
  }

  // One section's mappings at its offset; a bad one is left out.
  function Part(s: Section): seq<Mapping>
    decreases s
  {
    var sub := Parsed(s.doc);
    if sub.None? then [] else ShiftAll(sub.value, s.line, s.col)
  }

  function Folded(doc: Document, n: nat): seq<Mapping>
    requires doc.Document? && n <= |doc.sections|
    decreases doc.sections, n
  {
    if n == 0 then [] else Folded(doc, n - 1) + Part(doc.sections[n - 1])
  }

  method ParseSourceMap(doc: Document) returns (r: Option<seq<Mapping>>)
    ensures r == Parsed(doc)
    decreases doc
  {
    if doc.Unreadable? {
      return None;
    }
    if |doc.sections| > 0 {
      var ms: seq<Mapping> := [];
      for n := 0 to |doc.sections|
        invariant ms == Folded(doc, n)
      {
        var sec := doc.sections[n];
        var sub := ParseSourceMap(sec.doc);
        if sub.None? {
          continue;
        }
        var folded := FoldIn(ms, sub.value, sec.line, sec.col);
        ms := folded;
      }
      return Some(StableSort(ms));
    }
    var sources := RootSources(doc.sources, doc.root);
    var list := ParseMappings(doc.mappings, sources, doc.names);
    return Some(StableSort(list));
  }

  method FoldIn(into: seq<Mapping>, sub: seq<Mapping>, line: int, col: int) returns (ms: seq<Mapping>)
    ensures ms == into + ShiftAll(sub, line, col)
  {
    ms := into;
    for i := 0 to |sub|
      invariant ms == into + ShiftAll(sub[..i], line, col)
    {
      var m := sub[i];
      if m.genLine == 1 {
        m := m.(genCol := Wrap(m.genCol + col));
      }
      m := m.(genLine := Wrap(m.genLine + line));
      ms := ms + [m];
      assert ShiftAll(sub[..i + 1], line, col) == ShiftAll(sub[..i], line, col) + [m];
    }
    assert sub[..|sub|] == sub;
  }

  // A source that has the root does not get it again.
  lemma RootedOnce(src: string, root: string)
    ensures Rooted(Rooted(src, root), root) == Rooted(src, root)
  {
  }

  // A root with or without its slash is the same directory; what is empty, absolute
  // or below it already stays.
  lemma RootedIs(src: string, dir: string, slash: bool)
    requires slash || (dir != "" && dir[|dir| - 1] != '/')
    ensures Rooted(src, if slash then dir + "/" else dir) ==
      if src == "" || dir + "/" <= src || Contains(src, "://") then src else dir + "/" + src
    ensures Rooted(src, "") == src
  {
  }

  method RootSources(sources: seq<string>, root: string) returns (out: seq<string>)
    ensures out == AllRooted(sources, root) && |out| == |sources|
    ensures forall i :: 0 <= i < |out| ==> out[i] == Rooted(sources[i], root)
    ensures AllRooted(out, root) == out
  {
    out := sources;
    if root != "" {
      var prefix := TrimSlash(root) + "/";
      for i := 0 to |sources|
        invariant |out| == |sources| && out[i..] == sources[i..]
        invariant forall k :: 0 <= k < i ==> out[k] == Rooted(sources[k], root)
      {
        var src := sources[i];
        assert out[i] == out[i..][0] == src;
        if src != "" && !(prefix <= src) && !Contains(src, "://") {
          out := out[i := prefix + src];
        }
      }
    }
    forall i | 0 <= i < |sources|
      ensures Rooted(out[i], root) == out[i]
    {
      RootedOnce(sources[i], root);
    }
  }

  /* ---- the theorems ---- */

  lemma ParsedScans(doc: Document, f: Frame)
    requires Listed(doc).Some?
    ensures Ordered(Parsed(doc).value)
    ensures Resolution(Parsed(doc).value, f) == Resolution(Listed(doc).value, f)
  {
    StableSortIsStable(Listed(doc).value);
    ScanOfSorted(Listed(doc).value, f.lineno, Column(f));
  }

  // Resolve's binary search in a parsed map answers as a linear scan of the
  // mappings in the order of the text.
  lemma ResolveIsScan(doc: Document, f: Frame)
    requires Listed(doc).Some?
    ensures Ordered(Parsed(doc).value)
    ensures Resolution(Parsed(doc).value, f) == Resolution(Listed(doc).value, f)
    ensures Resolves(Listed(doc).value, 0, 0, f, Resolution(Parsed(doc).value, f))
  {
    ParsedScans(doc, f);
    ResolutionIs(Listed(doc).value, f);
  }

  lemma {:induction false} OrderedIsSorted(ms: seq<Mapping>)
    requires Ordered(ms)
    ensures StableSort(ms) == ms
    decreases |ms|
  {
    if ms != [] {
      OrderedIsSorted(ms[..|ms| - 1]);
    }
  }

  lemma {:induction false} MeantListOrdered(line: nat, list: seq<Placed>, sources: seq<string>, names: seq<string>)
    requires SortedFrom(line, list)
    ensures |MeantList(list, sources, names)| == |list|
    ensures forall i :: 0 <= i < |list| ==>
      MeantList(list, sources, names)[i] == Meant(list[i].line, list[i].seg, sources, names)
    ensures Ordered(MeantList(list, sources, names))
    decreases |list|
  {
    if list != [] {
      MeantListOrdered(list[0].line, list[1..], sources, names);
      assert forall j :: 0 < j < |list| ==> InOrder(list[0], list[j]);
    }
  }

  // ParseSourceMap on the encoding of a sorted mapping list is that list.
  lemma SourceMapRoundTrip(list: seq<Placed>, sources: seq<string>, root: string, names: seq<string>)
    requires SortedFrom(0, list) && SmallList(0, list)
    ensures Parsed(Document(sources, root, names, EncodeMappings(LinesOf(0, list)), [])) ==
      Some(MeantList(list, AllRooted(sources, root), names))
  {
    ListRoundTrip(list, AllRooted(sources, root), names);
    MeantListOrdered(0, list, AllRooted(sources, root), names);
    OrderedIsSorted(MeantList(list, AllRooted(sources, root), names));
  }

  /* ---- indexed maps ---- */

  lemma {:induction false} ScanAppend(a: seq<Mapping>, b: seq<Mapping>, line: int, col: int)
    ensures Scan(a + b, line, col) == Better(Scan(a, line, col), Scan(b, line, col))
    decreases |b|
  {
    if b == [] {
      assert a + b == a;
    } else {
      ScanAppend(a, b[..|b| - 1], line, col);
      assert (a + b)[..|a + b| - 1] == a + b[..|b| - 1];
    }
  }

  // A sub-map inside 64 bits wherever its section puts it.
  predicate Fits(ms: seq<Mapping>, line: int, col: int) {
    && -TWO_62 <= line < TWO_62 && -TWO_62 <= col < TWO_62
    && forall i :: 0 <= i < |ms| ==> 1 <= ms[i].genLine < TWO_62 && 0 <= ms[i].genCol < TWO_62
  }

  lemma CandidateShifted(m: Mapping, dl: int, dc: int, line: int, col: int)
    requires Fits([m], dl, dc)
    ensures Candidate(Shifted(m, dl, dc), line, col) <==>
      Candidate(m, line - dl, if line - dl == 1 then col - dc else col)
    ensures Shifted(m, dl, dc).genCol == if m.genLine == 1 then m.genCol + dc else m.genCol
  {
    assert [m][0] == m;
  }

  lemma {:induction false} ScanShifted(ms: seq<Mapping>, dl: int, dc: int, line: int, col: int)
    requires Fits(ms, dl, dc)
    ensures var found := Scan(ms, line - dl, if line - dl == 1 then col - dc else col);
      Scan(ShiftAll(ms, dl, dc), line, col) == if found.None? then None else Some(Shifted(found.value, dl, dc))
    decreases |ms|
  {
    if ms != [] {
      var front, m := ms[..|ms| - 1], ms[|ms| - 1];
      var c := if line - dl == 1 then col - dc else col;
      ScanShifted(front, dl, dc, line, col);
      assert ShiftAll(ms, dl, dc)[..|ms| - 1] == ShiftAll(front, dl, dc);
      var i := ScanFindsLatest(front, line - dl, c);
      CandidateShifted(m, dl, dc, line, col);
    }
  }

  predicate PositionBefore(l1: int, c1: int, l2: int, c2: int) {
    l1 < l2 || (l1 == l2 && c1 < c2)
  }

  // Every mapping of the section lies before the position its successor starts at.
  predicate EndsBefore(a: Section, b: Section) {
    && PositionBefore(a.line, a.col, b.line, b.col)
    && forall i :: 0 <= i < |Part(a)| ==> PositionBefore(Part(a)[i].genLine, Part(a)[i].genCol, b.line + 1, b.col)
  }

  predicate Sections(doc: Document) {
    && doc.Document?
    && (forall i :: 0 <= i < |doc.sections| && Parsed(doc.sections[i].doc).Some? ==>
          Fits(Parsed(doc.sections[i].doc).value, doc.sections[i].line, doc.sections[i].col))
    && (forall i, j :: 0 <= i < j < |doc.sections| ==> EndsBefore(doc.sections[i], doc.sections[j]))
  }

  // Section k is the last to start at or before the position.
  predicate HeldBy(doc: Document, k: nat, line: int, col: int)
    requires doc.Document?
  {
    && k < |doc.sections|
    && !PositionBefore(line, col, doc.sections[k].line + 1, doc.sections[k].col)
    && forall j :: k < j < |doc.sections| ==> PositionBefore(line, col, doc.sections[j].line + 1, doc.sections[j].col)
  }

  lemma PartStarts(s: Section)
    requires Parsed(s.doc).Some? ==> Fits(Parsed(s.doc).value, s.line, s.col)
    ensures forall i :: 0 <= i < |Part(s)| ==> !PositionBefore(Part(s)[i].genLine, Part(s)[i].genCol, s.line + 1, s.col)
  {
  }

  lemma NoCandidates(ms: seq<Mapping>, line: int, col: int)
    requires forall i :: 0 <= i < |ms| ==> PositionBefore(line, col, ms[i].genLine, ms[i].genCol)
    ensures Scan(ms, line, col).None?
  {
    var i := ScanFindsLatest(ms, line, col);
  }

  // Sections after the holding one answer nothing.
  lemma {:induction false} LaterSections(doc: Document, k: nat, n: nat, line: int, col: int)
    requires Sections(doc) && HeldBy(doc, k, line, col) && k < n <= |doc.sections|
    ensures Scan(Folded(doc, n), line, col) == Scan(Folded(doc, k + 1), line, col)
    decreases n
  {
    if n > k + 1 {
      var s := doc.sections[n - 1];
      LaterSections(doc, k, n - 1, line, col);
      PartStarts(s);
      NoCandidates(Part(s), line, col);
      ScanAppend(Folded(doc, n - 1), Part(s), line, col);
    }
  }

  // What earlier sections answer lies before the holding one's start.
  lemma {:induction false} EarlierSections(doc: Document, k: nat, n: nat, line: int, col: int)
    requires Sections(doc) && n <= k < |doc.sections|
    ensures var found := Scan(Folded(doc, n), line, col);
      found.Some? ==>
        (found.value.genLine == line &&
         PositionBefore(line, found.value.genCol, doc.sections[k].line + 1, doc.sections[k].col))
    decreases n
  {
    if n > 0 {
      var s := doc.sections[n - 1];
      EarlierSections(doc, k, n - 1, line, col);
      ScanAppend(Folded(doc, n - 1), Part(s), line, col);
      assert EndsBefore(s, doc.sections[k]);
      var i := ScanFindsLatest(Part(s), line, col);
    }
  }

  // For ordered sections that do not overlap, the folded map answers with the
  // section holding the position whenever that section has a mapping at or
  // before it on the line, and with the sections before it otherwise.
  lemma SectionAnswers(doc: Document, k: nat, line: int, col: int)
    requires Sections(doc) && HeldBy(doc, k, line, col)
    ensures var own := Scan(Part(doc.sections[k]), line, col);
      Scan(Folded(doc, |doc.sections|), line, col) ==
        if own.Some? then own else Scan(Folded(doc, k), line, col)
  {
    var s := doc.sections[k];
    LaterSections(doc, k, |doc.sections|, line, col);
    ScanAppend(Folded(doc, k), Part(s), line, col);
    EarlierSections(doc, k, k, line, col);
    PartStarts(s);
    var i := ScanFindsLatest(Part(s), line, col);
  }

  // In frames: the section's own sub-map answers, its mappings moved by the
  // section's offset, whenever it has one at or before the position on the line.
  lemma {:induction false} SectionResolves(doc: Document, k: nat, f: Frame)
    requires Sections(doc) && f.lineno >= 1
    requires HeldBy(doc, k, f.lineno, if f.colno > 0 then f.colno - 1 else f.colno)
    requires Parsed(doc.sections[k].doc).Some?
    requires var s := doc.sections[k]; Answered(Parsed(s.doc).value, s.line, s.col, f)
    ensures var s := doc.sections[k];
      && Parsed(doc).Some?
      && Resolves(Parsed(s.doc).value, s.line, s.col, f, Resolution(Parsed(doc).value, f))
  {
    var sub := Parsed(doc.sections[k].doc).value;
    ScannedAnswers(sub, doc.sections[k].line, doc.sections[k].col, f);
    SectionFound(doc, k, f.lineno, Column(f));
    FoldedScans(doc, f);
    ScannedResolves(sub, doc.sections[k].line, doc.sections[k].col, f, Resolution(Parsed(doc).value, f));
  }

  function ScannedIn(ms: seq<Mapping>, line: int, col: int, f: Frame): Option<Mapping> {
    Scan(ms, f.lineno - line, if f.lineno - line == 1 then Column(f) - col else Column(f))
  }

  lemma ScannedAnswers(ms: seq<Mapping>, line: int, col: int, f: Frame)
    requires f.lineno >= 1 && Answered(ms, line, col, f)
    ensures ScannedIn(ms, line, col, f).Some?
  {
    AnswerResolves(ms, line, col, f);
  }

  lemma ScannedResolves(ms: seq<Mapping>, line: int, col: int, f: Frame, out: Frame)
    requires f.lineno >= 1 && ScannedIn(ms, line, col, f).Some?
    requires out == Answer(f, Some(Shifted(ScannedIn(ms, line, col, f).value, line, col)))
    ensures Resolves(ms, line, col, f, out)
  {
    AnswerResolves(ms, line, col, f);
  }

  // In the folded list: the section's own mapping, moved.
  lemma SectionFound(doc: Document, k: nat, line: int, col: int)
    requires Sections(doc) && HeldBy(doc, k, line, col) && Parsed(doc.sections[k].doc).Some?
    ensures var s := doc.sections[k];
      var found := Scan(Parsed(s.doc).value, line - s.line, if line - s.line == 1 then col - s.col else col);
      found.Some? ==>
        Scan(Folded(doc, |doc.sections|), line, col) == Some(Shifted(found.value, s.line, s.col))
  {
    var s := doc.sections[k];
    SectionAnswers(doc, k, line, col);
    ScanShifted(Parsed(s.doc).value, s.line, s.col, line, col);
  }

  lemma FoldedScans(doc: Document, f: Frame)
    requires doc.Document? && doc.sections != [] && f.lineno >= 1
    ensures Parsed(doc).Some?
    ensures Resolution(Parsed(doc).value, f) == Answer(f, Scan(Folded(doc, |doc.sections|), f.lineno, Column(f)))
  {
    ParsedScans(doc, f);
  }
}
