/** Source maps: parsing, the stable sort and Resolve's binary search. */
module SourceMaps {
  import opened Basics
  import opened Options
  import opened Int64
  import opened Text
  import opened Vlq

  datatype Mapping = Mapping(
    genLine: int, genCol: int, source: string, origLine: int, origCol: int, name: string, hasOrig: bool)

  // The JSON document, or one that does not decode (or a section without a map).
  datatype Document =
    | Unreadable
    | Document(sources: seq<string>, root: string, names: seq<string>, mappings: string, sections: seq<Section>)
  datatype Section = Section(line: int, col: int, doc: Document)

  datatype Frame = Frame(filename: string, absPath: string, func: string, lineno: int, colno: int)

  /* ---- the mappings of a plain map ---- */

  // The running fields of ParseSourceMap's loops.
  datatype Parser = Parser(genCol: int, srcIdx: int, origLine: int, origCol: int, nameIdx: int, ms: seq<Mapping>)

  function At(list: seq<string>, i: int): string {
    if 0 <= i < |list| then list[i] else ""
  }

  function Step(p: Parser, line: nat, vals: seq<int>, sources: seq<string>, names: seq<string>): Parser
    requires vals != []
  {
    var genCol := Wrap(p.genCol + vals[0]);
    if |vals| < 4 then
      p.(genCol := genCol, ms := p.ms + [Mapping(Wrap(line + 1), genCol, "", 0, 0, "", false)])
    else
      var srcIdx := Wrap(p.srcIdx + vals[1]);
      var origLine := Wrap(p.origLine + vals[2]);
      var origCol := Wrap(p.origCol + vals[3]);
      var nameIdx := if |vals| >= 5 then Wrap(p.nameIdx + vals[4]) else p.nameIdx;
      var name := if |vals| >= 5 then At(names, nameIdx) else "";
      Parser(genCol, srcIdx, origLine, origCol, nameIdx,
        p.ms + [Mapping(Wrap(line + 1), genCol, At(sources, srcIdx), Wrap(origLine + 1), origCol, name, true)])
  }

  function StepText(p: Parser, line: nat, seg: string, sources: seq<string>, names: seq<string>): Parser {
    if seg == "" || Decode(seg).None? || Decode(seg).value == [] then p
    else Step(p, line, Decode(seg).value, sources, names)
  }

  function Segments(p: Parser, line: nat, segs: seq<string>, sources: seq<string>, names: seq<string>): Parser
    decreases |segs|
  {
    if segs == [] then p
    else Segments(StepText(p, line, segs[0], sources, names), line, segs[1..], sources, names)
  }

  function LinesFrom(p: Parser, line: nat, lines: seq<string>, sources: seq<string>, names: seq<string>): Parser
    decreases |lines|
  {
    if lines == [] then p
    else
      LinesFrom(Segments(p.(genCol := 0), line, Split(lines[0], ','), sources, names),
        line + 1, lines[1..], sources, names)
  }

  function Mappings(text: string, sources: seq<string>, names: seq<string>): seq<Mapping> {
    LinesFrom(Parser(0, 0, 0, 0, 0, []), 0, Split(text, ';'), sources, names).ms
  }

  // The inner loop: one line's segments.
  method ParseLine(p: Parser, line: nat, text: string, sources: seq<string>, names: seq<string>) returns (q: Parser)
    ensures q == Segments(p.(genCol := 0), line, Split(text, ','), sources, names)
  {
    var segs := Split(text, ',');
    q := p.(genCol := 0);
    for i := 0 to |segs|
      invariant Segments(p.(genCol := 0), line, segs, sources, names) == Segments(q, line, segs[i..], sources, names)
    {
      assert segs[i..][0] == segs[i] && segs[i..][1..] == segs[i + 1..];
      if segs[i] == "" {
        continue;
      }
      var vals := DecodeVlqs(segs[i]);
      if vals.None? || |vals.value| == 0 {
        continue;
      }
      q := ParseSegment(q, line, vals.value, sources, names);
    }
  }

  // Its body, once the segment has decoded.
  method ParseSegment(
      p: Parser, line: nat, vals: seq<int>, sources: seq<string>, names: seq<string>) returns (q: Parser)
    requires vals != []
    ensures q == Step(p, line, vals, sources, names)
  {
    q := p.(genCol := Wrap(p.genCol + vals[0]));
    var m := Mapping(Wrap(line + 1), q.genCol, "", 0, 0, "", false);
    if |vals| >= 4 {
      q := q.(srcIdx := Wrap(q.srcIdx + vals[1]));
      q := q.(origLine := Wrap(q.origLine + vals[2]));
      q := q.(origCol := Wrap(q.origCol + vals[3]));
      m := m.(source := At(sources, q.srcIdx), origLine := Wrap(q.origLine + 1), origCol := q.origCol, hasOrig := true);
      if |vals| >= 5 {
        q := q.(nameIdx := Wrap(q.nameIdx + vals[4]));
        m := m.(name := At(names, q.nameIdx));
      }
    }
    q := q.(ms := q.ms + [m]);
  }

  method ParseMappings(text: string, sources: seq<string>, names: seq<string>) returns (ms: seq<Mapping>)
    ensures ms == Mappings(text, sources, names)
  {
    var lines := Split(text, ';');
    var p := Parser(0, 0, 0, 0, 0, []);
    for line := 0 to |lines|
      invariant Mappings(text, sources, names) == LinesFrom(p, line, lines[line..], sources, names).ms
    {
      assert lines[line..][0] == lines[line] && lines[line..][1..] == lines[line + 1..];
      p := ParseLine(p, line, lines[line], sources, names);
    }
    return p.ms;
  }

  /* ---- the encoder of ECMA-426, section "Mappings structure" ---- */

  datatype Original = Original(source: nat, line: nat, col: nat, name: Option<nat>)
  datatype Segment = Segment(col: nat, orig: Option<Original>)

  // The fields of the segments before: all but the column run across lines.
  datatype Prior = Prior(source: nat, line: nat, col: nat, name: nat)

  function Deltas(p: Prior, prevCol: nat, s: Segment): (vals: seq<int>)
    ensures |vals| == 1 || |vals| == 4 || |vals| == 5
  {
    if s.orig.None? then [s.col - prevCol]
    else
      var o := s.orig.value;
      var four := [s.col - prevCol, o.source - p.source, o.line - p.line, o.col - p.col];
      if o.name.None? then four else four + [o.name.value - p.name]
  }

  function After(p: Prior, s: Segment): Prior {
    if s.orig.None? then p
    else
      var o := s.orig.value;
      Prior(o.source, o.line, o.col, if o.name.None? then p.name else o.name.value)
  }

  function AfterAll(p: Prior, segs: seq<Segment>): Prior
    decreases |segs|
  {
    if segs == [] then p else AfterAll(After(p, segs[0]), segs[1..])
  }

  function SegmentTexts(p: Prior, prevCol: nat, segs: seq<Segment>): (texts: seq<string>)
    ensures |texts| == |segs|
    decreases |segs|
  {
    if segs == [] then []
    else [EncodeVlqs(Deltas(p, prevCol, segs[0]))] + SegmentTexts(After(p, segs[0]), segs[0].col, segs[1..])
  }

  function LineTexts(p: Prior, lines: seq<seq<Segment>>): (texts: seq<string>)
    ensures |texts| == |lines|
    decreases |lines|
  {
    if lines == [] then []
    else [Join(SegmentTexts(p, 0, lines[0]), ',')] + LineTexts(AfterAll(p, lines[0]), lines[1..])
  }

  function EncodeMappings(lines: seq<seq<Segment>>): string {
    Join(LineTexts(Prior(0, 0, 0, 0), lines), ';')
  }

  // The mappings the text stands for.
  function Meant(line: nat, s: Segment, sources: seq<string>, names: seq<string>): Mapping {
    if s.orig.None? then Mapping(line + 1, s.col, "", 0, 0, "", false)
    else
      var o := s.orig.value;
      var source := if 0 <= o.source < |sources| then sources[o.source] else "";
      var name := if o.name.Some? && 0 <= o.name.value < |names| then names[o.name.value] else "";
      Mapping(line + 1, s.col, source, o.line + 1, o.col, name, true)
  }

  function MeantLine(line: nat, segs: seq<Segment>, sources: seq<string>, names: seq<string>): seq<Mapping> {
    if segs == [] then [] else [Meant(line, segs[0], sources, names)] + MeantLine(line, segs[1..], sources, names)
  }

  function MeantFrom(line: nat, lines: seq<seq<Segment>>, sources: seq<string>, names: seq<string>): seq<Mapping>
    decreases |lines|
  {
    if lines == [] then []
    else MeantLine(line, lines[0], sources, names) + MeantFrom(line + 1, lines[1..], sources, names)
  }

  // Every field fits: below 2^62, so every delta is.
  predicate SmallSegment(s: Segment) {
    && s.col < TWO_62
    && (s.orig.Some? ==>
          && s.orig.value.source < TWO_62 && s.orig.value.line < TWO_62 && s.orig.value.col < TWO_62
          && (s.orig.value.name.Some? ==> s.orig.value.name.value < TWO_62))
  }

  predicate SmallPrior(p: Prior) {
    p.source < TWO_62 && p.line < TWO_62 && p.col < TWO_62 && p.name < TWO_62
  }

  predicate SmallLine(segs: seq<Segment>) {
    forall i :: 0 <= i < |segs| ==> SmallSegment(segs[i])
  }

  predicate SmallLines(line: nat, lines: seq<seq<Segment>>) {
    line + |lines| < TWO_62 && forall i :: 0 <= i < |lines| ==> SmallLine(lines[i])
  }

  function ParserOf(p: Prior, col: nat, ms: seq<Mapping>): Parser {
    Parser(col, p.source, p.line, p.col, p.name, ms)
  }

  lemma StepOnDeltas(
      p: Prior, col: nat, ms: seq<Mapping>, line: nat, s: Segment, sources: seq<string>, names: seq<string>)
    requires SmallSegment(s) && line < TWO_62
    ensures Step(ParserOf(p, col, ms), line, Deltas(p, col, s), sources, names) ==
      ParserOf(After(p, s), s.col, ms + [Meant(line, s, sources, names)])
  {
  }

  lemma DeltasAreSmall(p: Prior, col: nat, s: Segment)
    requires SmallSegment(s) && SmallPrior(p) && col < TWO_62
    ensures Decode(EncodeVlqs(Deltas(p, col, s))) == Some(Deltas(p, col, s))
    ensures EncodeVlqs(Deltas(p, col, s)) != ""
  {
    RoundTripIff(Deltas(p, col, s));
  }

  lemma {:induction false} SegmentRoundTrip(
    p: Prior, col: nat, ms: seq<Mapping>, line: nat, s: Segment, sources: seq<string>, names: seq<string>)
    requires SmallSegment(s) && SmallPrior(p) && col < TWO_62 && line < TWO_62
    ensures StepText(ParserOf(p, col, ms), line, EncodeVlqs(Deltas(p, col, s)), sources, names) ==
      ParserOf(After(p, s), s.col, ms + [Meant(line, s, sources, names)])
  {
    DeltasAreSmall(p, col, s);
    StepOnDeltas(p, col, ms, line, s, sources, names);
  }

  lemma {:induction false} SegmentTextsClean(p: Prior, col: nat, segs: seq<Segment>)
    ensures forall t :: t in SegmentTexts(p, col, segs) ==> ',' !in t && ';' !in t
    decreases |segs|
  {
    if segs != [] {
      CharsRoundTrip(DigitsAll(Deltas(p, col, segs[0])));
      SegmentTextsClean(After(p, segs[0]), segs[0].col, segs[1..]);
    }
  }

  lemma JoinClean(parts: seq<string>, c: char, d: char)
    requires c != d && forall t :: t in parts ==> c !in t
    ensures c !in Join(parts, d)
  {
  }

  lemma {:induction false} LineTextsClean(p: Prior, lines: seq<seq<Segment>>)
    ensures forall t :: t in LineTexts(p, lines) ==> ';' !in t
    decreases |lines|
  {
    if lines != [] {
      SegmentTextsClean(p, 0, lines[0]);
      JoinClean(SegmentTexts(p, 0, lines[0]), ';', ',');
      LineTextsClean(AfterAll(p, lines[0]), lines[1..]);
    }
  }

  lemma {:induction false} SegmentsRoundTrip(
    p: Prior, col: nat, ms: seq<Mapping>, line: nat, segs: seq<Segment>, sources: seq<string>, names: seq<string>)
    returns (last: nat)
    requires SmallLine(segs) && SmallPrior(p) && col < TWO_62 && line < TWO_62
    ensures SmallPrior(AfterAll(p, segs))
    ensures Segments(ParserOf(p, col, ms), line, SegmentTexts(p, col, segs), sources, names) ==
      ParserOf(AfterAll(p, segs), last, ms + MeantLine(line, segs, sources, names))
    decreases |segs|
  {
    if segs == [] {
      last := col;
      assert ms + [] == ms;
    } else {
      var s := segs[0];
      assert SmallSegment(s);
      SegmentRoundTrip(p, col, ms, line, s, sources, names);
      last := SegmentsRoundTrip(After(p, s), s.col, ms + [Meant(line, s, sources, names)],
        line, segs[1..], sources, names);
      Regroup(ms, [Meant(line, s, sources, names)], MeantLine(line, segs[1..], sources, names));
    }
  }

  // One line, through strings.Split; an empty line splits into one empty segment.
  lemma {:induction false} LineRoundTrip(
    p: Prior, ms: seq<Mapping>, line: nat, segs: seq<Segment>, sources: seq<string>, names: seq<string>)
    returns (last: nat)
    requires SmallLine(segs) && SmallPrior(p) && line < TWO_62
    ensures SmallPrior(AfterAll(p, segs))
    ensures Segments(ParserOf(p, 0, ms), line, Split(Join(SegmentTexts(p, 0, segs), ','), ','), sources, names) ==
      ParserOf(AfterAll(p, segs), last, ms + MeantLine(line, segs, sources, names))
  {
    last := SegmentsRoundTrip(p, 0, ms, line, segs, sources, names);
    if segs == [] {
      assert Split("", ',') == [""];
    } else {
      SegmentTextsClean(p, 0, segs);
      SplitUndoesJoin(SegmentTexts(p, 0, segs), ',');
    }
  }

  lemma {:induction false} FirstLine(
    p: Prior, col: nat, ms: seq<Mapping>, line: nat, lines: seq<seq<Segment>>, sources: seq<string>, names: seq<string>)
    returns (last: nat)
    requires lines != [] && SmallLine(lines[0]) && SmallPrior(p) && line < TWO_62
    ensures SmallPrior(AfterAll(p, lines[0]))
    ensures LinesFrom(ParserOf(p, col, ms), line, LineTexts(p, lines), sources, names) ==
      LinesFrom(ParserOf(AfterAll(p, lines[0]), last, ms + MeantLine(line, lines[0], sources, names)), line + 1,
        LineTexts(AfterAll(p, lines[0]), lines[1..]), sources, names)
  {
    last := LineRoundTrip(p, ms, line, lines[0], sources, names);
    var text := Join(SegmentTexts(p, 0, lines[0]), ',');
    var rest := LineTexts(AfterAll(p, lines[0]), lines[1..]);
    assert ([text] + rest)[1..] == rest;
    assert ParserOf(p, col, ms).(genCol := 0) == ParserOf(p, 0, ms);
  }

  lemma {:induction false} LinesRoundTrip(
    p: Prior, col: nat, ms: seq<Mapping>, line: nat, lines: seq<seq<Segment>>, sources: seq<string>, names: seq<string>)
    requires SmallLines(line, lines) && SmallPrior(p)
    ensures LinesFrom(ParserOf(p, col, ms), line, LineTexts(p, lines), sources, names).ms ==
      ms + MeantFrom(line, lines, sources, names)
    decreases |lines|, 1
  {
    if lines == [] {
      assert ms + [] == ms;
    } else {
      assert SmallLine(lines[0]) && SmallLines(line + 1, lines[1..]);
      var last := FirstLine(p, col, ms, line, lines, sources, names);
      RestOfLines(AfterAll(p, lines[0]), last, ms, line, lines, sources, names);
    }
  }

  lemma RestOfLines(
    p: Prior, col: nat, ms: seq<Mapping>, line: nat, lines: seq<seq<Segment>>, sources: seq<string>, names: seq<string>)
    requires lines != [] && SmallLines(line + 1, lines[1..]) && SmallPrior(p)
    ensures LinesFrom(ParserOf(p, col, ms + MeantLine(line, lines[0], sources, names)), line + 1,
        LineTexts(p, lines[1..]), sources, names).ms == ms + MeantFrom(line, lines, sources, names)
    decreases |lines|, 0
  {
    LinesRoundTrip(p, col, ms + MeantLine(line, lines[0], sources, names), line + 1, lines[1..], sources, names);
    Regroup(ms, MeantLine(line, lines[0], sources, names), MeantFrom(line + 1, lines[1..], sources, names));
  }

  lemma NoMappings(p: Parser, sources: seq<string>, names: seq<string>)
    ensures LinesFrom(p, 0, Split("", ';'), sources, names).ms == p.ms
  {
    assert Split("", ';') == [""] && Split("", ',') == [""];
    assert Segments(p.(genCol := 0), 0, [""], sources, names) == p.(genCol := 0);
  }

  // Decoding the text of any list of segments gives back exactly its mappings.
  lemma MappingsRoundTrip(lines: seq<seq<Segment>>, sources: seq<string>, names: seq<string>)
    requires SmallLines(0, lines)
    ensures Mappings(EncodeMappings(lines), sources, names) == MeantFrom(0, lines, sources, names)
  {
    var p := Prior(0, 0, 0, 0);
    if lines == [] {
      NoMappings(Parser(0, 0, 0, 0, 0, []), sources, names);
    } else {
      LineTextsClean(p, lines);
      SplitUndoesJoin(LineTexts(p, lines), ';');
      LinesRoundTrip(p, 0, [], 0, lines, sources, names);
      assert [] + MeantFrom(0, lines, sources, names) == MeantFrom(0, lines, sources, names);
    }
  }

  /* ---- a list of segments with their lines, sorted by generated position ---- */

  datatype Placed = Placed(line: nat, seg: Segment)

  predicate InOrder(a: Placed, b: Placed) {
    a.line < b.line || (a.line == b.line && a.seg.col <= b.seg.col)
  }

  predicate SortedFrom(line: nat, list: seq<Placed>) {
    && (list != [] ==> line <= list[0].line)
    && (forall i, j :: 0 <= i < j < |list| ==> InOrder(list[i], list[j]))
  }

  lemma RestSorted(line: nat, list: seq<Placed>)
    requires SortedFrom(line, list)
    ensures SortedFrom(line + 1, list[|OnLine(line, list)|..])
  {
    var n := |OnLine(line, list)|;
    if 0 < n < |list| {
      assert InOrder(list[0], list[n]);
    }
  }

  function OnLine(line: nat, list: seq<Placed>): (segs: seq<Segment>)
    ensures |segs| <= |list|
    ensures forall i :: 0 <= i < |segs| ==> list[i] == Placed(line, segs[i])
    ensures |segs| < |list| ==> list[|segs|].line != line
  {
    if list == [] || list[0].line != line then [] else [list[0].seg] + OnLine(line, list[1..])
  }

  // The list cut into lines; a line without segments is empty.
  function LinesOf(line: nat, list: seq<Placed>): seq<seq<Segment>>
    requires SortedFrom(line, list)
    decreases |list|, if list == [] then 0 else list[0].line - line
  {
    if list == [] then []
    else
      var segs := OnLine(line, list);
      RestSorted(line, list);
      [segs] + LinesOf(line + 1, list[|segs|..])
  }

  function MeantList(list: seq<Placed>, sources: seq<string>, names: seq<string>): seq<Mapping> {
    if list == [] then []
    else [Meant(list[0].line, list[0].seg, sources, names)] + MeantList(list[1..], sources, names)
  }

  lemma {:induction false} MeantOnLine(line: nat, list: seq<Placed>, sources: seq<string>, names: seq<string>)
    ensures var segs := OnLine(line, list);
      MeantList(list, sources, names) ==
      MeantLine(line, segs, sources, names) + MeantList(list[|segs|..], sources, names)
  {
    var segs := OnLine(line, list);
    if segs == [] {
      assert list[0..] == list;
    } else {
      MeantOnLine(line, list[1..], sources, names);
      assert segs[1..] == OnLine(line, list[1..]);
      assert list[1..][|segs| - 1..] == list[|segs|..];
    }
  }

  lemma {:induction false} LinesOfHold(line: nat, list: seq<Placed>, sources: seq<string>, names: seq<string>)
    requires SortedFrom(line, list)
    ensures MeantFrom(line, LinesOf(line, list), sources, names) == MeantList(list, sources, names)
    decreases |list|, if list == [] then 0 else list[0].line - line
  {
    if list != [] {
      var segs := OnLine(line, list);
      RestSorted(line, list);
      MeantOnLine(line, list, sources, names);
      LinesOfHold(line + 1, list[|segs|..], sources, names);
    }
  }

  predicate SmallList(line: nat, list: seq<Placed>) {
    line < TWO_62 && forall i :: 0 <= i < |list| ==> list[i].line < TWO_62 - 1 && SmallSegment(list[i].seg)
  }

  lemma OnLineIsSmall(line: nat, list: seq<Placed>)
    requires SmallList(line, list)
    ensures SmallLine(OnLine(line, list))
  {
    var segs := OnLine(line, list);
    forall i | 0 <= i < |segs|
      ensures SmallSegment(segs[i])
    {
      assert list[i] == Placed(line, segs[i]);
    }
  }

  lemma ConsIsSmall(line: nat, segs: seq<Segment>, rest: seq<seq<Segment>>)
    requires SmallLine(segs) && SmallLines(line + 1, rest)
    ensures SmallLines(line, [segs] + rest)
  {
  }

  lemma {:induction false} LinesOfAreSmall(line: nat, list: seq<Placed>)
    requires SortedFrom(line, list) && SmallList(line, list)
    ensures SmallLines(line, LinesOf(line, list))
    decreases |list|, if list == [] then 0 else list[0].line - line
  {
    if list != [] {
      var segs := OnLine(line, list);
      assert list[0].line < TWO_62 - 1;
      RestSorted(line, list);
      LinesOfAreSmall(line + 1, list[|segs|..]);
      OnLineIsSmall(line, list);
      ConsIsSmall(line, segs, LinesOf(line + 1, list[|segs|..]));
    }
  }

  // Encoding a sorted mapping list and decoding the text gives the list back.
  lemma ListRoundTrip(list: seq<Placed>, sources: seq<string>, names: seq<string>)
    requires SortedFrom(0, list) && SmallList(0, list)
    ensures Mappings(EncodeMappings(LinesOf(0, list)), sources, names) == MeantList(list, sources, names)
  {
    LinesOfAreSmall(0, list);
    MappingsRoundTrip(LinesOf(0, list), sources, names);
    LinesOfHold(0, list, sources, names);
  }
}
