/**
 * Envelope framing: Parse, the printer of the seed generator, and the limits.
 * JSON decoding is a parameter: a Codec of functions, with the laws a round
 * trip needs stated where they are used.
 */
module Envelopes {
  import opened Basics
  import opened Options
  import opened Text

  type Byte = x: int | 0 <= x < 256
  type Bytes = seq<Byte>

  const NEWLINE: Byte := 10
  const MAX_EVENTS := 500
  const MAX_SESSIONS := 5000
  const MAX_ATTACHMENTS := 8
  const MAX_ATTACHMENT_SIZE := 0x80_0000
  const MAX_FILENAME := 255
  const MAX_CONTENT_TYPE := 128

  datatype Kind = Event | Sessions | Attached | UserReport | ClientReport | CheckIn | OtherKind
  datatype ItemHeader = ItemHeader(
    kind: Kind, length: Option<int>, filename: string, contentType: string, attachmentType: string)
  datatype Header = Header(eventId: string, sentAt: string)
  datatype Frame = Frame(header: ItemHeader, body: Bytes)
  datatype Attachment = Attachment(filename: string, contentType: string, attachmentType: string, data: Bytes)

  datatype Codec<!E, !S> = Codec(
    readHeader: Bytes -> Option<Header>,
    writeHeader: Header -> Bytes,
    blank: Bytes -> bool,
    readItem: Bytes -> Option<ItemHeader>,
    writeItem: ItemHeader -> Bytes,
    event: (Header, Bytes) -> Option<E>,
    sessions: Bytes -> seq<S>,
    report: (Header, Bytes) -> bool,
    clientReport: Bytes -> (nat, nat),
    checkIn: Bytes -> bool,
    trim: string -> string,
    lower: string -> string)

  datatype Envelope<E, S> = Envelope(
    events: seq<E>, invalid: nat, dropped: nat, sessions: seq<S>, attachments: seq<Attachment>,
    userReport: bool, clientReports: nat, checkIn: bool)

  /* ---- framing ---- */

  function CutLine(b: Bytes): (r: (Bytes, Bytes))
    ensures b != [] ==> |r.1| < |b|
    ensures |r.0| + |r.1| <= |b|
  {
    var i := IndexOf(b, NEWLINE);
    if i >= 0 then (b[..i], b[i + 1..]) else (b, [])
  }

  // An item body: the length the header gives if it fits, else the next line.
  function CutBody(h: ItemHeader, rest: Bytes): (r: (Bytes, Bytes))
    ensures |r.1| <= |rest|
  {
    if h.length.Some? && 0 <= h.length.value <= |rest| then
      var after := rest[h.length.value..];
      (rest[..h.length.value], if after != [] && after[0] == NEWLINE then after[1..] else after)
    else CutLine(rest)
  }

  // The items in the order of the bytes; an unreadable line is skipped alone.
  function Frames<E, S>(c: Codec<E, S>, rest: Bytes): seq<Frame>
    decreases |rest|
  {
    if rest == [] then []
    else
      var (line, next) := CutLine(rest);
      var header := c.readItem(line);
      if c.blank(line) || header.None? then Frames(c, next)
      else
        var (body, after) := CutBody(header.value, next);
        [Frame(header.value, body)] + Frames(c, after)
  }

  /* ---- an attachment's header values ---- */

  function Truncate(s: string, n: nat): string {
    if |s| <= n then s else s[..n]
  }

  // The base name, bounded.
  function AttachmentName<E, S>(c: Codec<E, S>, s: string): string {
    var name := Truncate(AfterLastSlash(c.trim(s)), MAX_FILENAME);
    if name == "" || name == "." || name == ".." then "attachment" else name
  }

  function CleanLower<E, S>(c: Codec<E, S>, s: string, max: nat, def: string): string {
    var clean := Truncate(c.lower(c.trim(s)), max);
    if clean == "" then def else clean
  }

  function AttachmentOf<E, S>(c: Codec<E, S>, f: Frame): Attachment {
    Attachment(AttachmentName(c, f.header.filename),
               CleanLower(c, f.header.contentType, MAX_CONTENT_TYPE, "application/octet-stream"),
               CleanLower(c, f.header.attachmentType, MAX_CONTENT_TYPE, "event.attachment"), f.body)
  }

  // Whatever the SDK sends, the stored name is a plain file name.
  lemma {:induction false} AttachmentNameIsPlain<E, S>(c: Codec<E, S>, s: string)
    ensures var name := AttachmentName(c, s);
      name !in ["", ".", ".."] && |name| <= MAX_FILENAME && '/' !in name && '\\' !in name
  {
    var tail := AfterLastSlash(c.trim(s));
    assert forall x :: x in Truncate(tail, MAX_FILENAME) ==> x in tail;
  }

  // A name that fits is kept, without the directory it may come with.
  lemma {:induction false} AttachmentNameIs<E, S>(c: Codec<E, S>, s: string, dir: string, file: string)
    requires c.trim(s) == dir + file && (dir == "" || dir[|dir| - 1] in "/\\")
    requires '/' !in file && '\\' !in file
    ensures AttachmentName(c, s) == if file in ["", ".", ".."] then "attachment" else file[..Min(255, |file|)]
  {
    BaseOf(dir, file);
  }

  // The stored types are the SDK's, trimmed and lower-cased, cut to 128 characters;
  // one that says nothing becomes the default.
  lemma AttachmentTypesAre<E, S>(c: Codec<E, S>, f: Frame)
    ensures var a := AttachmentOf(c, f);
      var content, kind := c.lower(c.trim(f.header.contentType)), c.lower(c.trim(f.header.attachmentType));
      && a.data == f.body
      && (if content == "" then a.contentType == "application/octet-stream"
          else a.contentType != "" && |a.contentType| <= 128 && a.contentType <= content
               && (|content| <= 128 ==> a.contentType == content))
      && (if kind == "" then a.attachmentType == "event.attachment"
          else a.attachmentType != "" && |a.attachmentType| <= 128 && a.attachmentType <= kind
               && (|kind| <= 128 ==> a.attachmentType == kind))
  {
  }

  /* ---- what Parse does with an item ---- */

  function Handle<E, S>(c: Codec<E, S>, h: Header, env: Envelope<E, S>, f: Frame): Envelope<E, S> {
    match f.header.kind
    case Event =>
      if |env.events| > MAX_EVENTS then env.(dropped := env.dropped + 1)
      else if c.event(h, f.body).Some? then env.(events := env.events + [c.event(h, f.body).value])
      else env.(invalid := env.invalid + 1)
    case Sessions =>
      if |env.sessions| >= MAX_SESSIONS then env.(dropped := env.dropped + 1)
      else
        var ss := c.sessions(f.body);
        var n := MAX_SESSIONS - |env.sessions|;
        if |ss| > n then env.(dropped := env.dropped + |ss| - n, sessions := env.sessions + ss[..n])
        else env.(sessions := env.sessions + ss)
    case Attached =>
      if |env.attachments| >= MAX_ATTACHMENTS || |f.body| > MAX_ATTACHMENT_SIZE then env.(dropped := env.dropped + 1)
      else env.(attachments := env.attachments + [AttachmentOf(c, f)])
    case UserReport => if c.report(h, f.body) then env.(userReport := true) else env.(dropped := env.dropped + 1)
    case ClientReport =>
      var (counts, dropped) := c.clientReport(f.body);
      env.(clientReports := env.clientReports + counts, dropped := env.dropped + dropped)
    case CheckIn => if c.checkIn(f.body) then env.(checkIn := true) else env.(dropped := env.dropped + 1)
    case OtherKind => env.(dropped := env.dropped + 1)
  }

  // Nothing goes without a trace: what an item brings is kept or counted, and an
  // item past its limit counts as one.
  lemma ItemsAreAccounted<E, S>(c: Codec<E, S>, h: Header, env: Envelope<E, S>, f: Frame)
    requires |env.events| <= 501 && |env.sessions| <= 5000 && |env.attachments| <= 8
    ensures var after := Handle(c, h, env, f);
      var dropped := after.dropped - env.dropped;
      match f.header.kind
      case Event => |after.events| - |env.events| + after.invalid - env.invalid + dropped == 1
      case Sessions =>
        |after.sessions| - |env.sessions| + dropped == if |env.sessions| < 5000 then |c.sessions(f.body)| else 1
      case Attached => |after.attachments| - |env.attachments| + dropped == 1
      case UserReport =>
        && dropped == (if c.report(h, f.body) then 0 else 1)
        && after.userReport == (env.userReport || c.report(h, f.body))
      case ClientReport =>
        (after.clientReports - env.clientReports, dropped) == c.clientReport(f.body)
      case CheckIn =>
        dropped == (if c.checkIn(f.body) then 0 else 1) && after.checkIn == (env.checkIn || c.checkIn(f.body))
      case OtherKind => after == env.(dropped := env.dropped + 1)
  {
  }


  function HandleAll<E, S>(c: Codec<E, S>, h: Header, env: Envelope<E, S>, fs: seq<Frame>): Envelope<E, S>
    decreases |fs|
  {
    if fs == [] then env else HandleAll(c, h, Handle(c, h, env, fs[0]), fs[1..])
  }

  function Empty<E, S>(): Envelope<E, S> {
    Envelope([], 0, 0, [], [], false, 0, false)
  }

  // The header line, and the bytes after it.
  function HeaderLine(body: Bytes): (Bytes, Bytes) {
    CutLine(body)
  }

  function Parsed<E, S>(c: Codec<E, S>, body: Bytes): Envelope<E, S> {
    var (line, rest) := HeaderLine(body);
    if c.readHeader(line).None? then Empty()
    else HandleAll(c, c.readHeader(line).value, Empty(), Frames(c, rest))
  }

  method Parse<E, S>(c: Codec<E, S>, body: Bytes) returns (env: Envelope<E, S>)
    ensures env == Parsed(c, body) && Bounded(env)
  {
    var line, rest := CutHeader(body);
    var hdr := c.readHeader(line);
    if hdr.None? {
      return Empty();
    }
    env := ParseItems(c, hdr.value, rest);
  }

  method CutHeader(body: Bytes) returns (line: Bytes, rest: Bytes)
    ensures line == HeaderLine(body).0 && rest == HeaderLine(body).1
  {
    var nl := IndexOf(body, NEWLINE);
    if nl < 0 {
      return body, [];
    }
    return body[..nl], body[nl + 1..];
  }

  method ParseItems<E, S>(c: Codec<E, S>, h: Header, all: Bytes) returns (env: Envelope<E, S>)
    ensures env == HandleAll(c, h, Empty(), Frames(c, all)) && Bounded(env)
  {
    env := Empty();
    var rest := all;
    while |rest| > 0
      invariant HandleAll(c, h, Empty(), Frames(c, all)) == HandleAll(c, h, env, Frames(c, rest))
      invariant Bounded(env)
      decreases |rest|
    {
      var item, next := NextItem(c, rest);
      rest := next;
      if item.Some? {
        env := HandleItem(c, h, env, item.value, Frames(c, rest));
      }
    }
  }

  // The second half of the loop's body.
  method HandleItem<E, S>(c: Codec<E, S>, h: Header, env: Envelope<E, S>, f: Frame, ghost fs: seq<Frame>)
    returns (next: Envelope<E, S>)
    requires Bounded(env)
    ensures Bounded(next) && HandleAll(c, h, env, [f] + fs) == HandleAll(c, h, next, fs)
  {
    HandleFirst(c, h, env, f, fs);
    HandleBounded(c, h, env, f);
    next := Handle(c, h, env, f);
  }

  // The first half of the loop's body: one line, and the item body it announces.
  method NextItem<E, S>(c: Codec<E, S>, start: Bytes) returns (item: Option<Frame>, rest: Bytes)
    requires |start| > 0
    ensures |rest| < |start|
    ensures Frames(c, start) == (if item.Some? then [item.value] + Frames(c, rest) else Frames(c, rest))
  {
    var line, next := CutLine(start).0, CutLine(start).1;
    rest := next;
    if c.blank(line) {
      return None, rest;
    }
    var ih := c.readItem(line);
    if ih.None? {
      return None, rest;
    }
    var itemBody: Bytes;
    if ih.value.length.Some? && 0 <= ih.value.length.value <= |rest| {
      itemBody := rest[..ih.value.length.value];
      rest := rest[ih.value.length.value..];
      if |rest| > 0 && rest[0] == NEWLINE {
        rest := rest[1..];
      }
    } else {
      itemBody, rest := CutLine(rest).0, CutLine(rest).1;
    }
    return Some(Frame(ih.value, itemBody)), rest;
  }

  predicate Bounded<E, S>(env: Envelope<E, S>) {
    && |env.events| <= MAX_EVENTS + 1 && |env.sessions| <= MAX_SESSIONS && |env.attachments| <= MAX_ATTACHMENTS
    && forall i :: 0 <= i < |env.attachments| ==> |env.attachments[i].data| <= MAX_ATTACHMENT_SIZE
  }

  lemma HandleBounded<E, S>(c: Codec<E, S>, h: Header, env: Envelope<E, S>, f: Frame)
    requires Bounded(env)
    ensures Bounded(Handle(c, h, env, f))
  {
  }

  lemma HandleFirst<E, S>(c: Codec<E, S>, h: Header, env: Envelope<E, S>, f: Frame, fs: seq<Frame>)
    ensures HandleAll(c, h, env, [f] + fs) == HandleAll(c, h, Handle(c, h, env, f), fs)
  {
    assert ([f] + fs)[1..] == fs;
  }

  /* ---- the printer ---- */

  datatype Upload = Upload(filename: string, contentType: string, data: Bytes)
  datatype Item = Item(kind: Kind, body: Bytes, attachments: seq<Upload>)

  function FrameOf(kind: Kind, body: Bytes): Frame {
    Frame(ItemHeader(kind, Some(|body|), "", "", ""), body)
  }

  function UploadFrame(a: Upload): Frame {
    Frame(ItemHeader(Attached, Some(|a.data|), a.filename, a.contentType, "event.attachment"), a.data)
  }

  function FramesOf(atts: seq<Upload>): seq<Frame> {
    if atts == [] then []
    else [UploadFrame(atts[0])] + FramesOf(atts[1..])
  }

  function AllFrames(items: seq<Item>): seq<Frame> {
    if items == [] then []
    else [FrameOf(items[0].kind, items[0].body)] + FramesOf(items[0].attachments) + AllFrames(items[1..])
  }

  // Header line, body, newline.
  function PrintFrame<E, S>(c: Codec<E, S>, f: Frame): Bytes {
    c.writeItem(f.header) + [NEWLINE] + f.body + [NEWLINE]
  }

  function PrintFrames<E, S>(c: Codec<E, S>, fs: seq<Frame>): Bytes {
    if fs == [] then [] else PrintFrame(c, fs[0]) + PrintFrames(c, fs[1..])
  }

  // gen.envelope.
  method Print<E, S>(c: Codec<E, S>, h: Header, items: seq<Item>) returns (sb: Bytes)
    ensures sb == c.writeHeader(h) + [NEWLINE] + PrintFrames(c, AllFrames(items))
  {
    sb := c.writeHeader(h) + [NEWLINE];
    ghost var head := sb;
    for i := 0 to |items|
      invariant sb == head + PrintFrames(c, AllFrames(items[..i]))
    {
      var it := items[i];
      var first := PrintItem(c, FrameOf(it.kind, it.body));
      var rest := PrintAttachments(c, it.attachments);
      PrintedMore(c, items, i);
      Regroup(head, PrintFrames(c, AllFrames(items[..i])), first);
      Regroup(head, PrintFrames(c, AllFrames(items[..i])) + first, rest);
      sb := sb + first + rest;
    }
    assert items[..|items|] == items;
  }

  lemma PrintedMore<E, S>(c: Codec<E, S>, items: seq<Item>, i: nat)
    requires i < |items|
    ensures PrintFrames(c, AllFrames(items[..i + 1])) == PrintFrames(c, AllFrames(items[..i])) +
      PrintFrames(c, [FrameOf(items[i].kind, items[i].body)]) + PrintFrames(c, FramesOf(items[i].attachments))
  {
    var f := FrameOf(items[i].kind, items[i].body);
    AllFramesMore(items, i);
    PrintMore(c, AllFrames(items[..i]) + [f], FramesOf(items[i].attachments));
    PrintMore(c, AllFrames(items[..i]), [f]);
  }

  method PrintItem<E, S>(c: Codec<E, S>, f: Frame) returns (sb: Bytes)
    ensures sb == PrintFrames(c, [f])
  {
    sb := c.writeItem(f.header) + [NEWLINE];
    sb := sb + f.body;
    sb := sb + [NEWLINE];
  }

  method PrintAttachments<E, S>(c: Codec<E, S>, atts: seq<Upload>) returns (sb: Bytes)
    ensures sb == PrintFrames(c, FramesOf(atts))
  {
    sb := [];
    for j := 0 to |atts|
      invariant sb == PrintFrames(c, FramesOf(atts[..j]))
    {
      var f := UploadFrame(atts[j]);
      var one := PrintItem(c, f);
      FramesOfMore(atts, j);
      PrintMore(c, FramesOf(atts[..j]), [f]);
      sb := sb + one;
    }
    assert atts[..|atts|] == atts;
  }

  lemma {:induction false} PrintMore<E, S>(c: Codec<E, S>, a: seq<Frame>, b: seq<Frame>)
    ensures PrintFrames(c, a + b) == PrintFrames(c, a) + PrintFrames(c, b)
    decreases |a|
  {
    if a == [] {
      assert a + b == b;
    } else {
      PrintMore(c, a[1..], b);
      assert (a + b)[1..] == a[1..] + b;
    }
  }

  lemma {:induction false} FramesOfMore(atts: seq<Upload>, j: nat)
    requires j < |atts|
    ensures FramesOf(atts[..j + 1]) == FramesOf(atts[..j]) + [UploadFrame(atts[j])]
  {
    if j > 0 {
      FramesOfMore(atts[1..], j - 1);
      assert atts[1..][..j] == atts[..j + 1][1..] && atts[1..][..j - 1] == atts[..j][1..];
    }
  }

  lemma {:induction false} AllFramesMore(items: seq<Item>, i: nat)
    requires i < |items|
    ensures AllFrames(items[..i + 1]) ==
      AllFrames(items[..i]) + [FrameOf(items[i].kind, items[i].body)] + FramesOf(items[i].attachments)
  {
    if i > 0 {
      AllFramesMore(items[1..], i - 1);
      assert items[1..][..i] == items[..i + 1][1..] && items[1..][..i - 1] == items[..i][1..];
    } else {
      assert AllFrames(items[..1][1..]) == [];
    }
  }

  /* ---- the parser undoes the printer ---- */

  // Decoding undoes encoding, and no encoded line has a newline or is blank.
  ghost predicate Lawful<E, S>(c: Codec<E, S>) {
    && (forall h {:trigger c.writeHeader(h)} ::
          c.readHeader(c.writeHeader(h)) == Some(h) && NEWLINE !in c.writeHeader(h))
    && (forall h {:trigger c.writeItem(h)} ::
          c.readItem(c.writeItem(h)) == Some(h) && NEWLINE !in c.writeItem(h) && !c.blank(c.writeItem(h)))
  }

  predicate Sized(fs: seq<Frame>) {
    forall i :: 0 <= i < |fs| ==> fs[i].header.length == Some(|fs[i].body|)
  }

  // A frame that announces its length, or one that does not and whose body is
  // one line.
  predicate Framed(fs: seq<Frame>) {
    forall i :: 0 <= i < |fs| ==> || fs[i].header.length == Some(|fs[i].body|) || OneLine(fs[i])
  }

  predicate OneLine(f: Frame) {
    NEWLINE !in f.body && (f.header.length.None? || f.header.length.value < 0)
  }

  lemma {:induction false} FirstIndex(b: Bytes, c: Byte, n: nat)
    requires n < |b| && b[n] == c && forall k :: 0 <= k < n ==> b[k] != c
    ensures IndexOf(b, c) == n
    decreases n
  {
    if n > 0 {
      FirstIndex(b[1..], c, n - 1);
    }
  }

  lemma CutPrinted(line: Bytes, rest: Bytes)
    requires NEWLINE !in line
    ensures CutLine(line + [NEWLINE] + rest) == (line, rest)
  {
    var b := line + [NEWLINE] + rest;
    FirstIndex(b, NEWLINE, |line|);
    assert b[..|line|] == line && b[|line| + 1..] == rest;
  }

  lemma CutFramed(f: Frame, rest: Bytes)
    requires Framed([f])
    ensures CutBody(f.header, f.body + [NEWLINE] + rest) == (f.body, rest)
  {
    assert [f][0] == f;
    if OneLine(f) {
      CutPrinted(f.body, rest);
    } else {
      CutSized(f.header, f.body, rest);
    }
  }

  // A length past the end of the envelope counts as none.
  lemma CutTooLong(h: ItemHeader, body: Bytes, rest: Bytes)
    requires h.length.Some? && h.length.value > |body| + 1 + |rest| && NEWLINE !in body
    ensures CutBody(h, body + [NEWLINE] + rest) == (body, rest)
  {
    CutPrinted(body, rest);
  }

  // A body of the announced length needs no newline after it, and the last line of
  // an envelope none at its end.
  lemma CutUnended(h: ItemHeader, body: Bytes, rest: Bytes)
    requires if h.length.Some? then h.length.value == |body| && (rest == [] || rest[0] != NEWLINE)
      else rest == [] && NEWLINE !in body
    ensures CutBody(h, body + rest) == (body, rest)
  {
    assert (body + rest)[..|body|] == body && (body + rest)[|body|..] == rest;
    assert rest == [] ==> body + rest == body;
  }

  lemma CutSized(h: ItemHeader, body: Bytes, rest: Bytes)
    requires h.length == Some(|body|)
    ensures CutBody(h, body + [NEWLINE] + rest) == (body, rest)
  {
    var b := body + [NEWLINE] + rest;
    assert b[..|body|] == body && b[|body|..] == [NEWLINE] + rest;
    assert ([NEWLINE] + rest)[1..] == rest;
  }

  // Every item body comes back byte for byte and in order, newlines and all.
  // A blank line or an unreadable header costs its own line and nothing else.
  lemma UnreadableIsSkipped<E, S>(c: Codec<E, S>, line: Bytes, rest: Bytes)
    requires NEWLINE !in line && (c.blank(line) || c.readItem(line).None?)
    ensures Frames(c, line + [NEWLINE] + rest) == Frames(c, rest)
  {
    CutPrinted(line, rest);
  }

  lemma {:induction false} FramesRoundTrip<E, S>(c: Codec<E, S>, fs: seq<Frame>)
    requires Lawful(c) && Framed(fs)
    ensures Frames(c, PrintFrames(c, fs)) == fs
  {
    if fs != [] {
      var f, rest := fs[0], PrintFrames(c, fs[1..]);
      var line := c.writeItem(f.header);
      assert PrintFrames(c, fs) == line + [NEWLINE] + (f.body + [NEWLINE] + rest);
      CutPrinted(line, f.body + [NEWLINE] + rest);
      CutFramed(f, rest);
      FramesRoundTrip(c, fs[1..]);
      assert fs == [f] + fs[1..];
    }
  }

  lemma {:induction false} AttachmentsSized(atts: seq<Upload>)
    ensures Sized(FramesOf(atts))
  {
    if atts != [] {
      AttachmentsSized(atts[1..]);
    }
  }

  lemma {:induction false} AllFramesSized(items: seq<Item>)
    ensures Sized(AllFrames(items))
  {
    if items != [] {
      AttachmentsSized(items[0].attachments);
      AllFramesSized(items[1..]);
    }
  }

  // Parse of a printed envelope handles exactly the printed items, in order.
  lemma ParseUndoesPrint<E, S>(c: Codec<E, S>, h: Header, items: seq<Item>)
    requires Lawful(c)
    ensures Parsed(c, c.writeHeader(h) + [NEWLINE] + PrintFrames(c, AllFrames(items))) ==
      HandleAll(c, h, Empty(), AllFrames(items))
  {
    CutPrinted(c.writeHeader(h), PrintFrames(c, AllFrames(items)));
    AllFramesSized(items);
    FramesRoundTrip(c, AllFrames(items));
  }

  /* ---- every event item is counted once ---- */

  function OfKind(fs: seq<Frame>, events: bool): seq<Frame>
    decreases |fs|
  {
    if fs == [] then []
    else
      var rest := OfKind(fs[1..], events);
      if (fs[0].header.kind == Event) == events then [fs[0]] + rest else rest
  }

  // The event items and the others do not influence each other; the drops add up.
  ghost predicate Splits<E(!new), S(!new)>(all: Envelope<E, S>, events: Envelope<E, S>, others: Envelope<E, S>) {
    && all.events == events.events && all.invalid == events.invalid
    && all == others.(events := all.events, invalid := all.invalid, dropped := all.dropped)
    && all.dropped == events.dropped + others.dropped
  }

  lemma EventSplits<E(!new), S(!new)>(
    c: Codec<E, S>, h: Header, all: Envelope<E, S>, events: Envelope<E, S>, others: Envelope<E, S>, f: Frame)
    requires Splits(all, events, others) && f.header.kind == Event
    ensures Splits(Handle(c, h, all, f), Handle(c, h, events, f), others)
  {
  }

  lemma OtherSplits<E(!new), S(!new)>(
    c: Codec<E, S>, h: Header, all: Envelope<E, S>, events: Envelope<E, S>, others: Envelope<E, S>, f: Frame)
    requires Splits(all, events, others) && f.header.kind != Event
    ensures Splits(Handle(c, h, all, f), events, Handle(c, h, others, f))
  {
  }

  lemma {:induction false} ItemsSplit<E(!new), S(!new)>(
    c: Codec<E, S>, h: Header, all: Envelope<E, S>, events: Envelope<E, S>, others: Envelope<E, S>, fs: seq<Frame>)
    requires Splits(all, events, others)
    ensures Splits(
      HandleAll(c, h, all, fs),
      HandleAll(c, h, events, OfKind(fs, true)),
      HandleAll(c, h, others, OfKind(fs, false)))
    decreases |fs|
  {
    if fs != [] {
      var f := fs[0];
      if f.header.kind == Event {
        HandleFirst(c, h, events, f, OfKind(fs[1..], true));
        EventSplits(c, h, all, events, others, f);
        ItemsSplit(c, h, Handle(c, h, all, f), Handle(c, h, events, f), others, fs[1..]);
      } else {
        HandleFirst(c, h, others, f, OfKind(fs[1..], false));
        OtherSplits(c, h, all, events, others, f);
        ItemsSplit(c, h, Handle(c, h, all, f), events, Handle(c, h, others, f), fs[1..]);
      }
    }
  }

  lemma {:induction false} EventsCounted<E, S>(c: Codec<E, S>, h: Header, env: Envelope<E, S>, fs: seq<Frame>)
    ensures var end := HandleAll(c, h, env, OfKind(fs, true));
      |end.events| + end.invalid + end.dropped == |env.events| + env.invalid + env.dropped + |OfKind(fs, true)|
    decreases |fs|
  {
    if fs != [] {
      var f := fs[0];
      if f.header.kind == Event {
        HandleFirst(c, h, env, f, OfKind(fs[1..], true));
        EventsCounted(c, h, Handle(c, h, env, f), fs[1..]);
      } else {
        EventsCounted(c, h, env, fs[1..]);
      }
    }
  }

  // On arbitrary bytes: every event item is parsed, invalid or dropped, once;
  // what is left of the drops is the other items' own.
  lemma EveryEventIsCountedOnce<E(!new), S(!new)>(c: Codec<E, S>, h: Header, fs: seq<Frame>)
    ensures var others := HandleAll(c, h, Empty(), OfKind(fs, false));
      var env := HandleAll(c, h, Empty(), fs);
      && |env.events| + env.invalid + (env.dropped - others.dropped) == |OfKind(fs, true)|
      && env.dropped >= others.dropped && others.events == []
  {
    ItemsSplit(c, h, Empty(), Empty(), Empty(), fs);
    EventsCounted(c, h, Empty(), fs);
    OthersHaveNoEvents(c, h, Empty(), fs);
  }

  lemma {:induction false} OthersHaveNoEvents<E, S>(c: Codec<E, S>, h: Header, env: Envelope<E, S>, fs: seq<Frame>)
    ensures HandleAll(c, h, env, OfKind(fs, false)).events == env.events
    decreases |fs|
  {
    if fs != [] {
      if fs[0].header.kind == Event {
        OthersHaveNoEvents(c, h, env, fs[1..]);
      } else {
        HandleFirst(c, h, env, fs[0], OfKind(fs[1..], false));
        OthersHaveNoEvents(c, h, Handle(c, h, env, fs[0]), fs[1..]);
      }
    }
  }

  // Which events: the first of the readable ones, in order, up to one past the
  // limit.
  function Readable<E, S>(c: Codec<E, S>, h: Header, fs: seq<Frame>): seq<E>
    decreases |fs|
  {
    if fs == [] then []
    else
      var rest := Readable(c, h, fs[1..]);
      if fs[0].header.kind == Event && c.event(h, fs[0].body).Some? then [c.event(h, fs[0].body).value] + rest else rest
  }

  function FirstN<T>(s: seq<T>, n: nat): seq<T> {
    if |s| <= n then s else s[..n]
  }

  lemma {:induction false} EventsAreTheFirst<E, S>(c: Codec<E, S>, h: Header, env: Envelope<E, S>, fs: seq<Frame>)
    requires |env.events| <= MAX_EVENTS + 1
    ensures HandleAll(c, h, env, fs).events == FirstN(env.events + Readable(c, h, fs), MAX_EVENTS + 1)
    decreases |fs|
  {
    if fs == [] {
      assert env.events + [] == env.events;
    } else {
      EventsAreTheFirst(c, h, Handle(c, h, env, fs[0]), fs[1..]);
      if fs[0].header.kind == Event && c.event(h, fs[0].body).Some? {
        var e := c.event(h, fs[0].body).value;
        assert env.events + ([e] + Readable(c, h, fs[1..])) == env.events + [e] + Readable(c, h, fs[1..]);
      }
    }
  }

  // Session rows and attachments likewise: the first of them, in order, an
  // attachment over the size limit not counted among them.
  function SessionsOf<E, S>(c: Codec<E, S>, f: Frame): seq<S> {
    if f.header.kind == Sessions then c.sessions(f.body) else []
  }

  function AllSessions<E, S>(c: Codec<E, S>, fs: seq<Frame>): seq<S>
    decreases |fs|
  {
    if fs == [] then [] else SessionsOf(c, fs[0]) + AllSessions(c, fs[1..])
  }

  lemma NextSessions<E, S>(c: Codec<E, S>, h: Header, env: Envelope<E, S>, f: Frame)
    requires |env.sessions| <= MAX_SESSIONS
    ensures Handle(c, h, env, f).sessions == FirstN(env.sessions + SessionsOf(c, f), MAX_SESSIONS)
  {
    assert env.sessions + [] == env.sessions;
  }

  lemma {:induction false} SessionsAreTheFirst<E, S>(c: Codec<E, S>, h: Header, env: Envelope<E, S>, fs: seq<Frame>)
    requires |env.sessions| <= MAX_SESSIONS
    ensures HandleAll(c, h, env, fs).sessions == FirstN(env.sessions + AllSessions(c, fs), MAX_SESSIONS)
    decreases |fs|
  {
    if fs == [] {
      assert env.sessions + [] == env.sessions;
    } else {
      var own, rest := SessionsOf(c, fs[0]), AllSessions(c, fs[1..]);
      NextSessions(c, h, env, fs[0]);
      SessionsAreTheFirst(c, h, Handle(c, h, env, fs[0]), fs[1..]);
      FirstOfMore(env.sessions, own, rest, MAX_SESSIONS);
    }
  }

  lemma FirstOfMore<T>(a: seq<T>, own: seq<T>, rest: seq<T>, n: nat)
    ensures FirstN(FirstN(a + own, n) + rest, n) == FirstN(a + (own + rest), n)
  {
    assert a + (own + rest) == a + own + rest;
  }

  function KeepableOf<E, S>(c: Codec<E, S>, f: Frame): seq<Attachment> {
    if f.header.kind == Attached && |f.body| <= MAX_ATTACHMENT_SIZE then [AttachmentOf(c, f)] else []
  }

  function Keepable<E, S>(c: Codec<E, S>, fs: seq<Frame>): seq<Attachment>
    decreases |fs|
  {
    if fs == [] then [] else KeepableOf(c, fs[0]) + Keepable(c, fs[1..])
  }

  lemma NextAttachments<E, S>(c: Codec<E, S>, h: Header, env: Envelope<E, S>, f: Frame)
    requires |env.attachments| <= MAX_ATTACHMENTS
    ensures Handle(c, h, env, f).attachments == FirstN(env.attachments + KeepableOf(c, f), MAX_ATTACHMENTS)
    ensures |Handle(c, h, env, f).attachments| <= MAX_ATTACHMENTS
  {
    assert env.attachments + [] == env.attachments;
  }

  lemma {:induction false} AttachmentsAreTheFirst<E, S>(c: Codec<E, S>, h: Header, env: Envelope<E, S>, fs: seq<Frame>)
    requires |env.attachments| <= MAX_ATTACHMENTS
    ensures HandleAll(c, h, env, fs).attachments == FirstN(env.attachments + Keepable(c, fs), MAX_ATTACHMENTS)
    decreases |fs|
  {
    if fs == [] {
      assert env.attachments + [] == env.attachments;
    } else {
      var own, rest := KeepableOf(c, fs[0]), Keepable(c, fs[1..]);
      NextAttachments(c, h, env, fs[0]);
      AttachmentsAreTheFirst(c, h, Handle(c, h, env, fs[0]), fs[1..]);
      FirstOfMore(env.attachments, own, rest, MAX_ATTACHMENTS);
    }
  }
}
