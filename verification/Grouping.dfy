/** What an event's payload says, as far as grouping looks at it. */
module SentryEvents {
  import opened Options

  // base is None where image_addr does not parse.
  datatype Image = Image(base: Option<int>, size: int, debugId: string, codeFile: string)
  datatype Event = Event(
    platform: string, errorType: string, exceptions: seq<string>, level: string, message: string,
    sdkFingerprint: seq<string>, images: seq<Image>)

  const BLANK_EVENT := Event("", "", [], "", "", [], [])
}

/**
 * Grouping signatures: which frames count, how an unsymbolicated frame is
 * named, and why neither address randomisation nor SDK and runtime frames
 * change the issue an event goes to.
 */
module Grouping {
  import opened Int64
  import opened Options
  import opened Tables
  import opened Text
  import opened SentryEvents

  // instruction_addr: absent, not hexadecimal, or an address.
  datatype Addr = NoAddr | NotHex | Hex(value: int)
  datatype Frame = Frame(
    filename: string, absPath: string, func: string, mod: string, pkg: string, lineno: int, inApp: bool, addr: Addr)

  /* ---- which frames count ---- */

  datatype Kind = Code | Placeholder | Sdk | Runtime
  datatype Field = Pkg | Fn | Path
  datatype NoiseRow = Noise(kind: Kind, field: Field, prefix: bool, pat: string)
  type Noise = n: NoiseRow | n.kind != Code witness Noise(Sdk, Pkg, true, "")

  const FRAME_NOISE: seq<Noise> := [
    Noise(Sdk, Pkg, true, "sentry"), Noise(Sdk, Fn, true, "sentry_"), Noise(Sdk, Fn, true, "sentry::"),
    Noise(Sdk, Fn, true, "sentry."), Noise(Sdk, Fn, true, "io.sentry."), Noise(Sdk, Path, true, "package:sentry"),
    Noise(Sdk, Path, true, "io.sentry."), Noise(Sdk, Path, true, "Sentry."), Noise(Sdk, Path, true, "sentry_"),
    Noise(Sdk, Path, false, "/sentry_sdk/"), Noise(Sdk, Path, false, "/@sentry/"), Noise(Sdk, Path, false, "/sentry-"),
    Noise(Sdk, Path, false, "getsentry/sentry-go"),
    Noise(Runtime, Pkg, true, "__rustc"), Noise(Runtime, Fn, true, "__rustc::"),
    Noise(Runtime, Fn, true, "std::panicking::"),
    Noise(Runtime, Fn, true, "core::panicking::"), Noise(Runtime, Fn, true, "runtime.")]

  function FieldOf(f: Frame, field: Field): string {
    match field
    case Pkg => f.pkg
    case Fn => f.func
    case Path => f.filename + ['\0'] + f.absPath + ['\0'] + f.mod
  }

  predicate IsPlaceholder(v: string) {
    "<" <= v && HasSuffix(v, ">")
  }

  // A prefix matches at the start of any of the joined fields.
  predicate Matches(n: Noise, f: Frame) {
    var v := FieldOf(f, n.field);
    if n.prefix then exists part :: part in Split(v, '\0') && n.pat <= part else Contains(v, n.pat)
  }

  // The first row that matches decides.
  function NoiseKind(rows: seq<Noise>, f: Frame): Kind {
    if rows == [] then Code else if Matches(rows[0], f) then rows[0].kind else NoiseKind(rows[1..], f)
  }

  predicate IsNameless(f: Frame) {
    var hasFile := f.filename != "" || f.absPath != "";
    || (IsPlaceholder(f.func) && !hasFile && f.lineno == 0)
    || (f.func == "" && f.lineno == 0 && (IsPlaceholder(f.filename) || IsPlaceholder(f.absPath)))
    || (f.func == "" && !hasFile && f.mod == "" && f.addr == NoAddr)
  }

  predicate IsRuntime(f: Frame) {
    || (f.mod == "java.lang.Thread" && f.func == "getStackTrace")
    || f.func == "gopanic"
    || f.pkg == "std" || f.pkg == "core" || f.pkg == "alloc"
  }

  function FrameKind(noise: seq<Noise>, f: Frame): Kind {
    if IsNameless(f) then Placeholder else if IsRuntime(f) then Runtime else NoiseKind(noise, f)
  }

  lemma {:induction false} NoiseIsCodeIff(rows: seq<Noise>, f: Frame)
    ensures NoiseKind(rows, f) == Code <==> forall n :: n in rows ==> !Matches(n, f)
  {
    if rows != [] {
      NoiseIsCodeIff(rows[1..], f);
      assert forall n :: n in rows <==> n == rows[0] || n in rows[1..];
    }
  }

  // A prefix row looks at the start of the file, the absolute path and the module,
  // or at the start of the one field it names.
  lemma {:induction false} PrefixMatchesIff(n: Noise, f: Frame)
    requires n.prefix && forall v :: v in [f.filename, f.absPath, f.mod, f.func, f.pkg] ==> '\0' !in v
    ensures Matches(n, f) <==>
      match n.field
      case Pkg => n.pat <= f.pkg
      case Fn => n.pat <= f.func
      case Path => n.pat <= f.filename || n.pat <= f.absPath || n.pat <= f.mod
  {
    var all := [f.filename, f.absPath, f.mod, f.func, f.pkg];
    assert f.filename in all && f.absPath in all && f.mod in all && f.func in all && f.pkg in all;
    match n.field
    case Pkg =>
      FieldParts(n, f, [f.pkg]);
      assert f.pkg in [f.pkg];
    case Fn =>
      FieldParts(n, f, [f.func]);
      assert f.func in [f.func];
    case Path =>
      JoinShort(f.filename, f.absPath, f.mod, '\0');
      var parts := [f.filename, f.absPath, f.mod];
      FieldParts(n, f, parts);
      assert f.filename in parts && f.absPath in parts && f.mod in parts;
  }

  lemma {:induction false} FieldParts(n: Noise, f: Frame, parts: seq<string>)
    requires n.prefix && parts != [] && FieldOf(f, n.field) == Join(parts, '\0')
    requires forall p :: p in parts ==> '\0' !in p
    ensures Matches(n, f) <==> exists p :: p in parts && n.pat <= p
  {
    SplitUndoesJoin(parts, '\0');
  }

  lemma JoinShort(x: string, y: string, z: string, c: char)
    ensures Join([x], c) == x && Join([x, y, z], c) == x + [c] + y + [c] + z
  {
    assert [x, y, z][1..] == [y, z] && [y, z][1..] == [z];
    assert Join([z], c) == z && Join([y, z], c) == y + [c] + z;
    assert x + [c] + (y + [c] + z) == x + [c] + y + [c] + z;
  }

  // Another row looks anywhere in its field.
  lemma {:induction false} InfixMatchesIff(n: Noise, f: Frame)
    requires !n.prefix
    ensures Matches(n, f) <==> exists i :: 0 <= i <= |FieldOf(f, n.field)| && n.pat <= FieldOf(f, n.field)[i..]
  {
    ContainsIff(FieldOf(f, n.field), n.pat);
  }

  lemma CodeIff(noise: seq<Noise>, f: Frame)
    ensures FrameKind(noise, f) == Code <==>
      var hasFile := f.filename != "" || f.absPath != "";
      && !(IsPlaceholder(f.func) && !hasFile && f.lineno == 0)
      && !(f.func == "" && f.lineno == 0 && (IsPlaceholder(f.filename) || IsPlaceholder(f.absPath)))
      && !(f.func == "" && !hasFile && f.mod == "" && f.addr == NoAddr)
      && !(f.mod == "java.lang.Thread" && f.func == "getStackTrace")
      && f.func != "gopanic" && f.pkg !in ["std", "core", "alloc"]
      && forall n :: n in noise ==> !Matches(n, f)
  {
    NoiseIsCodeIff(noise, f);
  }

  lemma PlaceholderIff(v: string)
    ensures IsPlaceholder(v) <==> |v| > 1 && v[0] == '<' && v[|v| - 1] == '>'
  {
  }

  // By the repository's table a frame is code exactly when it has a name, is
  // none of the runtime's own, and no row of the table matches it.
  lemma CodeFrameIff(f: Frame)
    ensures FrameKind(FRAME_NOISE, f) == Code <==>
      var hasFile := f.filename != "" || f.absPath != "";
      && !(IsPlaceholder(f.func) && !hasFile && f.lineno == 0)
      && !(f.func == "" && f.lineno == 0 && (IsPlaceholder(f.filename) || IsPlaceholder(f.absPath)))
      && !(f.func == "" && !hasFile && f.mod == "" && f.addr == NoAddr)
      && !(f.mod == "java.lang.Thread" && f.func == "getStackTrace")
      && f.func != "gopanic" && f.pkg !in ["std", "core", "alloc"]
      && forall n :: n in FRAME_NOISE ==> !Matches(n, f)
  {
    CodeIff(FRAME_NOISE, f);
  }

  method ClassifyFrame(noise: seq<Noise>, f: Frame) returns (kind: Kind)
    ensures kind == FrameKind(noise, f)
  {
    if IsNameless(f) {
      return Placeholder;
    }
    if IsRuntime(f) {
      return Runtime;
    }
    for i := 0 to |noise|
      invariant NoiseKind(noise, f) == NoiseKind(noise[i..], f)
    {
      var n := noise[i];
      if n.prefix {
        var parts := Split(FieldOf(f, n.field), '\0');
        for j := 0 to |parts|
          invariant forall k :: 0 <= k < j ==> !(n.pat <= parts[k])
        {
          if n.pat <= parts[j] {
            assert parts[j] in parts;
            return n.kind;
          }
        }
        assert !Matches(n, f);
      } else if Contains(FieldOf(f, n.field), n.pat) {
        return n.kind;
      }
    }
    return Code;
  }

  /* ---- image-relative addresses ---- */

  datatype Range = Range(base: int, end: int, id: string)

  function BaseName(p: string): string {
    var tail := AfterLastSlash(p);
    if tail == "" then "?" else tail
  }

  // base + size in 64 bits; an image without a size reaches to the top.
  function RangeOf(im: Image): Range
    requires im.base.Some?
  {
    Range(im.base.value,
          if im.size > 0 then (im.base.value + im.size) % TWO_64 else TWO_64 - 1,
          if im.debugId == "" then BaseName(im.codeFile) else im.debugId)
  }

  function ImageTable(images: seq<Image>): seq<Range> {
    if images == [] then []
    else if images[0].base.None? then ImageTable(images[1..])
    else [RangeOf(images[0])] + ImageTable(images[1..])
  }

  function HexDigits(n: nat): string {
    (if n < 16 then "" else HexDigits(n / 16)) + ["0123456789abcdef"[n % 16]]
  }

  // "<id>+<offset>" by the first range that contains the address.
  function RelativeAt(t: seq<Range>, a: int): string {
    if t == [] then ""
    else if t[0].base <= a < t[0].end then t[0].id + "+0x" + HexDigits(a - t[0].base)
    else RelativeAt(t[1..], a)
  }

  function Relative(t: seq<Range>, addr: Addr): string {
    if addr.Hex? then RelativeAt(t, addr.value) else ""
  }

  method RelativeTo(t: seq<Range>, addr: Addr) returns (s: string)
    ensures s == Relative(t, addr)
  {
    if !addr.Hex? {
      return "";
    }
    var a := addr.value;
    for i := 0 to |t|
      invariant Relative(t, addr) == RelativeAt(t[i..], a)
    {
      if a >= t[i].base && a < t[i].end {
        return t[i].id + "+0x" + HexDigits(a - t[i].base);
      }
    }
    return "";
  }

  /* ---- the signature ---- */

  function CodeFrames(noise: seq<Noise>, frames: seq<Frame>): seq<Frame>
    decreases |frames|
  {
    if frames == [] then []
    else
      var front, f := CodeFrames(noise, frames[..|frames| - 1]), frames[|frames| - 1];
      if FrameKind(noise, f) == Code then front + [f] else front
  }

  function InApp(frames: seq<Frame>): seq<Frame>
    decreases |frames|
  {
    if frames == [] then []
    else
      var front, f := InApp(frames[..|frames| - 1]), frames[|frames| - 1];
      if f.inApp then front + [f] else front
  }

  // The frames the last five are taken from.
  function Pool(all: seq<Frame>): seq<Frame> {
    if InApp(all) == [] then all else InApp(all)
  }

  function LastFive(s: seq<Frame>): seq<Frame> {
    if |s| > 5 then s[|s| - 5..] else s
  }

  function Selected(all: seq<Frame>): seq<Frame> {
    LastFive(Pool(all))
  }

  predicate Anonymous(fn: string) {
    fn == "" || HasSuffix(fn, "<fn>") || HasSuffix(fn, "<anonymous>") || "<" <= fn || Contains(fn, "{closure")
  }

  predicate AllAnonymous(frames: seq<Frame>) {
    |frames| > 0 && forall i :: 0 <= i < |frames| ==> Anonymous(frames[i].func)
  }

  function CutAt(s: string, c: char): string {
    var i := IndexOf(s, c);
    if i < 0 then s else s[..i]
  }

  function Decimal(n: nat): string {
    (if n < 10 then "" else Decimal(n / 10)) + ["0123456789"[n % 10]]
  }

  function NameOf(t: seq<Range>, f: Frame): string {
    if f.func != "" then f.func
    else if f.addr == NoAddr then ""
    else if Relative(t, f.addr) != "" then Relative(t, f.addr)
    else if f.pkg != "" then BaseName(f.pkg) + "+?"
    else ""
  }

  // file:function, image-relative where there is no function.
  function PartOf(t: seq<Range>, keepLine: bool, f: Frame): string {
    var file := if CutAt(f.filename, '?') == "" then f.mod else CutAt(f.filename, '?');
    var fn := if NameOf(t, f) == "" then "?" else NameOf(t, f);
    var line := if keepLine && f.lineno > 0 then ":" + Decimal(f.lineno) else "";
    BaseName(file) + ":" + (fn + line)
  }

  function PartsOf(t: seq<Range>, keepLine: bool, sel: seq<Frame>): seq<string>
    decreases |sel|
  {
    if sel == [] then [] else PartsOf(t, keepLine, sel[..|sel| - 1]) + [PartOf(t, keepLine, sel[|sel| - 1])]
  }

  function StackSignature(images: seq<Image>, all: seq<Frame>): seq<string> {
    PartsOf(ImageTable(images), |all| <= 1 || AllAnonymous(Selected(all)), Selected(all))
  }

  function FrameSignature(noise: seq<Noise>, e: Event, frames: seq<Frame>): seq<string> {
    StackSignature(e.images, CodeFrames(noise, frames))
  }

  method SignFrames(noise: seq<Noise>, e: Event, frames: seq<Frame>) returns (parts: seq<string>)
    ensures parts == FrameSignature(noise, e, frames)
  {
    var sel: seq<Frame>, all: seq<Frame> := [], [];
    for i := 0 to |frames|
      invariant all == CodeFrames(noise, frames[..i]) && sel == InApp(all)
    {
      assert frames[..i + 1][..i] == frames[..i];
      var kind := ClassifyFrame(noise, frames[i]);
      if kind != Code {
        continue;
      }
      assert (all + [frames[i]])[..|all|] == all;
      all := all + [frames[i]];
      if frames[i].inApp {
        sel := sel + [frames[i]];
      }
    }
    assert frames[..|frames|] == frames;
    if |sel| == 0 {
      sel := all;
    }
    assert sel == Pool(all);
    if |sel| > 5 {
      sel := sel[|sel| - 5..];
    }
    var keepLine := |all| <= 1 || AllAnonymous(sel);
    parts := RenderFrames(ImageTable(e.images), keepLine, sel);
  }

  method RenderFrames(images: seq<Range>, keepLine: bool, sel: seq<Frame>) returns (parts: seq<string>)
    ensures parts == PartsOf(images, keepLine, sel)
  {
    parts := [];
    for i := 0 to |sel|
      invariant parts == PartsOf(images, keepLine, sel[..i])
    {
      assert sel[..i + 1][..i] == sel[..i];
      var f := sel[i];
      var file := CutAt(f.filename, '?');
      if file == "" {
        file := f.mod;
      }
      var fn := f.func;
      if fn == "" && f.addr != NoAddr {
        fn := RelativeTo(images, f.addr);
        if fn == "" && f.pkg != "" {
          fn := BaseName(f.pkg) + "+?";
        }
      }
      if fn == "" {
        fn := "?";
      }
      if keepLine && f.lineno > 0 {
        fn := fn + (":" + Decimal(f.lineno));
      } else {
        assert fn + "" == fn;
      }
      parts := parts + [BaseName(file) + ":" + fn];
    }
    assert sel[..|sel|] == sel;
  }

  function ChainTypes(e: Event): string {
    if |e.exceptions| <= 1 then e.errorType else Join(e.exceptions, '<')
  }

  predicate GroupableMessage(e: Event) {
    (e.level == "fatal" || e.level == "error") && e.message != "" && e.message != "(no message)"
  }

  // normalize stands for the regular expression that strips numbers.
  function DefaultSignature(noise: seq<Noise>, normalize: string -> string, e: Event, frames: seq<Frame>): string {
    var stack := Join(FrameSignature(noise, e, frames), '|');
    if e.errorType != "" then e.platform + ":" + ChainTypes(e) + ":" + stack
    else if GroupableMessage(e) then "msg:" + e.platform + ":" + normalize(e.message) + ":" + stack
    else ""
  }

  // isDefault stands for the token match of isDefaultToken.
  function SdkParts(isDefault: string -> bool, parts: seq<string>, sig: string): seq<string> {
    if parts == [] then []
    else [if isDefault(parts[0]) then "{{default}}=" + sig else parts[0]] + SdkParts(isDefault, parts[1..], sig)
  }

  // The text the fingerprint is a digest of; "" is no fingerprint.
  function Signature(
      noise: seq<Noise>, normalize: string -> string, isDefault: string -> bool, e: Event, frames: seq<Frame>): string
  {
    var sig := DefaultSignature(noise, normalize, e, frames);
    if e.sdkFingerprint == [] || (|e.sdkFingerprint| == 1 && isDefault(e.sdkFingerprint[0])) then sig
    else "sdk:" + Join(SdkParts(isDefault, e.sdkFingerprint, sig), '|')
  }

  // What the analysis is a function of besides the event: the noise table, the
  // regular expressions and the digest.
  datatype Analyser = Analyser(
    noise: seq<Noise>, normalize: string -> string, isDefault: string -> bool, digest: string -> Fingerprint)

  function SignatureBy(a: Analyser, e: Event, frames: seq<Frame>): string {
    Signature(a.noise, a.normalize, a.isDefault, e, frames)
  }

  function FingerprintOf(a: Analyser, e: Event, frames: seq<Frame>): Option<Fingerprint> {
    var sig := SignatureBy(a, e, frames);
    if sig == "" then None else Some(a.digest(sig))
  }

  /* ---- relocation ---- */

  predicate Covers(im: Image, a: int) {
    im.base.Some? && im.base.value <= a < im.base.value + im.size
  }

  predicate Uncovered(images: seq<Image>, a: int) {
    forall i :: 0 <= i < |images| ==> !Covers(images[i], a)
  }

  // Sized images inside 64 bits.
  predicate Placed(im: Image) {
    im.base.Some? ==> 0 <= im.base.value && 0 < im.size && im.base.value + im.size < TWO_64
  }

  predicate Disjoint(images: seq<Image>) {
    && (forall i :: 0 <= i < |images| ==> Placed(images[i]))
    && (forall i, j :: 0 <= i < j < |images| && images[i].base.Some? && images[j].base.Some? ==>
          images[i].base.value + images[i].size <= images[j].base.value
          || images[j].base.value + images[j].size <= images[i].base.value)
  }

  // The same images elsewhere.
  predicate ImagesMoved(was: seq<Image>, now: seq<Image>) {
    && |was| == |now|
    && (forall i :: 0 <= i < |was| ==>
          now[i] == was[i].(base := now[i].base) && (was[i].base.Some? <==> now[i].base.Some?))
  }

  // An address inside an image moves with it; one outside stays outside.
  predicate AddrMoved(was: seq<Image>, now: seq<Image>, a: int, b: int)
    requires ImagesMoved(was, now)
  {
    && (forall i :: 0 <= i < |was| && Covers(was[i], a) ==> b - now[i].base.value == a - was[i].base.value)
    && (Uncovered(was, a) ==> Uncovered(now, b))
  }

  predicate FrameMoved(was: seq<Image>, now: seq<Image>, f: Frame, g: Frame)
    requires ImagesMoved(was, now)
  {
    && g == f.(addr := g.addr)
    && if f.addr.Hex? then g.addr.Hex? && AddrMoved(was, now, f.addr.value, g.addr.value) else g.addr == f.addr
  }

  predicate FramesMoved(was: seq<Image>, now: seq<Image>, frames: seq<Frame>, moved: seq<Frame>)
    requires ImagesMoved(was, now)
  {
    |frames| == |moved| && forall i :: 0 <= i < |frames| ==> FrameMoved(was, now, frames[i], moved[i])
  }

  lemma RangeSkipped(images: seq<Image>, a: int)
    requires images != [] && Placed(images[0]) && !Covers(images[0], a)
    ensures RelativeAt(ImageTable(images), a) == RelativeAt(ImageTable(images[1..]), a)
  {
    assert images[0].base.Some? ==> ImageTable(images)[1..] == ImageTable(images[1..]);
  }

  lemma {:induction false} NoRange(images: seq<Image>, a: int)
    requires Disjoint(images) && Uncovered(images, a)
    ensures RelativeAt(ImageTable(images), a) == ""
  {
    if images != [] {
      assert Placed(images[0]) && !Covers(images[0], a);
      RangeSkipped(images, a);
      NoRange(images[1..], a);
    }
  }

  // A covered address is named by the only image that covers it.
  lemma {:induction false} TheRange(images: seq<Image>, a: int, i: nat)
    requires Disjoint(images) && i < |images| && Covers(images[i], a)
    ensures var im := images[i];
      && RelativeAt(ImageTable(images), a) == Relative(ImageTable(images), Hex(a))
      && RelativeAt(ImageTable(images), a) ==
           (if im.debugId != "" then im.debugId else BaseName(im.codeFile)) + "+0x" + HexDigits(a - im.base.value)
  {
    assert Placed(images[0]) && Placed(images[i]);
    if i > 0 {
      assert Disjoint(images[1..]) && !Covers(images[0], a);
      RangeSkipped(images, a);
      TheRange(images[1..], a, i - 1);
    }
  }

  // An image without a size reaches to the top of the address space.
  lemma UnsizedRange(im: Image, a: int)
    requires im.base.Some? && im.size <= 0 && im.base.value <= a < TWO_64 - 1
    ensures Relative(ImageTable([im]), Hex(a)) ==
      (if im.debugId != "" then im.debugId else BaseName(im.codeFile)) + "+0x" + HexDigits(a - im.base.value)
  {
    assert [im][1..] == [];
  }

  lemma {:induction false} RelativeMoved(was: seq<Image>, now: seq<Image>, a: int, b: int)
    requires ImagesMoved(was, now) && Disjoint(was) && Disjoint(now) && AddrMoved(was, now, a, b)
    ensures RelativeAt(ImageTable(now), b) == RelativeAt(ImageTable(was), a)
  {
    if Uncovered(was, a) {
      NoRange(was, a);
      NoRange(now, b);
    } else {
      var i :| 0 <= i < |was| && Covers(was[i], a);
      assert Covers(now[i], b);
      TheRange(was, a, i);
      TheRange(now, b, i);
    }
  }

  lemma KindMoved(noise: seq<Noise>, f: Frame, g: Frame)
    requires g == f.(addr := g.addr) && (f.addr == NoAddr <==> g.addr == NoAddr)
    ensures FrameKind(noise, g) == FrameKind(noise, f)
  {
    NoiseMoved(noise, f, g);
  }

  lemma {:induction false} NoiseMoved(rows: seq<Noise>, f: Frame, g: Frame)
    requires g == f.(addr := g.addr)
    ensures NoiseKind(rows, g) == NoiseKind(rows, f)
  {
    if rows != [] {
      assert FieldOf(f, rows[0].field) == FieldOf(g, rows[0].field);
      NoiseMoved(rows[1..], f, g);
    }
  }

  lemma {:induction false} CodeFramesMoved(
      noise: seq<Noise>, was: seq<Image>, now: seq<Image>, frames: seq<Frame>, moved: seq<Frame>)
    requires ImagesMoved(was, now) && FramesMoved(was, now, frames, moved)
    ensures FramesMoved(was, now, CodeFrames(noise, frames), CodeFrames(noise, moved))
    decreases |frames|
  {
    if frames != [] {
      var n := |frames| - 1;
      CodeFramesMoved(noise, was, now, frames[..n], moved[..n]);
      KindMoved(noise, frames[n], moved[n]);
    }
  }

  lemma {:induction false} InAppMoved(was: seq<Image>, now: seq<Image>, frames: seq<Frame>, moved: seq<Frame>)
    requires ImagesMoved(was, now) && FramesMoved(was, now, frames, moved)
    ensures FramesMoved(was, now, InApp(frames), InApp(moved))
    decreases |frames|
  {
    if frames != [] {
      var n := |frames| - 1;
      InAppMoved(was, now, frames[..n], moved[..n]);
      assert FrameMoved(was, now, frames[n], moved[n]);
    }
  }

  lemma {:induction false} PartMoved(was: seq<Image>, now: seq<Image>, keepLine: bool, f: Frame, g: Frame)
    requires ImagesMoved(was, now) && Disjoint(was) && Disjoint(now) && FrameMoved(was, now, f, g)
    ensures PartOf(ImageTable(now), keepLine, g) == PartOf(ImageTable(was), keepLine, f)
  {
    if f.addr.Hex? {
      RelativeMoved(was, now, f.addr.value, g.addr.value);
    }
    assert NameOf(ImageTable(now), g) == NameOf(ImageTable(was), f);
  }

  lemma {:induction false} PartsMoved(
      was: seq<Image>, now: seq<Image>, keepLine: bool, sel: seq<Frame>, moved: seq<Frame>)
    requires ImagesMoved(was, now) && Disjoint(was) && Disjoint(now) && FramesMoved(was, now, sel, moved)
    ensures PartsOf(ImageTable(now), keepLine, moved) == PartsOf(ImageTable(was), keepLine, sel)
    decreases |sel|
  {
    if sel != [] {
      var n := |sel| - 1;
      PartsMoved(was, now, keepLine, sel[..n], moved[..n]);
      PartMoved(was, now, keepLine, sel[n], moved[n]);
    }
  }

  lemma {:induction false} StackMoved(was: seq<Image>, now: seq<Image>, all: seq<Frame>, moved: seq<Frame>)
    requires ImagesMoved(was, now) && Disjoint(was) && Disjoint(now) && FramesMoved(was, now, all, moved)
    ensures StackSignature(now, moved) == StackSignature(was, all)
  {
    InAppMoved(was, now, all, moved);
    var sel, sel' := Selected(all), Selected(moved);
    assert FramesMoved(was, now, sel, sel');
    assert AllAnonymous(sel) <==> AllAnonymous(sel') by {
      assert forall i :: 0 <= i < |sel| ==> sel'[i].func == sel[i].func;
    }
    PartsMoved(was, now, |all| <= 1 || AllAnonymous(sel), sel, sel');
  }

  // Loading each image at another address, with the frame addresses inside it,
  // leaves the signature unchanged.
  lemma {:induction false} RelocationKeepsSignature(
    noise: seq<Noise>, normalize: string -> string, isDefault: string -> bool,
    e: Event, now: seq<Image>, frames: seq<Frame>, moved: seq<Frame>)
    requires ImagesMoved(e.images, now) && Disjoint(e.images) && Disjoint(now)
    requires FramesMoved(e.images, now, frames, moved)
    ensures Signature(noise, normalize, isDefault, e.(images := now), moved) ==
      Signature(noise, normalize, isDefault, e, frames)
  {
    CodeFramesMoved(noise, e.images, now, frames, moved);
    StackMoved(e.images, now, CodeFrames(noise, frames), CodeFrames(noise, moved));
    var e' := e.(images := now);
    assert FrameSignature(noise, e', moved) == FrameSignature(noise, e, frames);
    assert DefaultSignature(noise, normalize, e', moved) == DefaultSignature(noise, normalize, e, frames);
  }

  /* ---- noise frames ---- */

  lemma {:induction false} CodeFramesAppend(noise: seq<Noise>, a: seq<Frame>, b: seq<Frame>)
    ensures CodeFrames(noise, a + b) == CodeFrames(noise, a) + CodeFrames(noise, b)
    decreases |b|
  {
    if b == [] {
      assert a + b == a;
    } else {
      var n := |b| - 1;
      CodeFramesAppend(noise, a, b[..n]);
      assert (a + b)[..|a + b| - 1] == a + b[..n];
    }
  }

  lemma {:induction false} NoCode(noise: seq<Noise>, frames: seq<Frame>)
    requires forall i :: 0 <= i < |frames| ==> FrameKind(noise, frames[i]) != Code
    ensures CodeFrames(noise, frames) == []
    decreases |frames|
  {
    if frames != [] {
      NoCode(noise, frames[..|frames| - 1]);
    }
  }

  lemma SameCodeFrames(
      noise: seq<Noise>, normalize: string -> string, isDefault: string -> bool,
      e: Event, a: seq<Frame>, b: seq<Frame>)
    requires CodeFrames(noise, a) == CodeFrames(noise, b)
    ensures Signature(noise, normalize, isDefault, e, a) == Signature(noise, normalize, isDefault, e, b)
  {
    assert FrameSignature(noise, e, a) == FrameSignature(noise, e, b);
  }

  // SDK, runtime and placeholder frames anywhere in the stack do not change it.
  lemma {:induction false} NoiseKeepsSignature(
    noise: seq<Noise>, normalize: string -> string, isDefault: string -> bool,
    e: Event, a: seq<Frame>, inserted: seq<Frame>, b: seq<Frame>)
    requires forall i :: 0 <= i < |inserted| ==> FrameKind(noise, inserted[i]) != Code
    ensures Signature(noise, normalize, isDefault, e, a + inserted + b) ==
      Signature(noise, normalize, isDefault, e, a + b)
  {
    CodeFramesAppend(noise, a + inserted, b);
    CodeFramesAppend(noise, a, inserted);
    CodeFramesAppend(noise, a, b);
    NoCode(noise, inserted);
    assert CodeFrames(noise, a) + [] == CodeFrames(noise, a);
    SameCodeFrames(noise, normalize, isDefault, e, a + inserted + b, a + b);
  }

  /* ---- what a signature is made of ---- */

  predicate Increasing(ix: seq<nat>) {
    forall i, j :: 0 <= i < j < |ix| ==> ix[i] < ix[j]
  }

  // The indices at which the flags are set.
  function Indices(flags: seq<bool>): seq<nat>
    decreases |flags|
  {
    if flags == [] then []
    else
      var n := |flags| - 1;
      if flags[n] then Indices(flags[..n]) + [n] else Indices(flags[..n])
  }

  lemma {:induction false} IndicesAre(flags: seq<bool>)
    ensures Increasing(Indices(flags))
    ensures forall k: nat :: k in Indices(flags) <==> k < |flags| && flags[k]
    decreases |flags|
  {
    if flags != [] {
      var n := |flags| - 1;
      IndicesAre(flags[..n]);
      var ix := Indices(flags[..n]);
      assert forall k: nat :: k in ix + [n] <==> k in ix || k == n;
      assert forall i :: 0 <= i < |ix| ==> ix[i] in ix;
    }
  }

  predicate Within(frames: seq<Frame>, ix: seq<nat>) {
    forall j :: 0 <= j < |ix| ==> ix[j] < |frames|
  }

  function At(frames: seq<Frame>, ix: seq<nat>): seq<Frame>
    requires Within(frames, ix)
  {
    seq(|ix|, j requires 0 <= j < |ix| => frames[ix[j]])
  }

  function CodeFlags(noise: seq<Noise>, frames: seq<Frame>): seq<bool> {
    seq(|frames|, i requires 0 <= i < |frames| => FrameKind(noise, frames[i]) == Code)
  }

  function AppFlags(frames: seq<Frame>): seq<bool> {
    seq(|frames|, i requires 0 <= i < |frames| => frames[i].inApp)
  }

  lemma AtMore(frames: seq<Frame>, flags: seq<bool>, sub: seq<Frame>)
    requires |flags| == |frames| > 0
    requires var n := |frames| - 1;
      Within(frames[..n], Indices(flags[..n])) && sub == At(frames[..n], Indices(flags[..n]))
    ensures Within(frames, Indices(flags))
    ensures At(frames, Indices(flags)) == if flags[|frames| - 1] then sub + [frames[|frames| - 1]] else sub
  {
  }

  lemma {:induction false} CodeFramesAt(noise: seq<Noise>, frames: seq<Frame>)
    ensures var ix := Indices(CodeFlags(noise, frames));
      Within(frames, ix) && CodeFrames(noise, frames) == At(frames, ix)
    decreases |frames|
  {
    if frames != [] {
      var n, flags := |frames| - 1, CodeFlags(noise, frames);
      CodeFramesAt(noise, frames[..n]);
      assert flags[..n] == CodeFlags(noise, frames[..n]);
      AtMore(frames, flags, CodeFrames(noise, frames[..n]));
    }
  }

  lemma {:induction false} InAppAt(frames: seq<Frame>)
    ensures var ix := Indices(AppFlags(frames));
      Within(frames, ix) && InApp(frames) == At(frames, ix)
    decreases |frames|
  {
    if frames != [] {
      var n, flags := |frames| - 1, AppFlags(frames);
      InAppAt(frames[..n]);
      assert flags[..n] == AppFlags(frames[..n]);
      AtMore(frames, flags, InApp(frames[..n]));
    }
  }

  predicate IsCode(noise: seq<Noise>, frames: seq<Frame>, k: nat)
    requires k < |frames|
  {
    FrameKind(noise, frames[k]) == Code
  }

  // Code frames of the app, or any code frame where none is of the app.
  predicate Counted(noise: seq<Noise>, frames: seq<Frame>, k: nat)
    requires k < |frames|
  {
    && IsCode(noise, frames, k)
    && (frames[k].inApp || forall i: nat :: i < |frames| && IsCode(noise, frames, i) ==> !frames[i].inApp)
  }

  // The last five of them, in order: an earlier one is left out only for five
  // that follow it.
  predicate LastCounted(noise: seq<Noise>, frames: seq<Frame>, picks: seq<nat>) {
    && |picks| <= 5 && Increasing(picks)
    && (forall j :: 0 <= j < |picks| ==> picks[j] < |frames| && Counted(noise, frames, picks[j]))
    && (forall k: nat :: k < |frames| && Counted(noise, frames, k) ==> k in picks || (|picks| == 5 && k < picks[0]))
  }

  // Line numbers are kept where the functions cannot tell throw sites apart: at
  // most one code frame, or no picked frame with a name of its own.
  predicate KeepsLines(noise: seq<Noise>, frames: seq<Frame>, picks: seq<nat>)
    requires forall j :: 0 <= j < |picks| ==> picks[j] < |frames|
  {
    || (forall i: nat, j: nat ::
          i < |frames| && j < |frames| && IsCode(noise, frames, i) && IsCode(noise, frames, j) ==> i == j)
    || (picks != [] && forall j :: 0 <= j < |picks| ==> Anonymous(frames[picks[j]].func))
  }

  lemma {:induction false} PartsCount(t: seq<Range>, keepLine: bool, sel: seq<Frame>)
    ensures |PartsOf(t, keepLine, sel)| == |sel|
    decreases |sel|
  {
    if sel != [] {
      PartsCount(t, keepLine, sel[..|sel| - 1]);
    }
  }

  lemma {:induction false} PartsPrefix(t: seq<Range>, keepLine: bool, sel: seq<Frame>, k: nat)
    requires k <= |sel|
    ensures PartsOf(t, keepLine, sel[..k]) <= PartsOf(t, keepLine, sel)
    decreases |sel|
  {
    if k == |sel| {
      assert sel[..k] == sel;
    } else {
      PartsPrefix(t, keepLine, sel[..|sel| - 1], k);
      assert sel[..|sel| - 1][..k] == sel[..k];
    }
  }

  lemma PartAt(t: seq<Range>, keepLine: bool, sel: seq<Frame>, j: nat)
    requires j < |sel|
    ensures |PartsOf(t, keepLine, sel)| == |sel| && PartsOf(t, keepLine, sel)[j] == PartOf(t, keepLine, sel[j])
  {
    var front := sel[..j + 1];
    PartsPrefix(t, keepLine, sel, j + 1);
    PartsCount(t, keepLine, sel);
    PartsCount(t, keepLine, front[..j]);
  }

  lemma {:induction false} CodeIndices(noise: seq<Noise>, frames: seq<Frame>) returns (ix: seq<nat>)
    ensures Increasing(ix) && Within(frames, ix) && CodeFrames(noise, frames) == At(frames, ix)
    ensures forall k: nat :: k in ix <==> k < |frames| && IsCode(noise, frames, k)
  {
    ix := Indices(CodeFlags(noise, frames));
    IndicesAre(CodeFlags(noise, frames));
    CodeFramesAt(noise, frames);
  }

  lemma {:induction false} InAppIndices(all: seq<Frame>) returns (ix: seq<nat>)
    ensures Increasing(ix) && Within(all, ix) && InApp(all) == At(all, ix)
    ensures forall k: nat :: k in ix <==> k < |all| && all[k].inApp
  {
    ix := Indices(AppFlags(all));
    IndicesAre(AppFlags(all));
    InAppAt(all);
  }

  ghost predicate AllCounted(noise: seq<Noise>, frames: seq<Frame>, ix: seq<nat>) {
    && Increasing(ix) && Within(frames, ix)
    && forall k: nat :: k in ix <==> k < |frames| && Counted(noise, frames, k)
  }

  lemma {:induction false} CountedIndices(noise: seq<Noise>, frames: seq<Frame>) returns (ix: seq<nat>)
    ensures AllCounted(noise, frames, ix) && Pool(CodeFrames(noise, frames)) == At(frames, ix)
  {
    var all := CodeFrames(noise, frames);
    var code := CodeIndices(noise, frames);
    var app := InAppIndices(all);
    if app == [] {
      ix := code;
      NoneInApp(noise, frames, code);
    } else {
      ix := seq(|app|, j requires 0 <= j < |app| => code[app[j]]);
      SomeInApp(noise, frames, code, app, ix);
      assert At(all, app) == At(frames, ix);
    }
  }

  lemma NoneInApp(noise: seq<Noise>, frames: seq<Frame>, code: seq<nat>)
    requires Increasing(code) && Within(frames, code)
    requires forall k: nat :: k in code <==> k < |frames| && IsCode(noise, frames, k)
    requires forall j: nat :: j < |code| ==> !At(frames, code)[j].inApp
    ensures AllCounted(noise, frames, code)
  {
    forall k: nat | k < |frames| && IsCode(noise, frames, k) ensures !frames[k].inApp {
      var j :| 0 <= j < |code| && code[j] == k;
      assert At(frames, code)[j] == frames[k];
    }
  }

  lemma SomeInApp(noise: seq<Noise>, frames: seq<Frame>, code: seq<nat>, app: seq<nat>, ix: seq<nat>)
    requires Increasing(code) && Within(frames, code)
    requires forall k: nat :: k in code <==> k < |frames| && IsCode(noise, frames, k)
    requires app != [] && Increasing(app)
    requires forall j: nat :: j in app <==> j < |code| && frames[code[j]].inApp
    requires |ix| == |app| && forall j :: 0 <= j < |app| ==> app[j] < |code| && ix[j] == code[app[j]]
    ensures AllCounted(noise, frames, ix)
  {
    forall k: nat ensures k in ix <==> k < |frames| && IsCode(noise, frames, k) && frames[k].inApp {
      if k in ix {
        var j :| 0 <= j < |ix| && ix[j] == k;
        assert app[j] in app && code[app[j]] in code;
      }
      if k < |frames| && IsCode(noise, frames, k) && frames[k].inApp {
        var c :| 0 <= c < |code| && code[c] == k;
        assert c in app;
        var j :| 0 <= j < |app| && app[j] == c;
        assert ix[j] == k;
      }
    }
    assert ix[0] in ix;
  }

  predicate PartsShow(t: seq<Range>, keepLine: bool, frames: seq<Frame>, picks: seq<nat>, parts: seq<string>) {
    && Within(frames, picks) && |parts| == |picks|
    && forall j :: 0 <= j < |picks| ==> parts[j] == PartOf(t, keepLine, frames[picks[j]])
  }

  // The signature of a stack: one part for each of the picked frames, in order.
  lemma {:induction false} SignatureIs(noise: seq<Noise>, e: Event, frames: seq<Frame>) returns (picks: seq<nat>)
    ensures LastCounted(noise, frames, picks)
    ensures PartsShow(
      ImageTable(e.images), KeepsLines(noise, frames, picks), frames, picks, FrameSignature(noise, e, frames))
  {
    var ix := CountedIndices(noise, frames);
    picks := LastPicked(noise, frames, ix);
    LinesKept(noise, frames, picks);
    StackParts(e.images, CodeFrames(noise, frames), frames, ix, picks);
  }

  lemma StackParts(images: seq<Image>, all: seq<Frame>, frames: seq<Frame>, ix: seq<nat>, picks: seq<nat>)
    requires Within(frames, ix) && Within(frames, picks) && Pool(all) == At(frames, ix)
    requires picks == if |ix| > 5 then ix[|ix| - 5..] else ix
    ensures PartsShow(
      ImageTable(images), |all| <= 1 || AllAnonymous(At(frames, picks)), frames, picks, StackSignature(images, all))
  {
    assert Selected(all) == At(frames, picks);
    var t, keepLine := ImageTable(images), |all| <= 1 || AllAnonymous(Selected(all));
    forall j | 0 <= j < |picks|
      ensures |StackSignature(images, all)| == |picks|
      ensures StackSignature(images, all)[j] == PartOf(t, keepLine, frames[picks[j]])
    {
      PartAt(t, keepLine, Selected(all), j);
    }
  }

  lemma LastPicked(noise: seq<Noise>, frames: seq<Frame>, ix: seq<nat>) returns (picks: seq<nat>)
    requires AllCounted(noise, frames, ix)
    ensures LastCounted(noise, frames, picks) && picks == if |ix| > 5 then ix[|ix| - 5..] else ix
  {
    var cut := if |ix| > 5 then |ix| - 5 else 0;
    picks := ix[cut..];
    assert ix == ix[..cut] + picks;
    forall j | 0 <= j < |picks|
      ensures picks[j] < |frames| && Counted(noise, frames, picks[j])
    {
      assert ix[cut + j] in ix;
    }
    forall k: nat | k < |frames| && Counted(noise, frames, k)
      ensures k in picks || (|picks| == 5 && k < picks[0])
    {
      assert k in ix[..cut] || k in picks;
    }
  }

  lemma LinesKept(noise: seq<Noise>, frames: seq<Frame>, picks: seq<nat>)
    requires Within(frames, picks)
    ensures KeepsLines(noise, frames, picks) <==> |CodeFrames(noise, frames)| <= 1 || AllAnonymous(At(frames, picks))
  {
    var code := CodeIndices(noise, frames);
    if |code| > 1 {
      assert code[0] in code && code[1] in code;
    }
    assert AllAnonymous(At(frames, picks)) ==>
      forall j :: 0 <= j < |picks| ==> At(frames, picks)[j] == frames[picks[j]];
  }

  lemma Passed(s: string, k: nat, i: int)
    requires k < |s| && i <= |s|
    ensures k < i ==> s[k] in s[..i]
  {
    if k < i {
      assert s[..i][k] == s[k];
    }
  }

  lemma CutBefore(a: string, c: char, rest: string)
    requires c !in a && (rest == "" || rest[0] == c)
    ensures CutAt(a + rest, c) == a
  {
    var i := IndexOf(a + rest, c);
    assert i >= 0 ==> (a + rest)[i] == c && c !in (a + rest)[..i];
    if rest != "" {
      Passed(a + rest, |a|, i);
    }
  }

  // The part of a frame with a function names the file without its directory and
  // query, and the function; neither address nor package is in it.
  lemma {:induction false} NamedPart(
      t: seq<Range>, keepLine: bool, f: Frame, dir: string, file: string, query: string)
    requires f.func != "" && f.filename == dir + file + query
    requires dir == "" || dir[|dir| - 1] in "/\\"
    requires dir + file != "" && '/' !in file && '\\' !in file
    requires '?' !in dir + file && (query == "" || query[0] == '?')
    ensures PartOf(t, keepLine, f) == (if file == "" then "?" else file) + ":" + f.func +
      if keepLine && f.lineno > 0 then ":" + Decimal(f.lineno) else ""
  {
    CutBefore(dir + file, '?', query);
    BaseOf(dir, file);
    var line := if keepLine && f.lineno > 0 then ":" + Decimal(f.lineno) else "";
    var base := if file == "" then "?" else file;
    assert base + ":" + (f.func + line) == base + ":" + f.func + line;
  }

  lemma {:induction false} HeadsSeparate(a: string, x: string, b: string, y: string, c: char)
    requires c !in a && c !in b && a + [c] + x == b + [c] + y
    ensures a == b && x == y
  {
    var s := a + [c] + x;
    assert s[|a|] == c && s[|b|] == c;
    assert forall i :: 0 <= i < |a| ==> s[i] == a[i];
    assert forall i :: 0 <= i < |b| ==> s[i] == b[i];
    assert a == s[..|a|] && b == s[..|b|];
    assert x == s[|a| + 1..] && y == s[|b| + 1..];
  }

  // Chains of more than one exception agree exactly when their types do, in order.
  lemma ChainsSeparate(d: Event, e: Event)
    requires |d.exceptions| > 1 && |e.exceptions| > 1
    requires forall t :: t in d.exceptions || t in e.exceptions ==> '<' !in t
    ensures ChainTypes(d) == ChainTypes(e) <==> d.exceptions == e.exceptions
    ensures ChainTypes(d.(exceptions := [])) == ChainTypes(d.(exceptions := d.exceptions[..1])) == d.errorType
  {
    SplitUndoesJoin(d.exceptions, '<');
    SplitUndoesJoin(e.exceptions, '<');
  }

  // Errors the SDK gives no fingerprint fall together exactly when platform, chain
  // of exception types and stack agree.
  lemma {:induction false} TypesSeparate(a: Analyser, d: Event, ds: seq<Frame>, e: Event, es: seq<Frame>)
    requires d.sdkFingerprint == e.sdkFingerprint == [] && d.errorType != "" && e.errorType != ""
    requires ':' !in d.platform && ':' !in e.platform && ':' !in ChainTypes(d) && ':' !in ChainTypes(e)
    ensures SignatureBy(a, d, ds) == SignatureBy(a, e, es) <==>
      && d.platform == e.platform && ChainTypes(d) == ChainTypes(e)
      && Join(FrameSignature(a.noise, d, ds), '|') == Join(FrameSignature(a.noise, e, es), '|')
  {
    var x, y := Join(FrameSignature(a.noise, d, ds), '|'), Join(FrameSignature(a.noise, e, es), '|');
    var u, v := ChainTypes(d) + ":" + x, ChainTypes(e) + ":" + y;
    assert d.platform + ":" + ChainTypes(d) + ":" + x == d.platform + ":" + u;
    assert e.platform + ":" + ChainTypes(e) + ":" + y == e.platform + ":" + v;
    if d.platform + ":" + u == e.platform + ":" + v {
      HeadsSeparate(d.platform, u, e.platform, v, ':');
      HeadsSeparate(ChainTypes(d), x, ChainTypes(e), y, ':');
    }
  }

  lemma {:induction false} NoDefaultParts(isDefault: string -> bool, parts: seq<string>, sig: string)
    requires forall p :: p in parts ==> !isDefault(p)
    ensures SdkParts(isDefault, parts, sig) == parts
  {
    if parts != [] {
      NoDefaultParts(isDefault, parts[1..], sig);
    }
  }

  // An SDK fingerprint without the default token decides alone: neither type,
  // message nor stack matters beside it.
  lemma {:induction false} SdkFingerprintDecides(a: Analyser, d: Event, ds: seq<Frame>, e: Event, es: seq<Frame>)
    requires d.sdkFingerprint != [] && e.sdkFingerprint != []
    requires forall p :: p in d.sdkFingerprint + e.sdkFingerprint ==> !a.isDefault(p) && '|' !in p
    ensures SignatureBy(a, d, ds) == SignatureBy(a, e, es) <==>
      d.sdkFingerprint == e.sdkFingerprint
  {
    var ps, qs := d.sdkFingerprint, e.sdkFingerprint;
    assert forall p :: p in ps || p in qs ==> p in ps + qs;
    assert ps[0] in ps && qs[0] in qs;
    NoDefaultParts(a.isDefault, ps, DefaultSignature(a.noise, a.normalize, d, ds));
    NoDefaultParts(a.isDefault, qs, DefaultSignature(a.noise, a.normalize, e, es));
    SplitUndoesJoin(ps, '|');
    SplitUndoesJoin(qs, '|');
    var m, n := "sdk:" + Join(ps, '|'), "sdk:" + Join(qs, '|');
    assert m[4..] == Join(ps, '|') && n[4..] == Join(qs, '|');
  }

  // A frame without a function is named as if its function were its image-relative
  // address, else its package, else a question mark.
  lemma UnnamedPart(t: seq<Range>, keepLine: bool, f: Frame)
    requires f.func == ""
    ensures var name := Relative(t, f.addr);
      PartOf(t, keepLine, f) == PartOf(t, keepLine, f.(func :=
        if name != "" then name else if f.addr != NoAddr && f.pkg != "" then BaseName(f.pkg) + "+?" else "?"))
  {
  }

  lemma {:induction false} HexSeparates(a: nat, b: nat)
    ensures HexDigits(a) == HexDigits(b) <==> a == b
  {
    if HexDigits(a) == HexDigits(b) {
      var x, y := HexDigits(a), HexDigits(b);
      assert x[|x| - 1] == "0123456789abcdef"[a % 16] && y[|y| - 1] == "0123456789abcdef"[b % 16];
      assert x[..|x| - 1] == if a < 16 then "" else HexDigits(a / 16);
      assert y[..|y| - 1] == if b < 16 then "" else HexDigits(b / 16);
      if a >= 16 && b >= 16 {
        HexSeparates(a / 16, b / 16);
      }
    }
  }

  lemma {:induction false} DecimalSeparates(a: nat, b: nat)
    ensures Decimal(a) == Decimal(b) <==> a == b
  {
    if Decimal(a) == Decimal(b) {
      var x, y := Decimal(a), Decimal(b);
      assert x[|x| - 1] == "0123456789"[a % 10] && y[|y| - 1] == "0123456789"[b % 10];
      assert x[..|x| - 1] == if a < 10 then "" else Decimal(a / 10);
      assert y[..|y| - 1] == if b < 10 then "" else Decimal(b / 10);
      if a >= 10 && b >= 10 {
        DecimalSeparates(a / 10, b / 10);
      }
    }
  }

  // Two names in one image agree only for the same offset.
  lemma {:induction false} OffsetsSeparate(id: string, x: nat, y: nat)
    ensures id + HexDigits(x) == id + HexDigits(y) <==> x == y
  {
    HexSeparates(x, y);
    assert (id + HexDigits(x))[|id|..] == HexDigits(x) && (id + HexDigits(y))[|id|..] == HexDigits(y);
  }

  // A shorter default signature makes a shorter text of the same parts.
  lemma {:induction false} ShorterParts(isDefault: string -> bool, parts: seq<string>, x: string, y: string)
    requires |x| <= |y|
    ensures var a, b := SdkParts(isDefault, parts, x), SdkParts(isDefault, parts, y);
      && |a| == |b| == |parts| && |Join(a, '|')| <= |Join(b, '|')|
      && (|x| < |y| && (exists p :: p in parts && isDefault(p)) ==> |Join(a, '|')| < |Join(b, '|')|)
  {
    if parts != [] {
      ShorterParts(isDefault, parts[1..], x, y);
      assert SdkParts(isDefault, parts, x)[1..] == SdkParts(isDefault, parts[1..], x);
      assert SdkParts(isDefault, parts, y)[1..] == SdkParts(isDefault, parts[1..], y);
      assert forall p :: p in parts <==> p == parts[0] || p in parts[1..];
    }
  }

  lemma {:induction false} PartsSeparate(isDefault: string -> bool, parts: seq<string>, x: string, y: string)
    requires |x| == |y| && exists p :: p in parts && isDefault(p)
    requires Join(SdkParts(isDefault, parts, x), '|') == Join(SdkParts(isDefault, parts, y), '|')
    ensures x == y
  {
    var a, b := SdkParts(isDefault, parts, x), SdkParts(isDefault, parts, y);
    assert a[1..] == SdkParts(isDefault, parts[1..], x) && b[1..] == SdkParts(isDefault, parts[1..], y);
    assert |a| == |b| by {
      ShorterParts(isDefault, parts, x, y);
    }
    var s := Join(a, '|');
    assert s[..|a[0]|] == a[0] && s[..|b[0]|] == b[0];
    if isDefault(parts[0]) {
      assert a[0][|"{{default}}="|..] == x && b[0][|"{{default}}="|..] == y;
    } else {
      assert |a| > 1;
      assert s[|a[0]| + 1..] == Join(a[1..], '|') && s[|b[0]| + 1..] == Join(b[1..], '|');
      PartsSeparate(isDefault, parts[1..], x, y);
    }
  }

  // An SDK fingerprint with the default token splits the usual issues: under one
  // such fingerprint events fall together exactly when their usual signatures agree.
  lemma {:induction false} DefaultTokenSplits(a: Analyser, d: Event, ds: seq<Frame>, e: Event, es: seq<Frame>)
    requires d.sdkFingerprint == e.sdkFingerprint && exists p :: p in d.sdkFingerprint && a.isDefault(p)
    ensures SignatureBy(a, d, ds) == SignatureBy(a, e, es) <==>
      DefaultSignature(a.noise, a.normalize, d, ds) == DefaultSignature(a.noise, a.normalize, e, es)
  {
    var x, y := DefaultSignature(a.noise, a.normalize, d, ds), DefaultSignature(a.noise, a.normalize, e, es);
    var parts := d.sdkFingerprint;
    if |x| <= |y| {
      ShorterParts(a.isDefault, parts, x, y);
    } else {
      ShorterParts(a.isDefault, parts, y, x);
    }
    var m, n := Join(SdkParts(a.isDefault, parts, x), '|'), Join(SdkParts(a.isDefault, parts, y), '|');
    assert ("sdk:" + m)[4..] == m && ("sdk:" + n)[4..] == n;
    if m == n {
      PartsSeparate(a.isDefault, parts, x, y);
    }
  }

  // An event has something to group by.
  predicate Groupable(isDefault: string -> bool, e: Event) {
    || e.errorType != "" || (e.level in ["fatal", "error"] && e.message !in ["", "(no message)"])
    || !(e.sdkFingerprint == [] || (|e.sdkFingerprint| == 1 && isDefault(e.sdkFingerprint[0])))
  }

  // Whether an event has a fingerprint at all does not depend on its frames:
  // symbolicating them can move it to another issue but never to none.
  lemma EmptinessIgnoresFrames(a: Analyser, e: Event, frames: seq<Frame>)
    ensures FingerprintOf(a, e, frames).Some? <==> Groupable(a.isDefault, e)
  {
    var sig := DefaultSignature(a.noise, a.normalize, e, frames);
    assert e.errorType != "" ==> |sig| >= 2;
    assert e.errorType == "" && GroupableMessage(e) ==> |sig| >= 4;
  }
}
