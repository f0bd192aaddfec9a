/** The lossless metadata stripper: a walk over JPEG marker segments that copies all but APP1 and COM. */
module Jpeg {
  import opened Basics

  const MARK: Byte := 0xFF
  const SOI: Byte := 0xD8
  const EOI: Byte := 0xD9
  const SOS: Byte := 0xDA
  const APP1: Byte := 0xE1
  const COM: Byte := 0xFE

  // ---- marker segments -------------------------------------------------------------

  /** What follows the start marker: whole segments, then everything from the first thing that is not one. */
  datatype Parsed = Parsed(segments: seq<seq<Byte>>, tail: seq<Byte>)

  /** The big-endian length at offset 2 counts itself and what follows it. */
  function SegmentLength(b: seq<Byte>): nat
    requires |b| >= 4
  {
    var high: int, low: int := b[2], b[3];
    high * 256 + low
  }

  /** A marker other than SOS and EOI with a length that fits. */
  predicate StartsSegment(b: seq<Byte>) {
    && |b| >= 4 && b[0] == MARK && b[1] != SOS && b[1] != EOI
    && 2 <= SegmentLength(b) && 2 + SegmentLength(b) <= |b|
  }

  function Parse(b: seq<Byte>): Parsed {
    if StartsSegment(b) then
      var n := 2 + SegmentLength(b);
      var rest := Parse(b[n..]);
      Parsed([b[..n]] + rest.segments, rest.tail)
    else Parsed([], b)
  }

  function Joined(segments: seq<seq<Byte>>): seq<Byte> {
    if segments == [] then [] else segments[0] + Joined(segments[1..])
  }

  /** Exactly one whole segment. */
  predicate IsSegment(s: seq<Byte>) {
    StartsSegment(s) && |s| == 2 + SegmentLength(s)
  }

  /** A marker other than start of scan and end of image, and as many bytes as its length field says. */
  predicate Whole(s: seq<Byte>) {
    && |s| >= 4 && s[0] == 0xFF && s[1] != 0xDA && s[1] != 0xD9
    && |s| == 2 + s[2] as nat * 256 + s[3] as nat
  }

  predicate Metadata(s: seq<Byte>) {
    |s| >= 2 && (s[1] == APP1 || s[1] == COM)
  }

  function Kept(segments: seq<seq<Byte>>): seq<seq<Byte>> {
    if segments == [] then []
    else (if Metadata(segments[0]) then [] else [segments[0]]) + Kept(segments[1..])
  }

  lemma Cons(s: seq<Byte>, rest: seq<seq<Byte>>)
    ensures Joined([s] + rest) == s + Joined(rest)
    ensures Kept([s] + rest) == (if Metadata(s) then [] else [s]) + Kept(rest)
  {
    assert ([s] + rest)[1..] == rest;
  }

  lemma FirstSegment(s: seq<Byte>, rest: seq<Byte>)
    requires IsSegment(s)
    ensures Parse(s + rest) == Parsed([s] + Parse(rest).segments, Parse(rest).tail)
  {
    var b := s + rest;
    assert b[..|s|] == s && b[|s|..] == rest;
    assert StartsSegment(b) && SegmentLength(b) == SegmentLength(s);
  }

  /** Take the first segment off. */
  lemma Uncons(b: seq<Byte>) returns (s: seq<Byte>, rest: seq<Byte>)
    requires StartsSegment(b)
    ensures IsSegment(s) && b == s + rest && |rest| < |b|
    ensures s == b[..2 + SegmentLength(b)] && rest == b[2 + SegmentLength(b)..]
  {
    s, rest := b[..2 + SegmentLength(b)], b[2 + SegmentLength(b)..];
    assert s[0] == b[0] && s[1] == b[1] && s[2] == b[2] && s[3] == b[3];
  }

  lemma TakeFirst(b: seq<Byte>) returns (s: seq<Byte>, rest: seq<Byte>)
    requires StartsSegment(b)
    ensures IsSegment(s) && b == s + rest && |rest| < |b|
  {
    s, rest := Uncons(b);
  }

  lemma Regroup(a: seq<Byte>, b: seq<Byte>, c: seq<Byte>)
    ensures (a + b) + c == a + (b + c)
  {}

  /** Parsing loses nothing. */
  lemma {:induction false} ParseIsLossless(b: seq<Byte>)
    ensures Joined(Parse(b).segments) + Parse(b).tail == b
    decreases |b|
  {
    if StartsSegment(b) {
      var s, rest := TakeFirst(b);
      ParseIsLossless(rest);
      FirstSegment(s, rest);
      Cons(s, Parse(rest).segments);
      Regroup(s, Joined(Parse(rest).segments), Parse(rest).tail);
    }
  }

  lemma {:induction false} ParseIsMaximal(b: seq<Byte>)
    ensures !StartsSegment(Parse(b).tail)
    ensures forall s :: s in Parse(b).segments ==> IsSegment(s)
    ensures forall s :: s in Parse(b).segments ==> Whole(s)
    ensures var tail := Parse(b).tail;
      |tail| >= 4 && tail[0] == 0xFF && tail[1] != 0xDA && tail[1] != 0xD9 ==>
        var n := tail[2] as nat * 256 + tail[3] as nat; n < 2 || 2 + n > |tail|
    decreases |b|
  {
    if StartsSegment(b) {
      var s, rest := TakeFirst(b);
      ParseIsMaximal(rest);
      FirstSegment(s, rest);
    }
  }

  /** Segments delimit themselves: what is printed parses back to what was printed. */
  lemma {:induction false} ParseInverse(segments: seq<seq<Byte>>, tail: seq<Byte>)
    requires forall s :: s in segments ==> IsSegment(s)
    requires !StartsSegment(tail)
    ensures Parse(Joined(segments) + tail) == Parsed(segments, tail)
  {
    if segments == [] {
      assert Joined(segments) + tail == tail;
    } else {
      var s, rest := segments[0], Joined(segments[1..]) + tail;
      assert Joined(segments) + tail == s + rest;
      ParseInverse(segments[1..], tail);
      FirstSegment(s, rest);
      assert segments == [s] + segments[1..];
    }
  }

  lemma {:induction false} KeptOnly(segments: seq<seq<Byte>>)
    ensures forall s :: s in Kept(segments) ==> s in segments && !Metadata(s)
    ensures forall s :: s in segments && !Metadata(s) ==> s in Kept(segments)
    ensures (forall s :: s in segments ==> !Metadata(s)) ==> Kept(segments) == segments
  {
    if segments != [] {
      KeptOnly(segments[1..]);
      assert segments == [segments[0]] + segments[1..];
    }
  }

  // ---- what stripping means --------------------------------------------------------------

  predicate IsJpeg(b: seq<Byte>) {
    |b| >= 4 && b[0] == MARK && b[1] == SOI
  }

  /** A lone byte after the last segment is lost: the walk looks at two bytes at a time. */
  function Carried(tail: seq<Byte>): seq<Byte> {
    if |tail| == 1 then [] else tail
  }

  /** What is printed of everything after the start marker. */
  function Clean(body: seq<Byte>): seq<Byte> {
    Joined(Kept(Parse(body).segments)) + Carried(Parse(body).tail)
  }

  function Strip(b: seq<Byte>): seq<Byte> {
    if IsJpeg(b) then [MARK, SOI] + Clean(b[2..]) else b
  }

  lemma CleanParses(body: seq<Byte>)
    ensures Parse(Clean(body)) == Parsed(Kept(Parse(body).segments), Carried(Parse(body).tail))
  {
    ParseIsMaximal(body);
    KeptOnly(Parse(body).segments);
    ParseInverse(Kept(Parse(body).segments), Carried(Parse(body).tail));
  }

  /** What the stripper leaves, read back as segments. */
  lemma StripParses(b: seq<Byte>)
    requires IsJpeg(b)
    ensures Strip(b)[..2] == [MARK, SOI]
    ensures Parse(Strip(b)[2..]) == Parsed(Kept(Parse(b[2..]).segments), Carried(Parse(b[2..]).tail))
  {
    var body := b[2..];
    CleanParses(body);
    assert ([MARK, SOI] + Clean(body))[2..] == Clean(body);
  }

  /** No APP1 or COM segment is left in the header part, every other segment is, in order and byte for byte. */
  lemma NoMetadataLeft(b: seq<Byte>)
    requires IsJpeg(b)
    ensures var before, after := Parse(b[2..]).segments, Parse(Strip(b)[2..]).segments;
      && after == Kept(before)
      && (forall s :: s in after ==> Whole(s) && s[1] != 0xE1 && s[1] != 0xFE)
      && (forall s :: s in before ==> Whole(s) && (s in after || s[1] == 0xE1 || s[1] == 0xFE))
      && (forall s :: s in after <==> s in before && !Metadata(s))
  {
    StripParses(b);
    ParseIsMaximal(b[2..]);
    ParseIsMaximal(Strip(b)[2..]);
    KeptOnly(Parse(b[2..]).segments);
  }

  /** The tail, from SOS, EOI or the first malformed segment on, is copied verbatim exactly when it is not a single byte. */
  lemma TailVerbatim(b: seq<Byte>)
    requires |b| >= 4 && b[0] == 0xFF && b[1] == 0xD8
    ensures var p := Parse(b[2..]);
      Strip(b) == [0xFF, 0xD8] + (Joined(Kept(p.segments)) + p.tail) <==> |p.tail| != 1
  {
    var p := Parse(b[2..]);
    SamePrefix([MARK, SOI], Joined(Kept(p.segments)) + Carried(p.tail), Joined(Kept(p.segments)) + p.tail);
  }

  /** A byte that is lost: a single one behind the last segment. */
  lemma LoneByteLost()
    ensures Strip([0xFF, 0xD8, 0xFF, 0xE0, 0, 2, 7]) == [0xFF, 0xD8, 0xFF, 0xE0, 0, 2]
  {
    var b: seq<Byte> := [0xFF, 0xD8, 0xFF, 0xE0, 0, 2, 7];
    var segment: seq<Byte> := [0xFF, 0xE0, 0, 2];
    ParseInverse([segment], [7]);
    assert Joined([segment]) + [7] == b[2..];
    KeptOnly([segment]);
  }

  lemma SamePrefix(a: seq<Byte>, x: seq<Byte>, y: seq<Byte>)
    ensures a + x == a + y <==> x == y
  {
    assert (a + x)[|a|..] == x && (a + y)[|a|..] == y;
  }

  /** In particular the compressed scan and the end marker are untouched. */
  lemma ScanUntouched(b: seq<Byte>)
    requires IsJpeg(b) && |Parse(b[2..]).tail| >= 2
    ensures var tail := Parse(b[2..]).tail; |tail| <= |Strip(b)| && Strip(b)[|Strip(b)| - |tail|..] == tail
  {}

  /** Stripping twice is stripping once, on every byte sequence. */
  lemma StripIdempotent(b: seq<Byte>)
    ensures Strip(Strip(b)) == Strip(b)
  {
    if IsJpeg(b) && IsJpeg(Strip(b)) {
      var body := b[2..];
      assert Strip(b)[2..] == Clean(body);
      CleanTwice(body);
    }
  }

  lemma CleanTwice(body: seq<Byte>)
    ensures Clean(Clean(body)) == Clean(body)
  {
    CleanParses(body);
    KeptOnly(Parse(body).segments);
    KeptOnly(Kept(Parse(body).segments));
  }

  // ---- the loop ------------------------------------------------------------------------------

  /** The length field of the segment at `i`; 0 where the rest is to be copied: alignment lost, SOS, EOI, or a bad length. */
  method SegmentHere(b: seq<Byte>, i: nat) returns (segLen: nat)
    requires i + 1 < |b|
    ensures segLen == if StartsSegment(b[i..]) then SegmentLength(b[i..]) else 0
  {
    ghost var rest := b[i..];
    assert rest[0] == b[i] && rest[1] == b[i + 1];
    if b[i] != 0xFF || b[i + 1] == 0xDA || b[i + 1] == 0xD9 || i + 3 >= |b| {
      return 0;
    }
    assert rest[2] == b[i + 2] && rest[3] == b[i + 3];
    var high: int, low: int := b[i + 2], b[i + 3];
    segLen := high * 256 + low;
    if segLen < 2 || i + 2 + segLen > |b| {
      return 0;
    }
  }

  /** The segment at `i` as a stretch of the input. */
  lemma SegmentAt(b: seq<Byte>, i: nat) returns (s: seq<Byte>, after: seq<Byte>)
    requires i + 1 < |b| && StartsSegment(b[i..])
    ensures IsSegment(s) && s + after == b[i..] && s[1] == b[i + 1]
    ensures var next := i + 2 + SegmentLength(b[i..]); next <= |b| && s == b[i..next] && after == b[next..]
  {
    s, after := Uncons(b[i..]);
    var next := i + 2 + SegmentLength(b[i..]);
    assert s == b[i..next];
    assert after == b[next..];
    assert b[i..][1] == b[i + 1];
  }

  /** What the loop has still to bring about from `i` on, having written `out`. */
  function Finished(b: seq<Byte>, i: nat, out: seq<Byte>): seq<Byte>
    requires i <= |b|
  {
    out + Clean(b[i..])
  }

  lemma Begin(b: seq<Byte>)
    requires IsJpeg(b)
    ensures Finished(b, 2, [0xFF, 0xD8]) == Strip(b)
  {}

  /** One turn of the loop: passing over that segment, copied or not. */
  lemma Turn(b: seq<Byte>, i: nat, segLen: nat, out: seq<Byte>)
    requires i + 1 < |b| && StartsSegment(b[i..]) && segLen == SegmentLength(b[i..])
    ensures i + 2 + segLen <= |b|
    ensures if b[i + 1] == 0xE1 || b[i + 1] == 0xFE then Finished(b, i + 2 + segLen, out) == Finished(b, i, out)
            else Finished(b, i + 2 + segLen, out + b[i..i + 2 + segLen]) == Finished(b, i, out)
  {
    var s, after := SegmentAt(b, i);
    CleanStep(out, s, after, b[i..]);
  }

  /** Where no segment starts, everything is tail. */
  lemma Stop(b: seq<Byte>, i: nat, out: seq<Byte>)
    requires i + 1 < |b| && !StartsSegment(b[i..])
    ensures Finished(b, i, out) == out + b[i..]
  {}

  /** A byte that no marker can start with is left over, or nothing. */
  lemma End(b: seq<Byte>, i: nat, out: seq<Byte>)
    requires i <= |b| <= i + 1
    ensures Finished(b, i, out) == out
  {}

  /** stripJPEGMetadata */
  method StripJpegMetadata(b: seq<Byte>) returns (out: seq<Byte>)
    ensures out == Strip(b)
    ensures |b| < 4 || b[0] != 0xFF || b[1] != 0xD8 ==> out == b
  {
    if |b| < 4 || b[0] != 0xFF || b[1] != 0xD8 {
      return b;
    }
    out := [0xFF, 0xD8];
    var i := 2;
    Begin(b);
    while i + 1 < |b|
      invariant 2 <= i <= |b| && Finished(b, i, out) == Strip(b)
      decreases |b| - i
    {
      var segLen := SegmentHere(b, i);
      if segLen == 0 {
        Stop(b, i, out);
        return out + b[i..];
      }
      Turn(b, i, segLen, out);
      var marker := b[i + 1];
      if marker != 0xE1 && marker != 0xFE {
        out := out + b[i..i + 2 + segLen];
      }
      i := i + 2 + segLen;
    }
    End(b, i, out);
  }

  /** What passing over one segment contributes to the output. */
  lemma CleanStep(out: seq<Byte>, s: seq<Byte>, after: seq<Byte>, rest: seq<Byte>)
    requires IsSegment(s) && s + after == rest
    ensures if s[1] == 0xE1 || s[1] == 0xFE then out + Clean(after) == out + Clean(rest)
            else (out + s) + Clean(after) == out + Clean(rest)
  {
    var p := Parse(after);
    FirstSegment(s, after);
    Cons(s, p.segments);
    if Metadata(s) {
      assert [] + Kept(p.segments) == Kept(p.segments);
    } else {
      Cons(s, Kept(p.segments));
      Regroup(s, Joined(Kept(p.segments)), Carried(p.tail));
      Regroup(out, s, Clean(after));
    }
  }
}
