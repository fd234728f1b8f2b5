/** The JPEG marker walk of the metadata analyzer (sections B.1.1.4 and B.2.2 of ITU-T T.81). */
module Jpeg {
  import opened Wrappers
  import opened FileValidation

  datatype Dimensions = Dimensions(width: int, height: int)

  datatype JpegError = NotJpeg | Unreadable

  /** Start-of-frame markers, as the analyzer knows them: C0 to C3 and C5 to C7. */
  predicate FrameMarker(marker: byte) {
    0xC0 <= marker < 0xC4 || 0xC5 <= marker < 0xC8
  }

  /** Start and end of image, which carry no segment. */
  predicate Standalone(marker: byte) {
    marker == 0xD8 || marker == 0xD9
  }

  /** A big-endian 16-bit field. */
  function Word(content: Bytes, at: nat): int
    requires at + 2 <= |content|
  {
    (content[at] as int) * 256 + content[at + 1] as int
  }

  function WordBytes(n: int): (b: Bytes)
    requires 0 <= n < 0x10000
    ensures |b| == 2 && Word(b, 0) == n
  {
    [n / 256, n % 256]
  }

  /** The dimensions found from a position on. */
  function Walk(content: Bytes, position: nat): Option<Dimensions>
    decreases |content| - position
  {
    if position + 3 >= |content| then None
    else if content[position] != 0xFF then Walk(content, position + 1)
    else
      var marker, start := content[position + 1], position + 2;
      if Standalone(marker) then Walk(content, start)
      else
        var length := Word(content, start);
        if length < 2 || start + length > |content| then None
        else if FrameMarker(marker) then
          if length < 7 then None
          else
            var height, width := Word(content, start + 3), Word(content, start + 5);
            if width == 0 || height == 0 then None else Some(Dimensions(width, height))
        else Walk(content, start + length)
  }

  /** What `_jpeg_dimensions` answers. */
  function DimensionsOf(content: Bytes): Result<Dimensions, JpegError> {
    if |content| < 4 || content[..2] != [0xFF, 0xD8] then Err(NotJpeg)
    else
      match Walk(content, 2)
      case None => Err(Unreadable)
      case Some(d) => Ok(d)
  }

  /** The loop. Every access is in bounds, it ends, and its check that two length bytes remain never fails. */
  method JpegDimensions(content: Bytes) returns (r: Result<Dimensions, JpegError>)
    ensures r == DimensionsOf(content)
  {
    if |content| < 4 || content[..2] != [0xFF, 0xD8] {
      return Err(NotJpeg);
    }
    var position := 2;
    while position + 3 < |content|
      invariant 2 <= position
      invariant Walk(content, position) == Walk(content, 2)
      decreases |content| - position
    {
      if content[position] != 0xFF {
        position := position + 1;
        continue;
      }
      var marker := content[position + 1];
      position := position + 2;
      if Standalone(marker) {
        continue;
      }
      if position + 2 > |content| {
        assert false;
      }
      var length := Word(content, position);
      if length < 2 || position + length > |content| {
        return Err(Unreadable);
      }
      if FrameMarker(marker) {
        if length < 7 {
          return Err(Unreadable);
        }
        var height, width := Word(content, position + 3), Word(content, position + 5);
        if width == 0 || height == 0 {
          return Err(Unreadable);
        }
        return Ok(Dimensions(width, height));
      }
      position := position + length;
    }
    r := Err(Unreadable);
  }

  // ----- Soundness

  /** A frame header with these dimensions stands at a position. */
  predicate FrameAt(content: Bytes, at: nat, d: Dimensions) {
    && at + 9 <= |content|
    && content[at] == 0xFF && FrameMarker(content[at + 1])
    && 7 <= Word(content, at + 2) <= |content| - at - 2
    && Word(content, at + 5) == d.height && Word(content, at + 7) == d.width
  }

  /** Dimensions that the walk returns are those of a frame header in the content, and fit 16 bits. */
  lemma {:induction false} WalkFindsAFrame(content: Bytes, position: nat)
    ensures Walk(content, position).Some? ==>
              var d := Walk(content, position).value;
              && 1 <= d.width <= 65535 && 1 <= d.height <= 65535
              && exists at: nat | position <= at < |content| :: FrameAt(content, at, d)
    decreases |content| - position
  {
    if Walk(content, position).Some? {
      var d := Walk(content, position).value;
      if content[position] != 0xFF {
        WalkFindsAFrame(content, position + 1);
      } else {
        var marker, start := content[position + 1], position + 2;
        if Standalone(marker) {
          WalkFindsAFrame(content, start);
        } else if FrameMarker(marker) {
          assert FrameAt(content, position, d);
        } else {
          WalkFindsAFrame(content, start + Word(content, start));
        }
      }
    }
  }

  // ----- Completeness on well-formed files

  /** A marker segment: its length field counts itself and the payload. */
  datatype Segment = Segment(marker: byte, payload: Bytes)

  /** A segment that the walk steps over. */
  predicate Skipped(s: Segment) {
    !FrameMarker(s.marker) && !Standalone(s.marker) && |s.payload| <= 65533
  }

  function Encode(s: Segment): Bytes
    requires |s.payload| <= 65533
  {
    [0xFF, s.marker] + WordBytes(|s.payload| + 2) + s.payload
  }

  /** A frame header: sample precision, height, width, and the component specifications. */
  datatype Frame = Frame(marker: byte, precision: byte, height: int, width: int, components: Bytes)

  predicate FrameOk(f: Frame) {
    FrameMarker(f.marker) && 1 <= f.height <= 65535 && 1 <= f.width <= 65535 && |f.components| <= 65528
  }

  function EncodeFrame(f: Frame): Bytes
    requires FrameOk(f)
  {
    Encode(Segment(f.marker, [f.precision] + WordBytes(f.height) + WordBytes(f.width) + f.components))
  }

  /** Marker segments, a frame header, and whatever follows. */
  function Body(segments: seq<Segment>, f: Frame, rest: Bytes): Bytes
    requires (forall i | 0 <= i < |segments| :: Skipped(segments[i])) && FrameOk(f)
  {
    if segments == [] then EncodeFrame(f) + rest
    else
      assert Skipped(segments[0]);
      Encode(segments[0]) + Body(segments[1..], f, rest)
  }

  lemma WordInside(before: Bytes, n: int, after: Bytes)
    requires 0 <= n < 0x10000
    ensures Word(before + WordBytes(n) + after, |before|) == n
  {
  }

  /** The walk from the start of a well-formed segment goes to its end. */
  lemma WalkSkips(before: Bytes, s: Segment, rest: Bytes)
    requires Skipped(s)
    ensures Walk(before + Encode(s) + rest, |before|) == Walk(before + Encode(s) + rest, |before + Encode(s)|)
  {
    var content := before + Encode(s) + rest;
    WordInside(before + [0xFF, s.marker], |s.payload| + 2, s.payload + rest);
    assert content == before + [0xFF, s.marker] + WordBytes(|s.payload| + 2) + (s.payload + rest);
  }

  lemma WalkReadsFrame(before: Bytes, f: Frame, rest: Bytes)
    requires FrameOk(f)
    ensures Walk(before + EncodeFrame(f) + rest, |before|) == Some(Dimensions(f.width, f.height))
  {
    var payload := [f.precision] + WordBytes(f.height) + WordBytes(f.width) + f.components;
    var content := before + EncodeFrame(f) + rest;
    var head := before + [0xFF, f.marker];
    var length := WordBytes(|payload| + 2);
    WordInside(head, |payload| + 2, payload + rest);
    assert content == head + length + (payload + rest);
    WordInside(head + length + [f.precision], f.height, WordBytes(f.width) + f.components + rest);
    assert content == head + length + [f.precision] + WordBytes(f.height) + (WordBytes(f.width) + f.components + rest);
    WordInside(head + length + [f.precision] + WordBytes(f.height), f.width, f.components + rest);
    assert content == head + length + [f.precision] + WordBytes(f.height) + WordBytes(f.width) + (f.components + rest);
  }

  lemma {:induction false} WalkReachesFrame(before: Bytes, segments: seq<Segment>, f: Frame, rest: Bytes)
    requires (forall i | 0 <= i < |segments| :: Skipped(segments[i])) && FrameOk(f)
    ensures Walk(before + Body(segments, f, rest), |before|) == Some(Dimensions(f.width, f.height))
    decreases |segments|
  {
    if segments == [] {
      WalkReadsFrame(before, f, rest);
      assert before + Body(segments, f, rest) == before + EncodeFrame(f) + rest;
    } else {
      var first, others := Encode(segments[0]), Body(segments[1..], f, rest);
      WalkReachesFrame(before + first, segments[1..], f, rest);
      WalkSkips(before, segments[0], others);
      assert before + Body(segments, f, rest) == before + first + others;
    }
  }

  /**
   * For start-of-image, any list of marker segments other than frames, and a frame header with nonzero size,
   * whatever follows, the analyzer returns the header's width and height.
   */
  lemma WellFormedFilesAreRead(segments: seq<Segment>, f: Frame, rest: Bytes)
    requires (forall i | 0 <= i < |segments| :: Skipped(segments[i])) && FrameOk(f)
    ensures DimensionsOf([0xFF, 0xD8] + Body(segments, f, rest)) == Ok(Dimensions(f.width, f.height))
  {
    var soi: Bytes := [0xFF, 0xD8];
    WalkReachesFrame(soi, segments, f, rest);
    var content := soi + Body(segments, f, rest);
    assert content[..2] == soi;
  }
}
