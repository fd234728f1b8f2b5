/** The layout of a multipart upload: how a content is cut into parts. */
module Multipart {
  import opened FileValidation

  const PART_SIZE: nat := 8 * 1024 * 1024
  const DEFAULT_MAX_FILE_SIZE: nat := 104857600

  function Concat(chunks: seq<Bytes>): Bytes {
    if chunks == [] then [] else chunks[0] + Concat(chunks[1..])
  }

  lemma {:induction false} ConcatAppend(chunks: seq<Bytes>, last: Bytes)
    ensures Concat(chunks + [last]) == Concat(chunks) + last
  {
    if chunks == [] {
      assert Concat([last]) == last + Concat([last][1..]);
    } else {
      ConcatAppend(chunks[1..], last);
      assert (chunks + [last])[1..] == chunks[1..] + [last];
    }
  }

  /** The parts of a content. */
  function Split(content: Bytes): (parts: seq<Bytes>)
    ensures parts != []
    decreases |content|
  {
    if |content| <= PART_SIZE then [content] else [content[..PART_SIZE]] + Split(content[PART_SIZE..])
  }

  lemma {:induction false} SplitConserves(content: Bytes)
    ensures Concat(Split(content)) == content
    decreases |content|
  {
    if |content| <= PART_SIZE {
      assert Concat([content]) == content + Concat([content][1..]);
    } else {
      SplitConserves(content[PART_SIZE..]);
      assert Split(content)[1..] == Split(content[PART_SIZE..]);
      assert content[..PART_SIZE] + content[PART_SIZE..] == content;
    }
  }

  function CeilDiv(a: nat, b: nat): nat
    requires b > 0
  {
    (a + b - 1) / b
  }

  /** How many parts N bytes take. */
  function PartCount(size: nat): nat {
    if size == 0 then 1 else CeilDiv(size, PART_SIZE)
  }

  lemma PartCountGrows(size: nat)
    requires size > PART_SIZE
    ensures PartCount(size) == 1 + PartCount(size - PART_SIZE)
  {
  }

  lemma {:induction false} SplitCount(content: Bytes)
    ensures |Split(content)| == PartCount(|content|)
    decreases |content|
  {
    if |content| > PART_SIZE {
      SplitCount(content[PART_SIZE..]);
      PartCountGrows(|content|);
    }
  }

  lemma {:induction false} SplitSizes(content: Bytes)
    ensures var parts := Split(content);
            && (forall i | 0 <= i < |parts| - 1 :: |parts[i]| == PART_SIZE)
            && |parts[|parts| - 1]| == |content| - (|parts| - 1) * PART_SIZE
            && |parts[|parts| - 1]| <= PART_SIZE
            && (|parts[|parts| - 1]| == 0 <==> |content| == 0)
    decreases |content|
  {
    if |content| > PART_SIZE {
      var rest := Split(content[PART_SIZE..]);
      SplitSizes(content[PART_SIZE..]);
      var parts := Split(content);
      assert parts == [content[..PART_SIZE]] + rest;
      forall i | 0 <= i < |parts| - 1 ensures |parts[i]| == PART_SIZE {
        assert i > 0 ==> parts[i] == rest[i - 1];
      }
      assert (|parts| - 1) * PART_SIZE == (|rest| - 1) * PART_SIZE + PART_SIZE;
    }
  }

  /** All parts but the last are full; the last holds the rest, and is empty only for the empty content. */
  lemma SplitLayout(content: Bytes)
    ensures var parts := Split(content);
            && |parts| == PartCount(|content|)
            && (forall i | 0 <= i < |parts| - 1 :: |parts[i]| == PART_SIZE)
            && |parts[|parts| - 1]| == |content| - (|parts| - 1) * PART_SIZE
            && |parts[|parts| - 1]| <= PART_SIZE
            && (|parts[|parts| - 1]| == 0 <==> |content| == 0)
  {
    SplitCount(content);
    SplitSizes(content);
  }

  lemma DefaultLimitNeedsThirteenParts(content: Bytes)
    requires |content| <= DEFAULT_MAX_FILE_SIZE
    ensures |Split(content)| <= 13
  {
    SplitLayout(content);
  }

  /** Full parts followed by a partial rest are the split of their concatenation. */
  lemma {:induction false} FlushedPartsAreSplit(flushed: seq<Bytes>, rest: Bytes)
    requires forall i | 0 <= i < |flushed| :: |flushed[i]| == PART_SIZE
    requires |rest| < PART_SIZE
    ensures Split(Concat(flushed) + rest) == if rest != [] || flushed == [] then flushed + [rest] else flushed
  {
    if flushed == [] {
      assert Concat(flushed) + rest == rest;
    } else {
      var tail := Concat(flushed[1..]) + rest;
      FlushedPartsAreSplit(flushed[1..], rest);
      assert Concat(flushed) + rest == flushed[0] + tail;
      assert (flushed[0] + tail)[PART_SIZE..] == tail && (flushed[0] + tail)[..PART_SIZE] == flushed[0];
      assert flushed[1..] != [] ==> |tail| >= |flushed[1..][0]| == PART_SIZE;
      if |tail| == 0 {
        assert flushed == [flushed[0]];
      } else {
        assert flushed == [flushed[0]] + flushed[1..];
        assert flushed + [rest] == [flushed[0]] + (flushed[1..] + [rest]);
      }
    }
  }
}
