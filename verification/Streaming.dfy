/**
 * The upload stream: the client's chunks, the sniffing validator with its replay, the hashing tee with the
 * size limit, and the multipart upload that pulls from them.
 */
module Streaming {
  import opened Wrappers
  import opened FileValidation
  import opened Multipart

  datatype StreamError = FileTooLarge(size: nat, max: nat) | StorageFailed

  const NO_PARTS: map<int, Bytes> := map[]

  /** The request body: an asynchronous iterator that resumes where it was left. */
  class ChunkStream {
    var rest: seq<Bytes>

    constructor (chunks: seq<Bytes>)
      ensures rest == chunks
    {
      rest := chunks;
    }

    method Next() returns (r: Option<Bytes>)
      modifies this
      ensures old(rest) == [] ==> r == None && rest == []
      ensures old(rest) != [] ==> r == Some(old(rest)[0]) && rest == old(rest)[1..]
    {
      if rest == [] {
        return None;
      }
      r := Some(rest[0]);
      rest := rest[1..];
    }
  }

  /** Yields the sniffed prefix, the tail of the chunk it was cut from, then the rest of the stream. */
  class Replay {
    const stream: ChunkStream
    var held: seq<Bytes>

    ghost function Remaining(): seq<Bytes>
      reads this, stream
    {
      held + stream.rest
    }

    constructor (stream: ChunkStream, sniffed: Bytes, overflow: Bytes)
      ensures this.stream == stream
      ensures Concat(held) == sniffed + overflow
    {
      this.stream := stream;
      held := (if sniffed != [] then [sniffed] else []) + (if overflow != [] then [overflow] else []);
      new;
      var one: seq<Bytes> := if sniffed != [] then [sniffed] else [];
      assert Concat(one) == sniffed;
      if overflow != [] {
        ConcatAppend(one, overflow);
        assert held == one + [overflow];
      } else {
        assert held == one && sniffed + overflow == sniffed;
      }
    }

    method Next() returns (r: Option<Bytes>)
      modifies this, stream
      ensures old(Remaining()) == [] ==> r == None && Remaining() == []
      ensures old(Remaining()) != [] ==> r == Some(old(Remaining())[0]) && Remaining() == old(Remaining())[1..]
    {
      if held != [] {
        r := Some(held[0]);
        held := held[1..];
      } else {
        r := stream.Next();
      }
    }
  }

  lemma Associative(a: Bytes, b: Bytes, c: Bytes)
    ensures (a + b) + c == a + (b + c)
  {
  }

  lemma {:induction false} ConcatSplits(a: seq<Bytes>, b: seq<Bytes>)
    ensures Concat(a + b) == Concat(a) + Concat(b)
  {
    if a == [] {
      assert a + b == b;
    } else {
      var tail := a[1..] + b;
      assert (a + b)[0] == a[0] && (a + b)[1..] == tail;
      ConcatSplits(a[1..], b);
      Associative(a[0], Concat(a[1..]), Concat(b));
      assert Concat(a + b) == a[0] + Concat(tail);
    }
  }

  /** Reads chunks until the window is full or the stream ends; what a chunk holds past the window is kept. */
  method Sniff(stream: ChunkStream) returns (window: Bytes, overflow: Bytes, exhausted: bool)
    modifies stream
    ensures var content := old(Concat(stream.rest));
            && window == Window(content) && (exhausted <==> |content| < SNIFF_BYTES)
            && window + overflow + Concat(stream.rest) == content
  {
    ghost var content := Concat(stream.rest);
    window, overflow, exhausted := [], [], false;
    while !exhausted && |window| < SNIFF_BYTES
      invariant |window| <= SNIFF_BYTES
      invariant window + overflow + Concat(stream.rest) == content
      invariant exhausted ==> stream.rest == [] && |window| < SNIFF_BYTES
      invariant |window| < SNIFF_BYTES ==> overflow == []
      decreases |stream.rest|, !exhausted
    {
      ghost var before := window;
      var chunk := stream.Next();
      if chunk.None? {
        exhausted := true;
      } else {
        window := window + chunk.value;
        assert window + Concat(stream.rest) == before + [] + (chunk.value + Concat(stream.rest));
        if |window| >= SNIFF_BYTES {
          overflow := window[SNIFF_BYTES..];
          window := window[..SNIFF_BYTES];
        }
      }
    }
  }

  /**
   * `validate_upload_stream`: whether it accepts depends on the bytes of the stream alone, and the replay it
   * returns yields those bytes again.
   */
  method ValidateUploadStream(stream: ChunkStream, declared: string, allowed: seq<string>)
    returns (r: Result<Replay, ValidationError>)
    modifies stream
    ensures var content := old(Concat(stream.rest));
            && (r.Ok? <==> ValidateContent(content, declared, allowed).None?)
            && (r.Err? ==> Some(r.error) == ValidateContent(content, declared, allowed))
            && (r.Ok? ==> fresh(r.value) && r.value.stream == stream && Concat(r.value.Remaining()) == content)
  {
    if !Allowed(declared, allowed) {
      return Err(MimeTypeNotAllowed(NormalizeContentType(declared)));
    }
    var window, overflow, exhausted := Sniff(stream);
    var refused := ValidateMagicBytes(window, NormalizeContentType(declared), exhausted);
    if refused.Some? {
      return Err(refused.value);
    }
    var replay := new Replay(stream, window, overflow);
    ConcatSplits(replay.held, stream.rest);
    r := Ok(replay);
  }

  /** Passes chunks through while hashing and counting them; raises as soon as the count passes the limit. */
  class HashingTee {
    const source: Replay
    const maxBytes: nat
    var fed: Bytes
    var sizeBytes: nat

    constructor (source: Replay, maxBytes: nat)
      ensures this.source == source && this.maxBytes == maxBytes
      ensures fed == [] && sizeBytes == 0
    {
      this.source, this.maxBytes := source, maxBytes;
      fed, sizeBytes := [], 0;
    }

    /** The bytes still to come. */
    ghost function Ahead(): Bytes
      reads this, source, source.stream
    {
      Concat(source.Remaining())
    }

    method Next() returns (r: Result<Option<Bytes>, StreamError>)
      requires sizeBytes == |fed| <= maxBytes
      modifies this, source, source.stream
      ensures sizeBytes == |fed|
      ensures fed + Ahead() == old(fed) + old(Ahead())
      ensures r == Ok(None) ==> fed == old(fed) && Ahead() == []
      ensures r.Ok? ==> sizeBytes <= maxBytes
      ensures r.Ok? && r.value.Some? ==> && fed == old(fed) + r.value.value
                                         && old(source.Remaining()) != []
                                         && r.value.value == old(source.Remaining())[0]
                                         && source.Remaining() == old(source.Remaining())[1..]
      ensures r.Err? <==> |fed| > maxBytes
      ensures r.Err? ==> r.error == FileTooLarge(sizeBytes, maxBytes)
    {
      var chunk := source.Next();
      if chunk.None? {
        return Ok(None);
      }
      fed := fed + chunk.value;
      sizeBytes := sizeBytes + |chunk.value|;
      assert old(fed) + (chunk.value + Ahead()) == fed + Ahead();
      if sizeBytes > maxBytes {
        return Err(FileTooLarge(sizeBytes, maxBytes));
      }
      r := Ok(Some(chunk.value));
    }

    /** The digest of the bytes passed so far. */
    method HexDigest(hash: Bytes -> string) returns (digest: string)
      ensures digest == hash(fed)
    {
      digest := hash(fed);
    }
  }

  function Assembled(parts: map<int, Bytes>, numbers: seq<nat>): Bytes
    requires forall i | 0 <= i < |numbers| :: numbers[i] in parts
  {
    if numbers == [] then [] else parts[numbers[0]] + Assembled(parts, numbers[1..])
  }

  lemma {:induction false} AssembledInOrder(stored: map<int, Bytes>, numbers: seq<nat>, parts: seq<Bytes>)
    requires |numbers| == |parts|
    requires forall i | 0 <= i < |numbers| :: numbers[i] in stored && stored[numbers[i]] == parts[i]
    ensures Assembled(stored, numbers) == Concat(parts)
  {
    if numbers != [] {
      AssembledInOrder(stored, numbers[1..], parts[1..]);
    }
  }

  function LongestChunk(chunks: seq<Bytes>): nat {
    if chunks == [] then 1
    else
      var others := LongestChunk(chunks[1..]);
      if |chunks[0]| > others then |chunks[0]| else others
  }

  lemma NextChunkIsShort(chunks: seq<Bytes>)
    ensures chunks != [] ==> |chunks[0]| <= LongestChunk(chunks) && LongestChunk(chunks[1..]) <= LongestChunk(chunks)
  {
  }

  /** The full parts and the rest, unless it is nothing after full parts. */
  function FinalParts(parts: seq<Bytes>, rest: Bytes): seq<Bytes> {
    if rest != [] || parts == [] then parts + [rest] else parts
  }

  lemma FinalPartsAreSplit(parts: seq<Bytes>, rest: Bytes)
    requires forall i | 0 <= i < |parts| :: |parts[i]| == PART_SIZE
    requires |rest| < PART_SIZE
    ensures FinalParts(parts, rest) == Split(Concat(parts) + rest)
    ensures Concat(FinalParts(parts, rest)) == Concat(parts) + rest
  {
    FlushedPartsAreSplit(parts, rest);
    ConcatAppend(parts, rest);
    assert Concat(parts) + [] == Concat(parts);
  }

  /** An object store whose calls fail as `faults` says, one entry a call, then never. */
  class ObjectStore {
    var objects: map<string, Bytes>
    var open: map<nat, map<int, Bytes>>
    var faults: seq<bool>

    constructor ()
      ensures objects == map[] && open == map[] && faults == []
    {
      objects, open, faults := map[], map[], [];
    }

    /** No further call fails. */
    ghost predicate Reliable()
      reads this
    {
      forall i | 0 <= i < |faults| :: !faults[i]
    }

    method Call() returns (ok: bool)
      modifies this`faults
      ensures old(Reliable()) ==> ok && Reliable()
    {
      ok := faults == [] || !faults[0];
      faults := if faults == [] then [] else faults[1..];
    }

    /** Opens an upload under the identifier that the store drew for it. */
    method CreateMultipartUpload(uploadId: nat) returns (ok: bool)
      modifies this
      ensures objects == old(objects)
      ensures open == if ok then old(open)[uploadId := NO_PARTS] else old(open)
      ensures old(Reliable()) ==> ok && Reliable()
    {
      ok := Call();
      if ok {
        open := open[uploadId := NO_PARTS];
      }
    }

    method UploadPart(uploadId: nat, number: nat, body: Bytes) returns (ok: bool)
      requires uploadId in open
      modifies this
      ensures objects == old(objects)
      ensures open == if ok then old(open)[uploadId := old(open)[uploadId][number := body]] else old(open)
      ensures old(Reliable()) ==> ok && Reliable()
    {
      ok := Call();
      if ok {
        open := open[uploadId := open[uploadId][number := body]];
      }
    }

    /** Assembles the listed parts, in the listed order, into the object. */
    method CompleteMultipartUpload(key: string, uploadId: nat, numbers: seq<nat>) returns (ok: bool)
      requires uploadId in open && forall i | 0 <= i < |numbers| :: numbers[i] in open[uploadId]
      modifies this
      ensures ok ==> && objects == old(objects)[key := Assembled(old(open)[uploadId], numbers)]
                     && open == old(open) - {uploadId}
      ensures !ok ==> objects == old(objects) && open == old(open)
      ensures old(Reliable()) ==> ok && Reliable()
    {
      ok := Call();
      if ok {
        objects := objects[key := Assembled(open[uploadId], numbers)];
        open := open - {uploadId};
      }
    }

    method AbortMultipartUpload(uploadId: nat)
      modifies this
      ensures objects == old(objects)
      ensures open == old(open) || open == old(open) - {uploadId}
      ensures old(Reliable()) ==> open == old(open) - {uploadId} && Reliable()
    {
      var ok := Call();
      if ok {
        open := open - {uploadId};
      }
    }

    method Delete(key: string) returns (ok: bool)
      modifies this
      ensures open == old(open)
      ensures objects == if ok then old(objects) - {key} else old(objects)
      ensures old(Reliable()) ==> ok && Reliable()
    {
      ok := Call();
      if ok {
        objects := objects - {key};
      }
    }

    /** The open upload holds `parts`, all full, under the numbers 1, 2, and so on. */
    ghost predicate Uploading(uploadId: nat, numbers: seq<nat>, parts: seq<Bytes>)
      reads this`open
    {
      && uploadId in open
      && |numbers| == |parts|
      && (forall i | 0 <= i < |numbers| ::
            numbers[i] == i + 1 && numbers[i] in open[uploadId] && open[uploadId][numbers[i]] == parts[i])
      && (forall i | 0 <= i < |parts| :: |parts[i]| == PART_SIZE)
    }

    /** Extends the buffer with a chunk and uploads full parts while it holds one. */
    method FlushFullParts(uploadId: nat, numbers: seq<nat>, buffer: Bytes, chunk: Bytes, ghost parts: seq<Bytes>)
      returns (ok: bool, numbers': seq<nat>, rest: Bytes, ghost parts': seq<Bytes>)
      requires Uploading(uploadId, numbers, parts)
      modifies this
      ensures objects == old(objects) && open.Keys == old(open.Keys) && open - {uploadId} == old(open - {uploadId})
      ensures ok ==> Uploading(uploadId, numbers', parts') && |rest| < PART_SIZE
      ensures ok ==> Concat(parts') + rest == Concat(parts) + buffer + chunk
      ensures old(Reliable()) ==> ok && Reliable()
    {
      ok, numbers', rest, parts' := true, numbers, buffer + chunk, parts;
      while |rest| >= PART_SIZE
        invariant Uploading(uploadId, numbers', parts')
        invariant Concat(parts') + rest == Concat(parts) + buffer + chunk
        invariant objects == old(objects) && open.Keys == old(open.Keys) && open - {uploadId} == old(open - {uploadId})
        invariant old(Reliable()) ==> Reliable()
      {
        var body := rest[..PART_SIZE];
        ok := UploadPart(uploadId, |numbers'| + 1, body);
        if !ok {
          return;
        }
        ConcatAppend(parts', body);
        assert Concat(parts') + rest == Concat(parts') + body + rest[PART_SIZE..];
        numbers', parts' := numbers' + [|numbers'| + 1], parts' + [body];
        rest := rest[PART_SIZE..];
      }
    }

    /** Uploads what is left, unless it is nothing after full parts. */
    method UploadLastPart(uploadId: nat, numbers: seq<nat>, rest: Bytes, ghost parts: seq<Bytes>)
      returns (ok: bool, listed: seq<nat>)
      requires Uploading(uploadId, numbers, parts) && |rest| < PART_SIZE
      modifies this
      ensures objects == old(objects) && uploadId in open && open - {uploadId} == old(open - {uploadId})
      ensures ok ==>
                var last := FinalParts(parts, rest);
                && |listed| == |last|
                && forall i | 0 <= i < |listed| ::
                     listed[i] == i + 1 && listed[i] in open[uploadId] && open[uploadId][listed[i]] == last[i]
      ensures old(Reliable()) ==> ok && Reliable()
    {
      ok, listed := true, numbers;
      if rest != [] || numbers == [] {
        ok := UploadPart(uploadId, |numbers| + 1, rest);
        listed := numbers + [|numbers| + 1];
      }
    }

    /** Uploads the last part and assembles the object. */
    method CompleteParts(key: string, uploadId: nat, numbers: seq<nat>, rest: Bytes, ghost parts: seq<Bytes>)
      returns (ok: bool, ghost parts': seq<Bytes>)
      requires Uploading(uploadId, numbers, parts) && |rest| < PART_SIZE
      modifies this
      ensures ok ==> objects == old(objects)[key := Concat(parts) + rest] && open == old(open) - {uploadId}
      ensures ok ==> parts' == Split(Concat(parts) + rest)
      ensures !ok ==> objects == old(objects) && uploadId in open && open - {uploadId} == old(open - {uploadId})
      ensures old(Reliable()) ==> ok && Reliable()
    {
      FinalPartsAreSplit(parts, rest);
      parts' := FinalParts(parts, rest);
      var listed;
      ok, listed := UploadLastPart(uploadId, numbers, rest, parts);
      if ok {
        AssembledInOrder(open[uploadId], listed, parts');
        ok := CompleteMultipartUpload(key, uploadId, listed);
      }
    }

    /** Pulls the tee to its end, uploading every full part on the way. `peak` is the longest the buffer ever is. */
    method PumpParts(tee: HashingTee, uploadId: nat)
      returns (failed: Option<StreamError>, numbers: seq<nat>, buffer: Bytes, ghost parts: seq<Bytes>, ghost peak: nat)
      requires tee.fed == [] && tee.sizeBytes == 0 && Uploading(uploadId, [], [])
      modifies this, tee, tee.source, tee.source.stream
      ensures objects == old(objects) && uploadId in open && open - {uploadId} == old(open - {uploadId})
      ensures var content := old(tee.Ahead());
              && (failed.None? ==> && Uploading(uploadId, numbers, parts) && |buffer| < PART_SIZE
                                   && Concat(parts) + buffer == tee.fed == content
                                   && tee.sizeBytes == |content| <= tee.maxBytes)
              && (failed.Some? && failed.value.FileTooLarge? ==> |content| > tee.maxBytes)
      ensures peak < PART_SIZE + LongestChunk(old(tee.source.Remaining()))
      ensures old(Reliable()) ==> Reliable() && (failed.Some? ==> failed.value.FileTooLarge?)
    {
      failed, numbers, buffer, parts, peak := None, [], [], [], 0;
      ghost var content, longest := tee.Ahead(), LongestChunk(tee.source.Remaining());
      while true
        invariant Uploading(uploadId, numbers, parts)
        invariant objects == old(objects) && open - {uploadId} == old(open - {uploadId})
        invariant Concat(parts) + buffer == tee.fed && |buffer| < PART_SIZE
        invariant tee.fed + tee.Ahead() == content && tee.sizeBytes == |tee.fed| <= tee.maxBytes
        invariant LongestChunk(tee.source.Remaining()) <= longest && peak < PART_SIZE + longest
        invariant old(Reliable()) ==> Reliable()
        decreases |tee.source.Remaining()|
      {
        NextChunkIsShort(tee.source.Remaining());
        var chunk := tee.Next();
        if chunk.Err? {
          assert |content| >= |tee.fed|;
          failed := Some(chunk.error);
          return;
        }
        if chunk.value.None? {
          assert tee.fed == content;
          return;
        }
        ghost var extended := |buffer| + |chunk.value.value|;
        peak := if extended > peak then extended else peak;
        var ok;
        ok, numbers, buffer, parts := FlushFullParts(uploadId, numbers, buffer, chunk.value.value, parts);
        if !ok {
          failed := Some(StorageFailed);
          return;
        }
      }
    }

    /**
     * `upload_stream`. On success the object is the bytes the tee passed, cut as `Split` says into parts
     * numbered from 1; on any failure no object changes. A store that does not fail refuses exactly the
     * contents over the limit, and keeps no part of them.
     */
    method UploadStream(key: string, tee: HashingTee, uploadId: nat)
      returns (r: Result<(), StreamError>, ghost parts: seq<Bytes>, ghost peak: nat)
      requires tee.fed == [] && tee.sizeBytes == 0 && uploadId !in open
      modifies this, tee, tee.source, tee.source.stream
      ensures var content := old(tee.Ahead());
              && (r.Ok? ==> && |content| <= tee.maxBytes
                            && tee.fed == content && tee.sizeBytes == |content|
                            && objects == old(objects)[key := content]
                            && parts == Split(content))
              && (r.Err? ==> objects == old(objects))
              && (r.Err? && r.error.FileTooLarge? ==> |content| > tee.maxBytes)
              && (old(Reliable()) ==> && (r.Ok? <==> |content| <= tee.maxBytes)
                                      && (r.Err? ==> r.error.FileTooLarge?)
                                      && open == old(open) && Reliable())
      ensures peak < PART_SIZE + LongestChunk(old(tee.source.Remaining()))
    {
      ghost var before := open;
      parts, peak := [], 0;
      var ok := CreateMultipartUpload(uploadId);
      if !ok {
        return Err(StorageFailed), parts, peak;
      }
      assert open - {uploadId} == before;
      var failed, numbers, buffer;
      failed, numbers, buffer, parts, peak := PumpParts(tee, uploadId);
      if failed.None? {
        ok, parts := CompleteParts(key, uploadId, numbers, buffer, parts);
        failed := if ok then None else Some(StorageFailed);
      }
      if failed.Some? {
        AbortMultipartUpload(uploadId);
        return Err(failed.value), parts, peak;
      }
      r := Ok(());
    }
  }
}
