/**
 * The per-role `AudioBuffer` of the interpretation legs: an ordered list of
 * recorded chunks that is only ever appended to or cleared as a whole, and
 * materialised into one blob whose bytes are the chunks in order.
 */
module AudioBuffers {

  type Byte = x: int | 0 <= x < 256
  type Chunk = seq<Byte>

  datatype AudioBuffer = AudioBuffer(chunks: seq<Chunk>)

  /** A materialised blob: its bytes and its MIME type ("" when none is given). */
  datatype Blob = Blob(bytes: seq<Byte>, mime: string)

  const Empty: AudioBuffer := AudioBuffer([])

  /** The chunks' bytes concatenated, first chunk first. */
  function Flatten(cs: seq<Chunk>): seq<Byte>
  {
    if |cs| == 0 then [] else cs[0] + Flatten(cs[1..])
  }

  lemma {:induction false} FlattenAppend(cs: seq<Chunk>, c: Chunk)
    ensures Flatten(cs + [c]) == Flatten(cs) + c
  {
    if |cs| == 0 {
      assert cs + [c] == [c];
      assert Flatten([c]) == c + Flatten([]);
    } else {
      assert (cs + [c])[1..] == cs[1..] + [c];
      FlattenAppend(cs[1..], c);
    }
  }

  /** `addChunk`: the chunk goes after every chunk already held. */
  function AddChunk(b: AudioBuffer, c: Chunk): (r: AudioBuffer)
    ensures |r.chunks| == |b.chunks| + 1
    ensures r.chunks[..|b.chunks|] == b.chunks && r.chunks[|b.chunks|] == c
    ensures Flatten(r.chunks) == Flatten(b.chunks) + c
  {
    FlattenAppend(b.chunks, c);
    AudioBuffer(b.chunks + [c])
  }

  /** `clear`: every chunk is dropped at once. */
  function Clear(b: AudioBuffer): (r: AudioBuffer)
    ensures |r.chunks| == 0 && Flatten(r.chunks) == []
  {
    Empty
  }

  /** `getAudioBlob`: one blob holding every chunk, in insertion order. */
  function Materialize(b: AudioBuffer, mime: string): (r: Blob)
    ensures r.mime == mime
    ensures r.bytes == Flatten(b.chunks)
    ensures |b.chunks| == 0 ==> r.bytes == []
    ensures forall c :: c in b.chunks ==> |c| <= |r.bytes|
  {
    FlattenBounds(b.chunks);
    Blob(Flatten(b.chunks), mime)
  }

  lemma {:induction false} FlattenBounds(cs: seq<Chunk>)
    ensures forall c :: c in cs ==> |c| <= |Flatten(cs)|
  {
    if |cs| > 0 {
      FlattenBounds(cs[1..]);
      forall c | c in cs
        ensures |c| <= |Flatten(cs)|
      {
        if c != cs[0] {
          assert c in cs[1..];
        }
      }
    }
  }

  /**
   * The recorder's data callback: only chunks with a positive size are
   * added to the buffer.
   */
  function RecordChunk(b: AudioBuffer, c: Chunk): (r: AudioBuffer)
    ensures |c| > 0 ==> r == AddChunk(b, c)
    ensures |c| == 0 ==> r == b
    ensures Flatten(r.chunks) == Flatten(b.chunks) + c
  {
    if |c| > 0 then AddChunk(b, c) else b
  }

  /** The buffer after the recorder delivers `cs`, in order. */
  function RecordAll(b: AudioBuffer, cs: seq<Chunk>): AudioBuffer
    decreases |cs|
  {
    if |cs| == 0 then b else RecordAll(RecordChunk(b, cs[0]), cs[1..])
  }

  predicate NoEmptyChunk(b: AudioBuffer) {
    forall i :: 0 <= i < |b.chunks| ==> |b.chunks[i]| > 0
  }

  /**
   * Recording a stream of chunks into a buffer materialises to the buffer's
   * previous bytes followed by the stream's bytes, and never stores an empty
   * chunk.
   */
  lemma {:induction false} RecordAllContents(b: AudioBuffer, cs: seq<Chunk>)
    requires NoEmptyChunk(b)
    ensures Flatten(RecordAll(b, cs).chunks) == Flatten(b.chunks) + Flatten(cs)
    ensures NoEmptyChunk(RecordAll(b, cs))
    decreases |cs|
  {
    if |cs| > 0 {
      var b' := RecordChunk(b, cs[0]);
      assert NoEmptyChunk(b');
      RecordAllContents(b', cs[1..]);
      assert Flatten(cs) == cs[0] + Flatten(cs[1..]);
    }
  }

  /** Clearing after any recording leaves a buffer that materialises to an empty blob. */
  lemma ClearThenMaterialize(b: AudioBuffer, cs: seq<Chunk>, mime: string)
    ensures Materialize(Clear(RecordAll(b, cs)), mime) == Blob([], mime)
  {
  }
}
