/** Audio samples, as exact reals, and the fixed-size chunks the microphone delivers. */
module Audio {
  type Sample = real

  const CHUNK_SAMPLES: nat := 512

  type Chunk = c: seq<Sample> | |c| == CHUNK_SAMPLES witness seq(CHUNK_SAMPLES, _ => 0.0)

  function Flatten(blocks: seq<seq<Sample>>): seq<Sample> {
    if blocks == [] then [] else Flatten(blocks[..|blocks| - 1]) + blocks[|blocks| - 1]
  }

  lemma {:induction false} FlattenLength(chunks: seq<Chunk>)
    ensures |Flatten(chunks)| == |chunks| * CHUNK_SAMPLES
  {
    if chunks != [] {
      FlattenLength(chunks[..|chunks| - 1]);
    }
  }
}
