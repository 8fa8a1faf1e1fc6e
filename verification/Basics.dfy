/** Vocabulary shared by every other module: optional values and byte strings. */
module Basics {

  datatype Option<+T> = None | Some(value: T)

  newtype byte = x: int | 0 <= x < 256

  type Bytes = seq<byte>

  /** The part of `data` a read of at most `n` bytes returns from offset `at`; empty at end of file. */
  function Slice(data: Bytes, at: nat, n: nat): (r: Bytes)
    ensures at <= |data| ==> data[..at] + r <= data
    ensures at <= |data| && n > 0 ==> (r == [] <==> at == |data|)
  {
    if at >= |data| then []
    else if at + n <= |data| then data[at..at + n]
    else data[at..]
  }

  /** The effect on a file of writing `chunk` at offset `at`; a gap is filled with zero bytes. */
  function Overwrite(data: Bytes, at: nat, chunk: Bytes): Bytes
  {
    if chunk == [] then data
    else if at > |data| then data + seq(at - |data|, i => 0) + chunk
    else if at + |chunk| >= |data| then data[..at] + chunk
    else data[..at] + chunk + data[at + |chunk|..]
  }

  /** Byte by byte: the chunk where it was written, what was there elsewhere, zero in a gap. */
  lemma OverwriteAt(data: Bytes, at: nat, chunk: Bytes, i: nat)
    ensures |Overwrite(data, at, chunk)| == if chunk != [] && |data| < at + |chunk| then at + |chunk| else |data|
    ensures i < |Overwrite(data, at, chunk)| ==>
      Overwrite(data, at, chunk)[i] ==
        if at <= i < at + |chunk| then chunk[i - at] else if i < |data| then data[i] else 0
  {
  }
}
