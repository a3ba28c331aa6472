/** Bytes, shared by the relayed HTTP chunks and the browser's `Uint8Array`s. */
module ByteSeq {

  type byte = b: int | 0 <= b < 256

  type Bytes = seq<byte>
}
