/** Bytes, and hashes of bytes. A hash is the digest of exactly one byte string. */
module ByteStrings {
  newtype Byte = x: int | 0 <= x < 256

  type Bytes = seq<Byte>

  /** A stored hash: the digest of some bytes, or text that is no digest at all. */
  datatype Digest = Sha256(preimage: Bytes) | NotAHash(text: string)
}
