/** Bytes on the wire. */
module Streams {
  type Byte = b: int | 0 <= b < 256

  lemma Reassociate<T>(a: seq<T>, b: seq<T>, c: seq<T>)
    ensures a + (b + c) == a + b + c
  {
  }
}
