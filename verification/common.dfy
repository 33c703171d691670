/** Small value types shared by every module of the model. */
module Common {

  datatype Option<T> = None | Some(value: T)

  datatype Result<T, E> = Ok(value: T) | Err(error: E)

  /** One octet of a raw PCM byte stream. */
  type byte = x: int | 0 <= x < 256

  const Int16Min: int := -32768
  const Int16Max: int := 32767

  /** The signed 16-bit little-endian value stored in the octets `lo`, `hi`. */
  function Int16(lo: byte, hi: byte): (v: int)
    ensures Int16Min <= v <= Int16Max
    ensures (v + 65536) % 65536 == lo + 256 * hi
  {
    var u := lo + 256 * hi;
    if u >= 32768 then u - 65536 else u
  }

  /**
   * The samples that `np.frombuffer(bytes, dtype=np.int16)` reads from a
   * byte string of even length (the little-endian layout of the host).
   */
  function DecodePcm16(b: seq<byte>): (s: seq<int>)
    requires |b| % 2 == 0
    ensures |s| == |b| / 2
    ensures forall k :: 0 <= k < |s| ==> s[k] == Int16(b[2 * k], b[2 * k + 1])
    decreases |b|
  {
    if b == [] then [] else [Int16(b[0], b[1])] + DecodePcm16(b[2..])
  }

  /** Decoding commutes with concatenation of whole-sample byte strings. */
  lemma {:induction false} DecodeAppend(a: seq<byte>, b: seq<byte>)
    requires |a| % 2 == 0 && |b| % 2 == 0
    ensures DecodePcm16(a + b) == DecodePcm16(a) + DecodePcm16(b)
    decreases |a|
  {
    if a != [] {
      assert (a + b)[2..] == a[2..] + b;
      DecodeAppend(a[2..], b);
    } else {
      assert a + b == b;
    }
  }
}
