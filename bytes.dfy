/** The target's native byte layout. The devices copy integers into the
    caller's buffer with `memcpy`; on the little-endian targets this model
    assumes, an n-byte integer appears least significant byte first. Bytes
    are `uint8` values, as the buffer's `uint8_t` elements are. */
module Bytes {
  import opened MatterTypes

  /** 256 to the power n: one more than the largest n-byte value. */
  function Pow256(n: nat): nat {
    if n == 0 then 1 else 256 * Pow256(n - 1)
  }

  /** The low n bytes of `x`, least significant first. */
  function EncodeLE(x: nat, n: nat): (r: seq<uint8>)
    ensures |r| == n
  {
    if n == 0 then [] else [x % 256] + EncodeLE(x / 256, n - 1)
  }

  /** The unsigned integer whose little-endian bytes are `bs`. */
  function DecodeLE(bs: seq<uint8>): nat {
    if bs == [] then 0 else bs[0] + 256 * DecodeLE(bs[1..])
  }

  /** The ranges of 16- and 32-bit values. */
  lemma Pow256Widths()
    ensures Pow256(2) == 0x1_0000 && Pow256(4) == 0x1_0000_0000
  {
  }

  /** n bytes hold exactly the values below 256^n. */
  lemma {:induction false} DecodeBound(bs: seq<uint8>)
    ensures DecodeLE(bs) < Pow256(|bs|)
  {
    if bs != [] {
      DecodeBound(bs[1..]);
    }
  }

  /** Decoding what was encoded gives the value back, for every value that
      fits in n bytes. */
  lemma {:induction false} DecodeEncode(x: nat, n: nat)
    requires x < Pow256(n)
    ensures DecodeLE(EncodeLE(x, n)) == x
  {
    if n > 0 {
      var r := EncodeLE(x, n);
      DecodeEncode(x / 256, n - 1);
      assert r[1..] == EncodeLE(x / 256, n - 1);
    }
  }

  /** Encoding what was decoded gives the bytes back, so the two are
      inverse bijections between n-byte sequences and [0, 256^n). */
  lemma {:induction false} EncodeDecode(bs: seq<uint8>)
    ensures EncodeLE(DecodeLE(bs), |bs|) == bs
  {
    if bs != [] {
      EncodeDecode(bs[1..]);
      assert bs == [bs[0]] + bs[1..];
    }
  }

  /** Equal encodings come from equal values. */
  lemma EncodeInjective(x: nat, y: nat, n: nat)
    requires x < Pow256(n) && y < Pow256(n)
    requires EncodeLE(x, n) == EncodeLE(y, n)
    ensures x == y
  {
    DecodeEncode(x, n);
    DecodeEncode(y, n);
  }

  /** `memcpy(dst, src, |src|)`: the first |src| bytes of `dst` become `src`,
      the rest are untouched. */
  method Memcpy(dst: array<uint8>, src: seq<uint8>)
    requires |src| <= dst.Length
    modifies dst
    ensures dst[..] == src + old(dst[..])[|src|..]
  {
    for i := 0 to |src|
      invariant forall k :: 0 <= k < i ==> dst[k] == src[k]
      invariant forall k :: i <= k < dst.Length ==> dst[k] == old(dst[k])
    {
      dst[i] := src[i];
    }
  }
}
