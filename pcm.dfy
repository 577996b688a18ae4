/**
 * 16-bit little-endian PCM samples, as both level meters read them from a
 * capture buffer: `BitConverter.ToInt16(buffer, i)` on a little-endian machine
 * and `(short)((buffer[i + 1] << 8) | buffer[i])` denote the same value.
 */
module Pcm {

  newtype byte = x: int | 0 <= x < 256

  /** The signed 16-bit sample stored low byte first at `buffer[i]`, `buffer[i + 1]`. */
  function Int16At(buffer: seq<byte>, i: nat): (s: int)
    requires i + 2 <= |buffer|
    ensures -32768 <= s <= 32767
    ensures s < 0 <==> buffer[i + 1] >= 128
    ensures s % 256 == buffer[i] as int
  {
    var u := buffer[i + 1] as int * 256 + buffer[i] as int;
    if u >= 32768 then u - 65536 else u
  }

  /** The two bytes that store `s` low byte first (two's complement). */
  function Int16Bytes(s: int): (b: seq<byte>)
    requires -32768 <= s <= 32767
    ensures |b| == 2
  {
    var u := if s < 0 then s + 65536 else s;
    [(u % 256) as byte, (u / 256) as byte]
  }

  /** Encoding a sample and decoding it again gives the sample back. */
  lemma DecodeEncode(s: int)
    requires -32768 <= s <= 32767
    ensures Int16At(Int16Bytes(s), 0) == s
  {
    var u := if s < 0 then s + 65536 else s;
    assert u == (u / 256) * 256 + u % 256;
  }

  /** Decoding two bytes and encoding the sample again gives the bytes back. */
  lemma EncodeDecode(b: seq<byte>)
    requires |b| == 2
    ensures Int16Bytes(Int16At(b, 0)) == b
  {
    var u := b[1] as int * 256 + b[0] as int;
    assert u % 256 == b[0] as int && u / 256 == b[1] as int;
  }

  /** Sample j of the buffer (bytes 2j and 2j + 1). */
  function SampleAt(buffer: seq<byte>, j: nat): int
    requires 2 * j + 2 <= |buffer|
  {
    Int16At(buffer, 2 * j)
  }

  /** How many samples the loop `for (i = 0; i < n; i += 2)` reads. */
  function SampleCount(n: nat): nat
  {
    (n + 1) / 2
  }

  /** Every sample such a loop reads lies inside the buffer. */
  predicate Fits(buffer: seq<byte>, n: nat)
  {
    2 * SampleCount(n) <= |buffer|
  }

  /** The magnitude of a sample, computed in `int` (no 16-bit overflow). */
  function Abs(s: int): (r: nat)
    ensures r == s || r == -s
  {
    if s < 0 then -s else s
  }
}
