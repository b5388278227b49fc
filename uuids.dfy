/** Bytes, Java's 64-bit `long`, and the 16-byte big-endian form of a UUID that
    `uuidToBytes` writes through a `ByteBuffer`. */
module Uuids {

  /** One octet as the bit pattern Java's signed `byte` carries. */
  newtype byte = x: int | 0 <= x < 256

  type Bytes = seq<byte>

  const TWO_TO_64: nat := 0x1_0000_0000_0000_0000

  /** Java's `long`: a signed two's-complement 64-bit integer. */
  newtype int64 = x: int | -0x8000_0000_0000_0000 <= x < 0x8000_0000_0000_0000

  /** A parsed `java.util.UUID`: its most and least significant 64 bits. */
  datatype Uuid = Uuid(mostSigBits: int64, leastSigBits: int64)

  function Pow256(width: nat): (r: nat)
    ensures r > 0
  {
    if width == 0 then 1 else 256 * Pow256(width - 1)
  }

  /** The bit pattern of a `long`, read as an unsigned number. */
  function Unsigned64(x: int64): (n: nat)
    ensures n < TWO_TO_64
    ensures x >= 0 ==> n == x as int
  {
    if x < 0 then x as int + TWO_TO_64 else x as int
  }

  /** The `long` whose bit pattern is `n`. */
  function Signed64(n: nat): (x: int64)
    requires n < TWO_TO_64
    ensures Unsigned64(x) == n
  {
    if n < 0x8000_0000_0000_0000 then n as int64 else (n - TWO_TO_64) as int64
  }

  /** `n` written as `width` octets, most significant first. */
  function BigEndian(n: nat, width: nat): (r: Bytes)
    ensures |r| == width
  {
    if width == 0 then [] else BigEndian(n / 256, width - 1) + [(n % 256) as byte]
  }

  /** The number that the octets `s` denote, most significant first. */
  function FromBigEndian(s: Bytes): (n: nat)
    ensures n < Pow256(|s|)
  {
    if s == [] then 0 else FromBigEndian(s[..|s| - 1]) * 256 + s[|s| - 1] as int
  }

  /** Reading back a big-endian encoding gives the number written, as long as it fits. */
  lemma {:induction false} FromBigEndianOfBigEndian(n: nat, width: nat)
    requires n < Pow256(width)
    ensures FromBigEndian(BigEndian(n, width)) == n
  {
    if width > 0 {
      var s := BigEndian(n, width);
      assert s[..|s| - 1] == BigEndian(n / 256, width - 1);
      assert n / 256 < Pow256(width - 1);
      FromBigEndianOfBigEndian(n / 256, width - 1);
    }
  }

  lemma TwoToSixtyFour()
    ensures Pow256(8) == TWO_TO_64
  {
  }

  /** The UUID whose two halves are the first and the last eight octets of `b`. */
  function UuidFromBytes(b: Bytes): (u: Uuid)
    requires |b| == 16
  {
    TwoToSixtyFour();
    Uuid(Signed64(FromBigEndian(b[..8])), Signed64(FromBigEndian(b[8..])))
  }

  /** `ByteBuffer.putLong`: writes the eight octets of `x`, most significant
      first, at `offset`, and leaves every other slot alone. */
  method PutLong(buffer: array<byte>, offset: nat, x: int64)
    requires offset + 8 <= buffer.Length
    modifies buffer
    ensures buffer[offset..offset + 8] == BigEndian(Unsigned64(x), 8)
    ensures forall k :: 0 <= k < buffer.Length && !(offset <= k < offset + 8) ==> buffer[k] == old(buffer[k])
  {
    var n := Unsigned64(x);
    var i := 8;
    while i > 0
      invariant 0 <= i <= 8
      invariant BigEndian(Unsigned64(x), 8) == BigEndian(n, i) + buffer[offset + i..offset + 8]
      invariant forall k :: 0 <= k < buffer.Length && !(offset + i <= k < offset + 8) ==> buffer[k] == old(buffer[k])
    {
      i := i - 1;
      ghost var rest := buffer[offset + i + 1..offset + 8];
      buffer[offset + i] := (n % 256) as byte;
      assert buffer[offset + i..offset + 8] == [(n % 256) as byte] + rest;
      n := n / 256;
    }
  }

  /** `uuidToBytes`: a 16-octet buffer holding the most significant half of
      `u` and then the least significant half, each big-endian. Decoding the
      result gives `u` back. */
  method UuidToBytes(u: Uuid) returns (bytes: Bytes)
    ensures |bytes| == 16
    ensures bytes == BigEndian(Unsigned64(u.mostSigBits), 8) + BigEndian(Unsigned64(u.leastSigBits), 8)
    ensures UuidFromBytes(bytes) == u
  {
    var buffer := new byte[16];
    PutLong(buffer, 0, u.mostSigBits);
    PutLong(buffer, 8, u.leastSigBits);
    bytes := buffer[..];
    assert bytes[..8] == buffer[0..8];
    assert bytes[8..] == buffer[8..16];
    TwoToSixtyFour();
    FromBigEndianOfBigEndian(Unsigned64(u.mostSigBits), 8);
    FromBigEndianOfBigEndian(Unsigned64(u.leastSigBits), 8);
  }

  /** Distinct UUIDs never share a byte form. */
  lemma UuidBytesInjective(u: Uuid, v: Uuid)
    ensures BigEndian(Unsigned64(u.mostSigBits), 8) + BigEndian(Unsigned64(u.leastSigBits), 8)
            == BigEndian(Unsigned64(v.mostSigBits), 8) + BigEndian(Unsigned64(v.leastSigBits), 8)
            ==> u == v
  {
    var bu := BigEndian(Unsigned64(u.mostSigBits), 8) + BigEndian(Unsigned64(u.leastSigBits), 8);
    var bv := BigEndian(Unsigned64(v.mostSigBits), 8) + BigEndian(Unsigned64(v.leastSigBits), 8);
    if bu == bv {
      TwoToSixtyFour();
      assert bu[..8] == BigEndian(Unsigned64(u.mostSigBits), 8);
      assert bu[8..] == BigEndian(Unsigned64(u.leastSigBits), 8);
      assert bv[..8] == BigEndian(Unsigned64(v.mostSigBits), 8);
      assert bv[8..] == BigEndian(Unsigned64(v.leastSigBits), 8);
      FromBigEndianOfBigEndian(Unsigned64(u.mostSigBits), 8);
      FromBigEndianOfBigEndian(Unsigned64(u.leastSigBits), 8);
      FromBigEndianOfBigEndian(Unsigned64(v.mostSigBits), 8);
      FromBigEndianOfBigEndian(Unsigned64(v.leastSigBits), 8);
      assert Signed64(Unsigned64(u.mostSigBits)) == u.mostSigBits;
    }
  }
}
