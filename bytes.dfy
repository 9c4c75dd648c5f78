/** Bytes, fixed-width unsigned integers and the little-endian encoding that the
    packed on-disk records of the volume use for their multi-byte fields. */
module Bytes {

  /** One byte of the disk image or of a caller buffer. */
  type byte = b: int | 0 <= b < 256

  const U16_LIMIT: nat := 0x1_0000
  const U32_LIMIT: nat := 0x1_0000_0000

  predicate IsU16(v: int) { 0 <= v < U16_LIMIT }
  predicate IsU32(v: int) { 0 <= v < U32_LIMIT }

  /** A C cast to USHORT: keeps the low 16 bits (two's complement for negative values). */
  function ToU16(v: int): (r: int)
    ensures IsU16(r)
    ensures IsU16(v) ==> r == v
    ensures (v - r) % U16_LIMIT == 0
  {
    v % U16_LIMIT
  }

  /** A C cast to ULONG, or the LowPart of a LARGE_INTEGER: keeps the low 32 bits. */
  function ToU32(v: int): (r: int)
    ensures IsU32(r)
    ensures IsU32(v) ==> r == v
    ensures (v - r) % U32_LIMIT == 0
  {
    v % U32_LIMIT
  }

  /** The two bytes of a 16-bit field, least significant first. */
  function Le16(v: int): (r: seq<byte>)
    requires IsU16(v)
    ensures |r| == 2
  {
    [v % 256, v / 256]
  }

  /** The four bytes of a 32-bit field, least significant first. */
  function Le32(v: int): (r: seq<byte>)
    requires IsU32(v)
    ensures |r| == 4
  {
    [v % 256, (v / 0x100) % 256, (v / 0x1_0000) % 256, v / 0x100_0000]
  }

  /** Reads the 16-bit little-endian field that starts at `off`. */
  function Get16(s: seq<byte>, off: nat): (v: int)
    requires off + 2 <= |s|
    ensures IsU16(v)
  {
    s[off] as int + 256 * s[off + 1] as int
  }

  /** Reads the 32-bit little-endian field that starts at `off`. */
  function Get32(s: seq<byte>, off: nat): (v: int)
    requires off + 4 <= |s|
    ensures IsU32(v)
  {
    s[off] as int + 0x100 * s[off + 1] as int + 0x1_0000 * s[off + 2] as int + 0x100_0000 * s[off + 3] as int
  }

  /** Decoding a 16-bit field gives back the value that was encoded. */
  lemma Get16Le16(v: int)
    requires IsU16(v)
    ensures Get16(Le16(v), 0) == v
  {
  }

  /** Encoding the value read from two bytes gives back those bytes. */
  lemma Le16Get16(s: seq<byte>, off: nat)
    requires off + 2 <= |s|
    ensures Le16(Get16(s, off)) == s[off..off + 2]
  {
    var v := Get16(s, off);
    assert v % 256 == s[off] && v / 256 == s[off + 1];
  }

  /** Decoding a 32-bit field gives back the value that was encoded. */
  lemma Get32Le32(v: int)
    requires IsU32(v)
    ensures Get32(Le32(v), 0) == v
  {
    var b0, b1, b2, b3 := v % 256, (v / 0x100) % 256, (v / 0x1_0000) % 256, v / 0x100_0000;
    assert v / 0x100 == b1 + 0x100 * ((v / 0x100) / 0x100);
    assert (v / 0x100) / 0x100 == v / 0x1_0000;
    assert v / 0x1_0000 == b2 + 0x100 * ((v / 0x1_0000) / 0x100);
    assert (v / 0x1_0000) / 0x100 == v / 0x100_0000;
  }

  /** Encoding the value read from four bytes gives back those bytes. */
  lemma Le32Get32(s: seq<byte>, off: nat)
    requires off + 4 <= |s|
    ensures Le32(Get32(s, off)) == s[off..off + 4]
  {
    var v := Get32(s, off);
    var b0, b1, b2, b3 := s[off] as int, s[off + 1] as int, s[off + 2] as int, s[off + 3] as int;
    assert v == b0 + 0x100 * (b1 + 0x100 * (b2 + 0x100 * b3));
    assert v % 256 == b0 && v / 0x100 == b1 + 0x100 * (b2 + 0x100 * b3);
    assert v / 0x1_0000 == (v / 0x100) / 0x100 == b2 + 0x100 * b3;
    assert v / 0x100_0000 == (v / 0x1_0000) / 0x100 == b3;
  }

  /** Stores a 16-bit field at `off`, least significant byte first, and nothing else. */
  method Put16(a: array<byte>, off: nat, v: int)
    requires IsU16(v) && off + 2 <= a.Length
    modifies a
    ensures forall i :: 0 <= i < a.Length ==>
      a[i] == (if off <= i < off + 2 then Le16(v)[i - off] else old(a[i]))
  {
    a[off] := v % 256;
    a[off + 1] := v / 256;
  }

  /** Stores a 32-bit field at `off`, least significant byte first, and nothing else. */
  method Put32(a: array<byte>, off: nat, v: int)
    requires IsU32(v) && off + 4 <= a.Length
    modifies a
    ensures forall i :: 0 <= i < a.Length ==>
      a[i] == (if off <= i < off + 4 then Le32(v)[i - off] else old(a[i]))
  {
    a[off] := v % 256;
    a[off + 1] := (v / 0x100) % 256;
    a[off + 2] := (v / 0x1_0000) % 256;
    a[off + 3] := v / 0x100_0000;
  }
}
