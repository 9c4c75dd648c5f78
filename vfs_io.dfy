/** The read and write handlers the worker dispatches to: each copies `Length`
    bytes between the image (at the low 32 bits of the byte offset) and the
    caller's buffer, reports `Length` as the information count and completes the
    request. Neither checks the range; the caller must keep it inside the image. */
module VfsIo {
  import opened Bytes
  import opened VolumeState

  /** `s` with the bytes from `off` on replaced by `t`. */
  function Overwrite(s: seq<byte>, off: nat, t: seq<byte>): (r: seq<byte>)
    requires off + |t| <= |s|
    ensures |r| == |s|
    ensures r[off..off + |t|] == t
    ensures forall i :: 0 <= i < |s| && !(off <= i < off + |t|) ==> r[i] == s[i]
  {
    s[..off] + t + s[off + |t|..]
  }

  /** Overwriting a range with what it already holds changes nothing. */
  lemma OverwriteWithOwnBytes(s: seq<byte>, off: nat, len: nat)
    requires off + len <= |s|
    ensures Overwrite(s, off, s[off..off + len]) == s
  {
    var r := Overwrite(s, off, s[off..off + len]);
    forall i | 0 <= i < |s| ensures r[i] == s[i] {
      if off <= i < off + len {
        assert r[i] == r[off..off + len][i - off];
      }
    }
  }

  /** A second overwrite of the same range hides the first. */
  lemma OverwriteTwice(s: seq<byte>, off: nat, t: seq<byte>, u: seq<byte>)
    requires off + |t| <= |s| && |u| == |t|
    ensures Overwrite(Overwrite(s, off, t), off, u) == Overwrite(s, off, u)
  {
    var a, b := Overwrite(Overwrite(s, off, t), off, u), Overwrite(s, off, u);
    forall i | 0 <= i < |s| ensures a[i] == b[i] {
      if off <= i < off + |u| {
        assert a[i] == a[off..off + |u|][i - off] && b[i] == b[off..off + |u|][i - off];
      }
    }
  }

  /** Overwrites of disjoint ranges commute. */
  lemma OverwriteDisjointCommute(s: seq<byte>, off1: nat, t1: seq<byte>, off2: nat, t2: seq<byte>)
    requires off1 + |t1| <= |s| && off2 + |t2| <= |s|
    requires off1 + |t1| <= off2 || off2 + |t2| <= off1
    ensures Overwrite(Overwrite(s, off1, t1), off2, t2) == Overwrite(Overwrite(s, off2, t2), off1, t1)
  {
    var a, b := Overwrite(Overwrite(s, off1, t1), off2, t2), Overwrite(Overwrite(s, off2, t2), off1, t1);
    forall i | 0 <= i < |s| ensures a[i] == b[i] {
      var x1, x2 := Overwrite(s, off1, t1), Overwrite(s, off2, t2);
      if off1 <= i < off1 + |t1| {
        assert x1[i] == x1[off1..off1 + |t1|][i - off1] && b[i] == b[off1..off1 + |t1|][i - off1];
      } else if off2 <= i < off2 + |t2| {
        assert x2[i] == x2[off2..off2 + |t2|][i - off2] && a[i] == a[off2..off2 + |t2|][i - off2];
      }
    }
  }

  /** RtlCopyBytes: `n` bytes from `src` at `srcOff` to `dst` at `dstOff`; the two
      arrays are different objects. */
  method CopyBytes(dst: array<byte>, dstOff: nat, src: array<byte>, srcOff: nat, n: nat)
    requires dstOff + n <= dst.Length && srcOff + n <= src.Length && dst != src
    modifies dst
    ensures dst[..] == Overwrite(old(dst[..]), dstOff, src[srcOff..srcOff + n])
  {
    ghost var before := dst[..];
    forall i | dstOff <= i < dstOff + n {
      dst[i] := src[srcOff + (i - dstOff)];
    }
    ghost var expected := Overwrite(before, dstOff, src[srcOff..srcOff + n]);
    forall i | 0 <= i < dst.Length ensures dst[i] == expected[i] {
      if dstOff <= i < dstOff + n {
        assert expected[i] == expected[dstOff..dstOff + n][i - dstOff];
      }
    }
    assert dst[..] == expected;
  }

  /** The image range a request names. */
  function RequestRange(image: seq<byte>, byteOffset: int, length: nat): (data: seq<byte>)
    requires LowOffset(byteOffset) + length <= |image|
    ensures |data| == length
    ensures forall k :: 0 <= k < length ==> data[k] == image[LowOffset(byteOffset) + k]
  {
    image[LowOffset(byteOffset)..LowOffset(byteOffset) + length]
  }

  /** Offsets that agree in their low 32 bits name the same bytes; the high part of
      ByteOffset is ignored, and a negative offset wraps to the top of the range. */
  lemma HighOffsetBitsIgnored(byteOffset: int, k: int)
    ensures LowOffset(byteOffset + k * U32_LIMIT) == LowOffset(byteOffset)
    ensures byteOffset < 0 && 0 <= byteOffset + U32_LIMIT ==> LowOffset(byteOffset) == byteOffset + U32_LIMIT
  {
    var lo := LowOffset(byteOffset);
    assert (byteOffset + k * U32_LIMIT - lo) % U32_LIMIT == 0 by {
      assert byteOffset - lo == U32_LIMIT * ((byteOffset - lo) / U32_LIMIT);
      assert byteOffset + k * U32_LIMIT - lo == U32_LIMIT * ((byteOffset - lo) / U32_LIMIT + k);
    }
  }

  /** IRP_MJ_READ: the image bytes of the request land at the start of the caller's
      buffer; the rest of the buffer and the image are untouched. */
  method VfsRead(v: Volume, r: IoRequest) returns (status: Status)
    requires v.Serviceable(r)
    modifies r.buffer, r`information, r`completed
    ensures r.buffer[..] == Overwrite(old(r.buffer[..]), 0, RequestRange(v.image[..], r.byteOffset, r.length))
    ensures r.information == r.length && r.completed && r.status == old(r.status)
    ensures status == Success
  {
    var src := LowOffset(r.byteOffset);
    CopyBytes(r.buffer, 0, v.image, src, r.length);
    r.information := r.length;
    r.completed := true;
    status := Success;
  }

  /** IRP_MJ_WRITE: the first `Length` bytes of the caller's buffer replace the image
      bytes of the request; nothing else in the image changes. The information count
      is read through the read parameters, which share the length slot. */
  method VfsWrite(v: Volume, r: IoRequest) returns (status: Status)
    requires v.Serviceable(r)
    modifies v.image, r`information, r`completed
    ensures v.image[..] == Overwrite(old(v.image[..]), LowOffset(r.byteOffset), r.buffer[..r.length])
    ensures r.information == r.length && r.completed && r.status == old(r.status)
    ensures status == Success
  {
    var dst := LowOffset(r.byteOffset);
    CopyBytes(v.image, dst, r.buffer, 0, r.length);
    r.information := r.length;
    r.completed := true;
    status := Success;
  }

  /** Reading back a range just written returns the written bytes; the rest of the
      reader's buffer keeps its contents. */
  lemma WriteThenReadReturnsData(image: seq<byte>, byteOffset: int, data: seq<byte>, buffer: seq<byte>)
    requires LowOffset(byteOffset) + |data| <= |image| && |data| <= |buffer|
    ensures var written := Overwrite(image, LowOffset(byteOffset), data);
      var read := Overwrite(buffer, 0, RequestRange(written, byteOffset, |data|));
      read[..|data|] == data && read[|data|..] == buffer[|data|..]
  {
    var written := Overwrite(image, LowOffset(byteOffset), data);
    var read := Overwrite(buffer, 0, RequestRange(written, byteOffset, |data|));
    assert read[..|data|] == read[0..|data|];
    assert RequestRange(written, byteOffset, |data|) == written[LowOffset(byteOffset)..LowOffset(byteOffset) + |data|];
    assert read[|data|..] == buffer[|data|..] by {
      forall k | 0 <= k < |buffer| - |data| ensures read[|data|..][k] == buffer[|data|..][k] {
        assert read[|data| + k] == buffer[|data| + k];
      }
    }
  }

  /** Writing back the bytes just read leaves the image as it was. */
  lemma ReadThenWriteBackIsIdentity(image: seq<byte>, byteOffset: int, length: nat, buffer: seq<byte>)
    requires LowOffset(byteOffset) + length <= |image| && length <= |buffer|
    ensures var read := Overwrite(buffer, 0, RequestRange(image, byteOffset, length));
      Overwrite(image, LowOffset(byteOffset), read[..length]) == image
  {
    var read := Overwrite(buffer, 0, RequestRange(image, byteOffset, length));
    assert read[..length] == read[0..length];
    OverwriteWithOwnBytes(image, LowOffset(byteOffset), length);
  }
}
