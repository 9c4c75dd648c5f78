/** The packed on-disk records of the FAT16 volume: the boot sector with its BIOS
    Parameter Block, and the directory entry. Each record is given by its field
    offsets and an explicit little-endian encoder, together with the decoder that
    reads the fields back. The layout follows the "Boot Sector and BPB" and "FAT
    Directory Structure" sections of Microsoft's FAT File System Specification. */
module FatLayout {
  import opened Bytes

  const SECTOR_SIZE: nat := 512
  const RAMDISK_MEDIA_TYPE: byte := 0xF8
  const DIR_ENTRIES_PER_SECTOR: nat := 16

  // Directory entry attribute bits.
  const DIR_ATTR_READONLY: byte := 0x01
  const DIR_ATTR_HIDDEN: byte := 0x02
  const DIR_ATTR_SYSTEM: byte := 0x04
  const DIR_ATTR_VOLUME: byte := 0x08
  const DIR_ATTR_DIRECTORY: byte := 0x10
  const DIR_ATTR_ARCHIVE: byte := 0x20

  // Byte offsets of the fields of the packed boot sector.
  const OFF_JUMP: nat := 0
  const OFF_OEM_NAME: nat := 3
  const OFF_BYTES_PER_SEC: nat := 11
  const OFF_SEC_PER_CLUS: nat := 13
  const OFF_RES_SECTORS: nat := 14
  const OFF_FATS: nat := 16
  const OFF_ROOT_DIR_ENTS: nat := 17
  const OFF_SECTORS: nat := 19
  const OFF_MEDIA: nat := 21
  const OFF_FAT_SECS: nat := 22
  const OFF_SEC_PER_TRACK: nat := 24
  const OFF_HEADS: nat := 26
  const OFF_HIDDEN_SECS: nat := 28
  const OFF_HUGE_SECTORS: nat := 32
  const OFF_DRIVE_NUMBER: nat := 36
  const OFF_RESERVED1: nat := 37
  const OFF_BOOT_SIGNATURE: nat := 38
  const OFF_VOLUME_ID: nat := 39
  const OFF_LABEL: nat := 43
  const OFF_FILE_SYSTEM_TYPE: nat := 54
  const OFF_RESERVED2: nat := 62
  const OFF_SIG2: nat := 510

  /** The fields of the FAT16 boot sector. Multi-byte numbers are held as
      integers; character and reserved arrays as byte sequences. */
  datatype BootSector = BootSector(
    jump: seq<byte>,
    oemName: seq<byte>,
    bytesPerSec: int,
    secPerClus: byte,
    resSectors: int,
    fats: byte,
    rootDirEnts: int,
    sectors: int,
    media: byte,
    fatSecs: int,
    secPerTrack: int,
    heads: int,
    hiddenSecs: int,
    hugeSectors: int,
    driveNumber: byte,
    reserved1: byte,
    bootSignature: byte,
    volumeId: int,
    volumeLabel: seq<byte>,
    fileSystemType: seq<byte>,
    reserved2: seq<byte>,
    sig2: seq<byte>)
  {
    /** Every field fits its declared width. */
    predicate WellFormed() {
      |jump| == 3 && |oemName| == 8 && IsU16(bytesPerSec) && IsU16(resSectors)
      && IsU16(rootDirEnts) && IsU16(sectors) && IsU16(fatSecs) && IsU16(secPerTrack)
      && IsU16(heads) && IsU32(hiddenSecs) && IsU32(hugeSectors) && IsU32(volumeId)
      && |volumeLabel| == 11 && |fileSystemType| == 8 && |reserved2| == 448 && |sig2| == 2
    }
  }

  /** The 25 bytes of the BIOS parameter block, from bytes-per-sector to huge-sectors. */
  function BiosParameterBlock(b: BootSector): (s: seq<byte>)
    requires b.WellFormed()
    ensures |s| == OFF_DRIVE_NUMBER - OFF_BYTES_PER_SEC
  {
    Le16(b.bytesPerSec) + [b.secPerClus] + Le16(b.resSectors) + [b.fats] + Le16(b.rootDirEnts)
    + Le16(b.sectors) + [b.media] + Le16(b.fatSecs) + Le16(b.secPerTrack) + Le16(b.heads)
    + Le32(b.hiddenSecs) + Le32(b.hugeSectors)
  }

  /** The 26 bytes of the extended block, from drive number to file-system type. */
  function ExtendedBlock(b: BootSector): (s: seq<byte>)
    requires b.WellFormed()
    ensures |s| == OFF_RESERVED2 - OFF_DRIVE_NUMBER
  {
    [b.driveNumber] + [b.reserved1] + [b.bootSignature] + Le32(b.volumeId) + b.volumeLabel
    + b.fileSystemType
  }

  /** The 512 bytes of a boot sector, fields in declaration order. */
  function EncodeBootSector(b: BootSector): (s: seq<byte>)
    requires b.WellFormed()
    ensures |s| == SECTOR_SIZE
  {
    b.jump + b.oemName + BiosParameterBlock(b) + ExtendedBlock(b) + b.reserved2 + b.sig2
  }

  /** Reads every field of a boot sector from its offset. */
  function DecodeBootSector(s: seq<byte>): (b: BootSector)
    requires |s| == SECTOR_SIZE
    ensures b.WellFormed()
  {
    BootSector(
      s[OFF_JUMP..OFF_OEM_NAME], s[OFF_OEM_NAME..OFF_BYTES_PER_SEC], Get16(s, OFF_BYTES_PER_SEC),
      s[OFF_SEC_PER_CLUS], Get16(s, OFF_RES_SECTORS), s[OFF_FATS], Get16(s, OFF_ROOT_DIR_ENTS),
      Get16(s, OFF_SECTORS), s[OFF_MEDIA], Get16(s, OFF_FAT_SECS), Get16(s, OFF_SEC_PER_TRACK),
      Get16(s, OFF_HEADS), Get32(s, OFF_HIDDEN_SECS), Get32(s, OFF_HUGE_SECTORS),
      s[OFF_DRIVE_NUMBER], s[OFF_RESERVED1], s[OFF_BOOT_SIGNATURE], Get32(s, OFF_VOLUME_ID),
      s[OFF_LABEL..OFF_FILE_SYSTEM_TYPE], s[OFF_FILE_SYSTEM_TYPE..OFF_RESERVED2],
      s[OFF_RESERVED2..OFF_SIG2], s[OFF_SIG2..SECTOR_SIZE])
  }

  /** Each field of an encoded boot sector sits at its declared offset. */
  lemma EncodedFieldsAtOffsets(b: BootSector)
    requires b.WellFormed()
    ensures var s := EncodeBootSector(b);
      s[OFF_JUMP..OFF_OEM_NAME] == b.jump && s[OFF_OEM_NAME..OFF_BYTES_PER_SEC] == b.oemName
      && s[OFF_BYTES_PER_SEC..OFF_SEC_PER_CLUS] == Le16(b.bytesPerSec)
      && s[OFF_SEC_PER_CLUS] == b.secPerClus
      && s[OFF_RES_SECTORS..OFF_FATS] == Le16(b.resSectors) && s[OFF_FATS] == b.fats
      && s[OFF_ROOT_DIR_ENTS..OFF_SECTORS] == Le16(b.rootDirEnts)
      && s[OFF_SECTORS..OFF_MEDIA] == Le16(b.sectors) && s[OFF_MEDIA] == b.media
      && s[OFF_FAT_SECS..OFF_SEC_PER_TRACK] == Le16(b.fatSecs)
      && s[OFF_SEC_PER_TRACK..OFF_HEADS] == Le16(b.secPerTrack)
      && s[OFF_HEADS..OFF_HIDDEN_SECS] == Le16(b.heads)
      && s[OFF_HIDDEN_SECS..OFF_HUGE_SECTORS] == Le32(b.hiddenSecs)
      && s[OFF_HUGE_SECTORS..OFF_DRIVE_NUMBER] == Le32(b.hugeSectors)
      && s[OFF_DRIVE_NUMBER] == b.driveNumber && s[OFF_RESERVED1] == b.reserved1
      && s[OFF_BOOT_SIGNATURE] == b.bootSignature
      && s[OFF_VOLUME_ID..OFF_LABEL] == Le32(b.volumeId)
      && s[OFF_LABEL..OFF_FILE_SYSTEM_TYPE] == b.volumeLabel
      && s[OFF_FILE_SYSTEM_TYPE..OFF_RESERVED2] == b.fileSystemType
      && s[OFF_RESERVED2..OFF_SIG2] == b.reserved2 && s[OFF_SIG2..SECTOR_SIZE] == b.sig2
  {
    BlocksAtOffsets(b);
    BiosParameterBlockFields(b);
    ExtendedBlockFields(b);
    var s := EncodeBootSector(b);
    BiosParameterBlockFieldsAtOffsets(b, s);
    ExtendedBlockFieldsAtOffsets(b, s);
  }

  /** The encoding is the jump, the OEM name, the two parameter blocks, the reserved
      bytes and the signature, each at its offset. */
  lemma BlocksAtOffsets(b: BootSector)
    requires b.WellFormed()
    ensures var s := EncodeBootSector(b);
      s[OFF_JUMP..OFF_OEM_NAME] == b.jump && s[OFF_OEM_NAME..OFF_BYTES_PER_SEC] == b.oemName
      && s[OFF_BYTES_PER_SEC..OFF_DRIVE_NUMBER] == BiosParameterBlock(b)
      && s[OFF_DRIVE_NUMBER..OFF_RESERVED2] == ExtendedBlock(b)
      && s[OFF_RESERVED2..OFF_SIG2] == b.reserved2 && s[OFF_SIG2..SECTOR_SIZE] == b.sig2
  {
    SixParts(b.jump, b.oemName, BiosParameterBlock(b), ExtendedBlock(b), b.reserved2, b.sig2);
  }

  /** Where each of six concatenated runs lies in their concatenation. */
  lemma SixParts(p: seq<byte>, q: seq<byte>, r: seq<byte>, t: seq<byte>, u: seq<byte>, w: seq<byte>)
    ensures var s := p + q + r + t + u + w;
      var q0, r0, t0 := |p|, |p| + |q|, |p| + |q| + |r|;
      var u0, w0 := t0 + |t|, t0 + |t| + |u|;
      s[..q0] == p && s[q0..r0] == q && s[r0..t0] == r && s[t0..u0] == t && s[u0..w0] == u
      && s[w0..] == w
  {
    var s := p + q + r + t + u + w;
    var p0: seq<byte> := [];
    var p1 := p0 + p;
    var p2 := p1 + q;
    var p3 := p2 + r;
    var p4 := p3 + t;
    var p5 := p4 + u;
    assert s[..|p5 + w|] == p5 + w;
    FieldAt(p5, w, s);
    FieldAt(p4, u, s);
    FieldAt(p3, t, s);
    FieldAt(p2, r, s);
    FieldAt(p1, q, s);
    FieldAt(p0, p, s);
  }

  /** A slice inside the run `s[lo..hi]` is the matching slice of that run. */
  lemma SubSlice(s: seq<byte>, lo: nat, a: nat, c: nat, hi: nat)
    requires lo <= a <= c <= hi <= |s|
    ensures s[a..c] == s[lo..hi][a - lo..c - lo]
  {
    assert forall i :: 0 <= i < c - a ==> s[a..c][i] == s[lo..hi][a - lo..c - lo][i];
  }

  /** The fields of the BIOS parameter block, placed in the sector. */
  lemma BiosParameterBlockFieldsAtOffsets(b: BootSector, s: seq<byte>)
    requires b.WellFormed() && |s| == SECTOR_SIZE
    requires s[OFF_BYTES_PER_SEC..OFF_DRIVE_NUMBER] == BiosParameterBlock(b)
    ensures s[OFF_BYTES_PER_SEC..OFF_SEC_PER_CLUS] == Le16(b.bytesPerSec)
      && s[OFF_SEC_PER_CLUS] == b.secPerClus
      && s[OFF_RES_SECTORS..OFF_FATS] == Le16(b.resSectors) && s[OFF_FATS] == b.fats
      && s[OFF_ROOT_DIR_ENTS..OFF_SECTORS] == Le16(b.rootDirEnts)
      && s[OFF_SECTORS..OFF_MEDIA] == Le16(b.sectors) && s[OFF_MEDIA] == b.media
      && s[OFF_FAT_SECS..OFF_SEC_PER_TRACK] == Le16(b.fatSecs)
      && s[OFF_SEC_PER_TRACK..OFF_HEADS] == Le16(b.secPerTrack)
      && s[OFF_HEADS..OFF_HIDDEN_SECS] == Le16(b.heads)
      && s[OFF_HIDDEN_SECS..OFF_HUGE_SECTORS] == Le32(b.hiddenSecs)
      && s[OFF_HUGE_SECTORS..OFF_DRIVE_NUMBER] == Le32(b.hugeSectors)
  {
    BiosParameterBlockFields(b);
    var lo, hi := OFF_BYTES_PER_SEC, OFF_DRIVE_NUMBER;
    SubSlice(s, lo, OFF_BYTES_PER_SEC, OFF_SEC_PER_CLUS, hi);
    SubSlice(s, lo, OFF_RES_SECTORS, OFF_FATS, hi);
    SubSlice(s, lo, OFF_ROOT_DIR_ENTS, OFF_SECTORS, hi);
    SubSlice(s, lo, OFF_SECTORS, OFF_MEDIA, hi);
    SubSlice(s, lo, OFF_FAT_SECS, OFF_SEC_PER_TRACK, hi);
    SubSlice(s, lo, OFF_SEC_PER_TRACK, OFF_HEADS, hi);
    SubSlice(s, lo, OFF_HEADS, OFF_HIDDEN_SECS, hi);
    SubSlice(s, lo, OFF_HIDDEN_SECS, OFF_HUGE_SECTORS, hi);
    SubSlice(s, lo, OFF_HUGE_SECTORS, OFF_DRIVE_NUMBER, hi);
  }

  /** The fields of the extended block, placed in the sector. */
  lemma ExtendedBlockFieldsAtOffsets(b: BootSector, s: seq<byte>)
    requires b.WellFormed() && |s| == SECTOR_SIZE
    requires s[OFF_DRIVE_NUMBER..OFF_RESERVED2] == ExtendedBlock(b)
    ensures s[OFF_DRIVE_NUMBER] == b.driveNumber && s[OFF_RESERVED1] == b.reserved1
      && s[OFF_BOOT_SIGNATURE] == b.bootSignature
      && s[OFF_VOLUME_ID..OFF_LABEL] == Le32(b.volumeId)
      && s[OFF_LABEL..OFF_FILE_SYSTEM_TYPE] == b.volumeLabel
      && s[OFF_FILE_SYSTEM_TYPE..OFF_RESERVED2] == b.fileSystemType
  {
    ExtendedBlockFields(b);
    var lo, hi := OFF_DRIVE_NUMBER, OFF_RESERVED2;
    SubSlice(s, lo, OFF_VOLUME_ID, OFF_LABEL, hi);
    SubSlice(s, lo, OFF_LABEL, OFF_FILE_SYSTEM_TYPE, hi);
    SubSlice(s, lo, OFF_FILE_SYSTEM_TYPE, OFF_RESERVED2, hi);
  }

  /** Each field of the BIOS parameter block sits at its offset within the block. */
  lemma BiosParameterBlockFields(b: BootSector)
    requires b.WellFormed()
    ensures var p := BiosParameterBlock(b);
      p[0..2] == Le16(b.bytesPerSec) && p[2] == b.secPerClus && p[3..5] == Le16(b.resSectors)
      && p[5] == b.fats && p[6..8] == Le16(b.rootDirEnts) && p[8..10] == Le16(b.sectors)
      && p[10] == b.media && p[11..13] == Le16(b.fatSecs) && p[13..15] == Le16(b.secPerTrack)
      && p[15..17] == Le16(b.heads) && p[17..21] == Le32(b.hiddenSecs)
      && p[21..25] == Le32(b.hugeSectors)
  {
    var s := BiosParameterBlock(b);
    var head := Le16(b.bytesPerSec) + [b.secPerClus] + Le16(b.resSectors) + [b.fats]
      + Le16(b.rootDirEnts) + Le16(b.sectors) + [b.media];
    SixParts(head, Le16(b.fatSecs), Le16(b.secPerTrack), Le16(b.heads), Le32(b.hiddenSecs),
      Le32(b.hugeSectors));
    SixParts(Le16(b.bytesPerSec) + [b.secPerClus], Le16(b.resSectors), [b.fats],
      Le16(b.rootDirEnts), Le16(b.sectors), [b.media]);
    SubSlice(s, 0, 0, 2, 11);
    SubSlice(s, 0, 3, 5, 11);
    SubSlice(s, 0, 6, 8, 11);
    SubSlice(s, 0, 8, 10, 11);
  }

  /** Each field of the extended block sits at its offset within the block. */
  lemma ExtendedBlockFields(b: BootSector)
    requires b.WellFormed()
    ensures var p := ExtendedBlock(b);
      p[0] == b.driveNumber && p[1] == b.reserved1 && p[2] == b.bootSignature
      && p[3..7] == Le32(b.volumeId) && p[7..18] == b.volumeLabel && p[18..26] == b.fileSystemType
  {
    var s := ExtendedBlock(b);
    SixParts([b.driveNumber], [b.reserved1], [b.bootSignature], Le32(b.volumeId), b.volumeLabel,
      b.fileSystemType);
    assert s[0] == s[..1][0] && s[1] == s[1..2][0] && s[2] == s[2..3][0];
  }

  /** A field that follows prefix `p` inside `s` occupies the bytes right after `p`. */
  lemma FieldAt(p: seq<byte>, x: seq<byte>, s: seq<byte>)
    requires |p| + |x| <= |s| && s[..|p| + |x|] == p + x
    ensures s[|p|..|p| + |x|] == x && s[..|p|] == p
  {
    assert s[|p|..|p| + |x|] == (p + x)[|p|..];
    assert s[..|p|] == (p + x)[..|p|];
  }

  /** Decoding an encoded boot sector gives back every field. */
  lemma DecodeEncodeBootSector(b: BootSector)
    requires b.WellFormed()
    ensures DecodeBootSector(EncodeBootSector(b)) == b
  {
    var s := EncodeBootSector(b);
    EncodedFieldsAtOffsets(b);
    Get16Le16(b.bytesPerSec);
    Get16Le16(b.resSectors);
    Get16Le16(b.rootDirEnts);
    Get16Le16(b.sectors);
    Get16Le16(b.fatSecs);
    Get16Le16(b.secPerTrack);
    Get16Le16(b.heads);
    Get32Le32(b.hiddenSecs);
    Get32Le32(b.hugeSectors);
    Get32Le32(b.volumeId);
  }

  /** Agreement on two adjacent slices is agreement on their union. */
  lemma JoinSlices(e: seq<byte>, s: seq<byte>, a: nat, b: nat, c: nat)
    requires a <= b <= c <= |e| && c <= |s|
    requires e[a..b] == s[a..b] && e[b..c] == s[b..c]
    ensures e[a..c] == s[a..c]
  {
    assert e[a..c] == e[a..b] + e[b..c];
    assert s[a..c] == s[a..b] + s[b..c];
  }

  /** Encoding the fields read from a sector gives back the sector. */
  lemma EncodeDecodeBootSector(s: seq<byte>)
    requires |s| == SECTOR_SIZE
    ensures EncodeBootSector(DecodeBootSector(s)) == s
  {
    var b := DecodeBootSector(s);
    EncodedFieldsAtOffsets(b);
    Le16Get16(s, OFF_BYTES_PER_SEC);
    Le16Get16(s, OFF_RES_SECTORS);
    Le16Get16(s, OFF_ROOT_DIR_ENTS);
    Le16Get16(s, OFF_SECTORS);
    Le16Get16(s, OFF_FAT_SECS);
    Le16Get16(s, OFF_SEC_PER_TRACK);
    Le16Get16(s, OFF_HEADS);
    Le32Get32(s, OFF_HIDDEN_SECS);
    Le32Get32(s, OFF_HUGE_SECTORS);
    Le32Get32(s, OFF_VOLUME_ID);
    var e := EncodeBootSector(b);
    assert e[OFF_SEC_PER_CLUS..OFF_RES_SECTORS] == s[OFF_SEC_PER_CLUS..OFF_RES_SECTORS];
    assert e[OFF_FATS..OFF_ROOT_DIR_ENTS] == s[OFF_FATS..OFF_ROOT_DIR_ENTS];
    assert e[OFF_MEDIA..OFF_FAT_SECS] == s[OFF_MEDIA..OFF_FAT_SECS];
    assert e[OFF_DRIVE_NUMBER..OFF_RESERVED1] == s[OFF_DRIVE_NUMBER..OFF_RESERVED1];
    assert e[OFF_RESERVED1..OFF_BOOT_SIGNATURE] == s[OFF_RESERVED1..OFF_BOOT_SIGNATURE];
    assert e[OFF_BOOT_SIGNATURE..OFF_VOLUME_ID] == s[OFF_BOOT_SIGNATURE..OFF_VOLUME_ID];
    JoinSlices(e, s, 0, 3, 11);
    JoinSlices(e, s, 0, 11, 13);
    JoinSlices(e, s, 0, 13, 14);
    JoinSlices(e, s, 0, 14, 16);
    JoinSlices(e, s, 0, 16, 17);
    JoinSlices(e, s, 0, 17, 19);
    JoinSlices(e, s, 0, 19, 21);
    JoinSlices(e, s, 0, 21, 22);
    JoinSlices(e, s, 0, 22, 24);
    JoinSlices(e, s, 0, 24, 26);
    JoinSlices(e, s, 0, 26, 28);
    JoinSlices(e, s, 0, 28, 32);
    JoinSlices(e, s, 0, 32, 36);
    JoinSlices(e, s, 0, 36, 37);
    JoinSlices(e, s, 0, 37, 38);
    JoinSlices(e, s, 0, 38, 39);
    JoinSlices(e, s, 0, 39, 43);
    JoinSlices(e, s, 0, 43, 54);
    JoinSlices(e, s, 0, 54, 62);
    JoinSlices(e, s, 0, 62, 510);
    JoinSlices(e, s, 0, 510, 512);
    assert e == e[0..SECTOR_SIZE] && s == s[0..SECTOR_SIZE];
  }

  // Byte offsets of the fields of the packed directory entry.
  const DE_OFF_NAME: nat := 0
  const DE_OFF_EXTENSION: nat := 8
  const DE_OFF_ATTRIBUTES: nat := 11
  const DE_OFF_RESERVED: nat := 12
  const DE_OFF_TIME: nat := 13
  const DE_OFF_DATE: nat := 15
  const DE_OFF_START_CLUSTER: nat := 17
  const DE_OFF_FILE_SIZE: nat := 19

  /** The fields of the packed directory entry. */
  datatype DirEntry = DirEntry(
    name: seq<byte>,
    extension: seq<byte>,
    attributes: byte,
    reserved: byte,
    time: int,
    date: int,
    startCluster: int,
    fileSize: int)
  {
    /** Every field fits its declared width. */
    predicate WellFormed() {
      |name| == 8 && |extension| == 3 && IsU16(time) && IsU16(date) && IsU16(startCluster)
      && IsU32(fileSize)
    }
  }

  /** The bytes of a packed directory entry: 23 of them, short of the 32-byte entry
      of the FAT specification (which has further time, date and cluster fields).
      Name, extension and attributes, the first twelve bytes, agree with it. */
  function EncodeDirEntry(d: DirEntry): (s: seq<byte>)
    requires d.WellFormed()
    ensures |s| == 23
    ensures s[DE_OFF_NAME..DE_OFF_EXTENSION] == d.name
    ensures s[DE_OFF_EXTENSION..DE_OFF_ATTRIBUTES] == d.extension
    ensures s[DE_OFF_ATTRIBUTES] == d.attributes && s[DE_OFF_RESERVED] == d.reserved
    ensures s[DE_OFF_TIME..DE_OFF_DATE] == Le16(d.time)
    ensures s[DE_OFF_DATE..DE_OFF_START_CLUSTER] == Le16(d.date)
    ensures s[DE_OFF_START_CLUSTER..DE_OFF_FILE_SIZE] == Le16(d.startCluster)
    ensures s[DE_OFF_FILE_SIZE..] == Le32(d.fileSize)
  {
    d.name + d.extension + [d.attributes] + [d.reserved] + Le16(d.time) + Le16(d.date)
    + Le16(d.startCluster) + Le32(d.fileSize)
  }

  /** The name, extension and attribute bytes that open a directory entry. */
  function DirEntryHead(name: seq<byte>, extension: seq<byte>, attributes: byte): (s: seq<byte>)
    requires |name| == 8 && |extension| == 3
    ensures |s| == DE_OFF_RESERVED
    ensures s[DE_OFF_NAME..DE_OFF_EXTENSION] == name
    ensures s[DE_OFF_EXTENSION..DE_OFF_ATTRIBUTES] == extension
    ensures s[DE_OFF_ATTRIBUTES] == attributes
  {
    name + extension + [attributes]
  }
}
