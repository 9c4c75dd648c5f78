/** The FAT16 formatter: zeroes the image, fills in the boot sector, starts the
    single FAT with its two reserved entries and opens the root directory with an
    empty volume-label entry. It also leaves the fixed legacy geometry in the
    volume record. */
module Fat16Format {
  import opened Bytes
  import opened FatLayout
  import opened VolumeState

  const ROOT_DIR_ENTRIES: nat := 224
  const SECTORS_PER_CLUSTER: nat := 16
  const RESERVED_SECTORS: nat := 1
  const FAT_COUNT: byte := 1
  const VOLUME_ID: nat := 0xC0FF_FFEE
  /** The formatter writes 0 here; the FAT specification's extended value is 0x29. */
  const BOOT_SIGNATURE: byte := 0

  /** x86 `jmp short 0x3E; nop`, which the file-system recogniser looks for. */
  const BOOT_JUMP: seq<byte> := [0xEB, 0x3C, 0x90]
  /** "RajuRam " */
  const OEM_NAME: seq<byte> := [0x52, 0x61, 0x6A, 0x75, 0x52, 0x61, 0x6D, 0x20]
  /** "NO NAME    " */
  const VOLUME_LABEL: seq<byte> := [0x4E, 0x4F, 0x20, 0x4E, 0x41, 0x4D, 0x45, 0x20, 0x20, 0x20, 0x20]
  /** "FAT16   " */
  const FS_TYPE_TAG: seq<byte> := [0x46, 0x41, 0x54, 0x31, 0x36, 0x20, 0x20, 0x20]
  const BOOT_SIG2: seq<byte> := [0x55, 0xAA]
  /** FAT entry 0 (the media byte, then 0xFF) and FAT entry 1 (0xFFFF). */
  const FAT_HEADER: seq<byte> := [0xF8, 0xFF, 0xFF, 0xFF]
  const BLANK_NAME: seq<byte> := [0x20, 0x20, 0x20, 0x20, 0x20, 0x20, 0x20, 0x20]
  const BLANK_EXTENSION: seq<byte> := [0x20, 0x20, 0x20]

  /** The twelve bytes the formatter writes at the start of the root directory. */
  function RootLabelEntry(): (s: seq<byte>)
    ensures |s| == 12 && s[DE_OFF_ATTRIBUTES] == DIR_ATTR_VOLUME
    ensures forall k :: 0 <= k < DE_OFF_ATTRIBUTES ==> s[k] == 0x20
  {
    DirEntryHead(BLANK_NAME, BLANK_EXTENSION, DIR_ATTR_VOLUME)
  }

  /** C's `/` on int: the quotient rounded toward zero. */
  function CDiv(a: int, b: int): (q: int)
    requires b > 0
    ensures a >= 0 ==> q == a / b
    ensures a < 0 ==> q <= 0 && -a - b < -q * b <= -a
  {
    if a >= 0 then a / b else -((-a) / b)
  }

  /** Rounds a root-directory entry count up to a whole number of directory sectors,
      as `(n + 15) & ~15` does when `n & 15` is nonzero. */
  function RoundUpRootEntries(n: nat): (r: nat)
    ensures r % DIR_ENTRIES_PER_SECTOR == 0 && n <= r < n + DIR_ENTRIES_PER_SECTOR
  {
    if n % DIR_ENTRIES_PER_SECTOR != 0 then
      (n + (DIR_ENTRIES_PER_SECTOR - 1)) / DIR_ENTRIES_PER_SECTOR * DIR_ENTRIES_PER_SECTOR
    else
      n
  }

  /** 224 entries already fill whole sectors: fourteen of them. */
  lemma RootEntriesNeedNoRounding()
    ensures RoundUpRootEntries(ROOT_DIR_ENTRIES) == ROOT_DIR_ENTRIES
    ensures ROOT_DIR_ENTRIES / DIR_ENTRIES_PER_SECTOR == 14
  {
  }

  /** The 16-bit total-sector field: the sector count cut to its low 16 bits. */
  function TotalSectors16(diskSize: nat): (sectors: int)
    ensures IsU16(sectors)
  {
    ToU16(diskSize / SECTOR_SIZE)
  }

  /** Below 32 MiB the field holds the true sector count ... */
  lemma TotalSectorsExactBelow32MiB(diskSize: nat)
    requires diskSize < VfsMiB(32)
    ensures TotalSectors16(diskSize) == diskSize / SECTOR_SIZE
  {
  }

  /** ... and from 32 MiB on it wraps around: 32 MiB reads as 0 sectors. */
  lemma TotalSectorsWrapAt32MiB()
    ensures TotalSectors16(VfsMiB(32)) == 0
    ensures TotalSectors16(VfsMiB(32) + VfsMiB(8)) == VfsMiB(8) / SECTOR_SIZE
  {
  }

  /** The four values of the two-pass FAT-size computation. */
  datatype FatSizing = FatSizing(firstEntries: int, firstSectors: int, entries: int, sectors: int)

  /** The fixed two-pass estimate of the FAT size for a 16-bit total-sector count:
      clusters plus two reserved entries, the sectors for those 16-bit entries,
      then the same once more with the FAT sectors counted in. The locals are
      USHORT, hence the casts; the first subtraction is done in C's int. */
  function FatSizingFor(totalSectors: int): (z: FatSizing)
    requires IsU16(totalSectors)
    ensures IsU16(z.firstEntries) && IsU16(z.firstSectors) && IsU16(z.entries) && IsU16(z.sectors)
  {
    var e1 := ToU16(CDiv(totalSectors - RESERVED_SECTORS - ROOT_DIR_ENTRIES / DIR_ENTRIES_PER_SECTOR,
                         SECTORS_PER_CLUSTER) + 2);
    var f1 := ToU16((e1 * 2 + 511) / 512);
    var e2 := ToU16(e1 + f1);
    var f2 := ToU16((e2 * 2 + 511) / 512);
    FatSizing(e1, f1, e2, f2)
  }

  /** The FAT sector count written to the boot sector of a volume of `diskSize` bytes:
      between 1 and 17 whatever the size. */
  function FatSectors(diskSize: nat): (f: int)
    ensures 1 <= f <= 17
  {
    FatSizingBounds(TotalSectors16(diskSize));
    FatSizingFor(TotalSectors16(diskSize)).sectors
  }

  /** No 16-bit cast in the computation ever wraps; the second pass never shrinks
      the FAT; and the final FAT has room for a 16-bit entry per counted cluster
      (256 per sector) -- between 1 and 17 sectors in all. */
  lemma FatSizingBounds(totalSectors: int)
    requires IsU16(totalSectors)
    ensures var z := FatSizingFor(totalSectors);
      z.firstEntries == (if totalSectors < 15 then 2 else (totalSectors - 15) / 16 + 2)
      && z.firstSectors == (2 * z.firstEntries + 511) / 512
      && z.entries == z.firstEntries + z.firstSectors
      && z.sectors == (2 * z.entries + 511) / 512
      && 2 <= z.firstEntries <= 4097
      && 1 <= z.firstSectors <= z.sectors <= 17
      && 256 * z.sectors >= z.entries >= z.firstEntries
  {
    var z := FatSizingFor(totalSectors);
    assert CDiv(totalSectors - 15, 16) == (if totalSectors < 15 then 0 else (totalSectors - 15) / 16);
  }

  /** More sectors never give a smaller FAT. */
  lemma FatSizingMonotone(s: int, t: int)
    requires IsU16(s) && IsU16(t) && s <= t
    ensures FatSizingFor(s).firstSectors <= FatSizingFor(t).firstSectors
    ensures FatSizingFor(s).sectors <= FatSizingFor(t).sectors
  {
    FatSizingBounds(s);
    FatSizingBounds(t);
    var zs, zt := FatSizingFor(s), FatSizingFor(t);
    assert zs.firstEntries <= zt.firstEntries;
    DivMonotone512(2 * zs.firstEntries + 511, 2 * zt.firstEntries + 511);
    DivMonotone512(2 * zs.entries + 511, 2 * zt.entries + 511);
  }

  /** Below 32 MiB a larger volume never gets a smaller FAT. */
  lemma FatSectorsMonotoneBelow32MiB(size1: nat, size2: nat)
    requires size1 <= size2 < VfsMiB(32)
    ensures FatSectors(size1) <= FatSectors(size2)
  {
    TotalSectorsExactBelow32MiB(size1);
    TotalSectorsExactBelow32MiB(size2);
    DivMonotone512(size1, size2);
    FatSizingMonotone(TotalSectors16(size1), TotalSectors16(size2));
  }

  /** Across 32 MiB the wrapped sector count makes the FAT collapse from 17 sectors
      to 1, so the FAT size is not monotone in the volume size. */
  lemma FatSectorsDropAt32MiB()
    ensures FatSectors(VfsMiB(32) - SECTOR_SIZE) == 17
    ensures FatSectors(VfsMiB(32)) == 1
  {
    assert TotalSectors16(VfsMiB(32) - SECTOR_SIZE) == 65535;
    assert TotalSectors16(VfsMiB(32)) == 0;
  }

  /** The two volumes the driver creates: 16 MiB gets 9 FAT sectors, 31 MiB gets 16. */
  lemma FatSectorsOfShippedVolumes()
    ensures FatSectors(VfsMiB(16)) == 9
    ensures FatSectors(VfsMiB(31)) == 16
  {
    assert TotalSectors16(VfsMiB(16)) == 32768;
    assert TotalSectors16(VfsMiB(31)) == 63488;
  }

  /** Where the root directory begins: right after the boot sector and the FAT. */
  function RootDirOffset(diskSize: nat): (off: nat)
    ensures off == SECTOR_SIZE * (RESERVED_SECTORS + FatSectors(diskSize))
    ensures 2 * SECTOR_SIZE <= off <= 18 * SECTOR_SIZE
  {
    SECTOR_SIZE * (1 + FatSectors(diskSize))
  }

  /** The geometry the formatter leaves in the volume record. */
  function FormattedGeometry(diskSize: nat): (g: Geometry)
    ensures g.bytesPerSector == 512 && g.sectorsPerTrack == 32 && g.tracksPerCylinder == 2
    ensures g.mediaType == 0xF8
    ensures g.cylinders * 32768 <= diskSize < (g.cylinders + 1) * 32768
  {
    CylinderDivision(diskSize);
    Geometry(diskSize / 512 / 32 / 2, RAMDISK_MEDIA_TYPE as nat, 2, 32, 512)
  }

  /** Dividing by the sector, track and cylinder sizes in turn is dividing by the
      cylinder's byte count. */
  lemma CylinderDivision(a: nat)
    ensures a / 512 / 32 / 2 == a / 32768
  {
    var q1, r1 := a / 512, a % 512;
    var q2, r2 := q1 / 32, q1 % 32;
    var q3, r3 := q2 / 2, q2 % 2;
    assert a == 512 * q1 + r1 && q1 == 32 * q2 + r2 && q2 == 2 * q3 + r3;
    assert a == 32768 * q3 + (16384 * r3 + 512 * r2 + r1);
    assert 0 <= 16384 * r3 + 512 * r2 + r1 < 32768;
  }

  /** The boot sector the formatter produces, field by field. */
  function FormattedBootSector(diskSize: nat): (b: BootSector)
    ensures b.WellFormed()
  {
    FatSizingBounds(TotalSectors16(diskSize));
    BootSector(
      BOOT_JUMP, OEM_NAME, SECTOR_SIZE, SECTORS_PER_CLUSTER, RESERVED_SECTORS, FAT_COUNT,
      ROOT_DIR_ENTRIES, TotalSectors16(diskSize), RAMDISK_MEDIA_TYPE, FatSectors(diskSize),
      32, 2, 0, 0, 0, 0, BOOT_SIGNATURE, VOLUME_ID, VOLUME_LABEL, FS_TYPE_TAG,
      seq(448, _ => 0), BOOT_SIG2)
  }

  /** Byte `i` of the first sector as the formatter leaves it, field by field. */
  function BootByte(diskSize: nat, i: nat): byte
    requires i < SECTOR_SIZE
  {
    FatSizingBounds(TotalSectors16(diskSize));
    if i < OFF_OEM_NAME then BOOT_JUMP[i]
    else if i < OFF_BYTES_PER_SEC then OEM_NAME[i - OFF_OEM_NAME]
    else if i < OFF_SEC_PER_CLUS then Le16(SECTOR_SIZE)[i - OFF_BYTES_PER_SEC]
    else if i < OFF_RES_SECTORS then SECTORS_PER_CLUSTER
    else if i < OFF_FATS then Le16(RESERVED_SECTORS)[i - OFF_RES_SECTORS]
    else if i < OFF_ROOT_DIR_ENTS then FAT_COUNT
    else if i < OFF_SECTORS then Le16(ROOT_DIR_ENTRIES)[i - OFF_ROOT_DIR_ENTS]
    else if i < OFF_MEDIA then Le16(TotalSectors16(diskSize))[i - OFF_SECTORS]
    else if i < OFF_FAT_SECS then RAMDISK_MEDIA_TYPE
    else if i < OFF_SEC_PER_TRACK then Le16(FatSectors(diskSize))[i - OFF_FAT_SECS]
    else if i < OFF_HEADS then Le16(32)[i - OFF_SEC_PER_TRACK]
    else if i < OFF_HIDDEN_SECS then Le16(2)[i - OFF_HEADS]
    else if i < OFF_BOOT_SIGNATURE then 0
    else if i < OFF_VOLUME_ID then BOOT_SIGNATURE
    else if i < OFF_LABEL then Le32(VOLUME_ID)[i - OFF_VOLUME_ID]
    else if i < OFF_FILE_SYSTEM_TYPE then VOLUME_LABEL[i - OFF_LABEL]
    else if i < OFF_RESERVED2 then FS_TYPE_TAG[i - OFF_FILE_SYSTEM_TYPE]
    else if i < OFF_SIG2 then 0
    else BOOT_SIG2[i - OFF_SIG2]
  }

  /** Byte `i` of a freshly formatted image. */
  function FormattedByte(diskSize: nat, i: nat): byte
  {
    var root := RootDirOffset(diskSize);
    if i < SECTOR_SIZE then BootByte(diskSize, i)
    else if i < SECTOR_SIZE + 4 then FAT_HEADER[i - SECTOR_SIZE]
    else if root <= i < root + 12 then RootLabelEntry()[i - root]
    else 0
  }

  /** The bytes the formatter stores explicitly, beyond the zeroing: the boot-sector
      fields it assigns, the first two FAT entries and the root label entry. */
  predicate StoredByFormatter(diskSize: nat, i: nat)
  {
    var root := RootDirOffset(diskSize);
    i < OFF_HIDDEN_SECS || OFF_BOOT_SIGNATURE <= i < OFF_RESERVED2
    || OFF_SIG2 <= i < SECTOR_SIZE + 4 || root <= i < root + 12
  }

  /** The formatted image, as a whole, for a volume whose zeroing covers everything
      the formatter writes. */
  function FormattedImage(diskSize: nat): (img: seq<byte>)
    requires RootDirOffset(diskSize) + 12 <= diskSize
    ensures |img| == diskSize
    ensures forall i :: 0 <= i < diskSize ==> img[i] == FormattedByte(diskSize, i)
  {
    seq(diskSize, i requires 0 <= i => FormattedByte(diskSize, i))
  }

  /** A run of the formatted first sector equals a field when the field-by-field
      description says so byte for byte. */
  lemma FormattedRun(diskSize: nat, a: nat, b: nat, f: seq<byte>)
    requires RootDirOffset(diskSize) + 12 <= diskSize
    requires a <= b <= SECTOR_SIZE && |f| == b - a
    requires forall k :: a <= k < b ==> BootByte(diskSize, k) == f[k - a]
    ensures FormattedImage(diskSize)[..SECTOR_SIZE][a..b] == f
  {
    var img := FormattedImage(diskSize)[..SECTOR_SIZE];
    assert forall k :: 0 <= k < b - a ==> img[a..b][k] == BootByte(diskSize, a + k);
  }

  /** The text fields and the byte runs of the formatted first sector. */
  lemma FormattedTextFields(diskSize: nat)
    requires RootDirOffset(diskSize) + 12 <= diskSize
    ensures var img := FormattedImage(diskSize)[..SECTOR_SIZE];
      img[OFF_JUMP..OFF_OEM_NAME] == BOOT_JUMP && img[OFF_OEM_NAME..OFF_BYTES_PER_SEC] == OEM_NAME
      && img[OFF_LABEL..OFF_FILE_SYSTEM_TYPE] == VOLUME_LABEL
      && img[OFF_FILE_SYSTEM_TYPE..OFF_RESERVED2] == FS_TYPE_TAG
      && img[OFF_RESERVED2..OFF_SIG2] == FormattedBootSector(diskSize).reserved2
      && img[OFF_SIG2..SECTOR_SIZE] == BOOT_SIG2
  {
    FormattedRun(diskSize, OFF_JUMP, OFF_OEM_NAME, BOOT_JUMP);
    FormattedRun(diskSize, OFF_OEM_NAME, OFF_BYTES_PER_SEC, OEM_NAME);
    FormattedRun(diskSize, OFF_LABEL, OFF_FILE_SYSTEM_TYPE, VOLUME_LABEL);
    FormattedRun(diskSize, OFF_FILE_SYSTEM_TYPE, OFF_RESERVED2, FS_TYPE_TAG);
    FormattedRun(diskSize, OFF_RESERVED2, OFF_SIG2, FormattedBootSector(diskSize).reserved2);
    FormattedRun(diskSize, OFF_SIG2, SECTOR_SIZE, BOOT_SIG2);
  }

  /** The numeric fields of the formatted first sector, read back little-endian. */
  lemma FormattedNumberFields(diskSize: nat)
    requires RootDirOffset(diskSize) + 12 <= diskSize
    ensures var img := FormattedImage(diskSize)[..SECTOR_SIZE];
      var b := FormattedBootSector(diskSize);
      Get16(img, OFF_BYTES_PER_SEC) == SECTOR_SIZE && img[OFF_SEC_PER_CLUS] == SECTORS_PER_CLUSTER
      && Get16(img, OFF_RES_SECTORS) == RESERVED_SECTORS && img[OFF_FATS] == FAT_COUNT
      && Get16(img, OFF_ROOT_DIR_ENTS) == ROOT_DIR_ENTRIES
      && Get16(img, OFF_SECTORS) == b.sectors && img[OFF_MEDIA] == RAMDISK_MEDIA_TYPE
      && Get16(img, OFF_FAT_SECS) == b.fatSecs
      && Get16(img, OFF_SEC_PER_TRACK) == 32 && Get16(img, OFF_HEADS) == 2
      && Get32(img, OFF_HIDDEN_SECS) == 0 && Get32(img, OFF_HUGE_SECTORS) == 0
      && img[OFF_DRIVE_NUMBER] == 0 && img[OFF_RESERVED1] == 0
      && img[OFF_BOOT_SIGNATURE] == BOOT_SIGNATURE && Get32(img, OFF_VOLUME_ID) == VOLUME_ID
  {
    var img := FormattedImage(diskSize)[..SECTOR_SIZE];
    var b := FormattedBootSector(diskSize);
    FormattedRun(diskSize, OFF_SECTORS, OFF_MEDIA, Le16(b.sectors));
    FormattedRun(diskSize, OFF_FAT_SECS, OFF_SEC_PER_TRACK, Le16(b.fatSecs));
    FormattedRun(diskSize, OFF_VOLUME_ID, OFF_LABEL, Le32(VOLUME_ID));
    Le16Get16(img, OFF_SECTORS);
    Le16Get16(img, OFF_FAT_SECS);
    Le32Get32(img, OFF_VOLUME_ID);
    Get16Le16(b.sectors);
    Get16Le16(b.fatSecs);
    Get32Le32(VOLUME_ID);
  }

  /** The first sector of the formatted image decodes to the formatter's boot sector
      and is its encoding. */
  lemma FormattedBootSectorDecodes(diskSize: nat)
    requires RootDirOffset(diskSize) + 12 <= diskSize
    ensures DecodeBootSector(FormattedImage(diskSize)[..SECTOR_SIZE]) == FormattedBootSector(diskSize)
    ensures EncodeBootSector(FormattedBootSector(diskSize)) == FormattedImage(diskSize)[..SECTOR_SIZE]
  {
    var img := FormattedImage(diskSize)[..SECTOR_SIZE];
    FormattedTextFields(diskSize);
    FormattedNumberFields(diskSize);
    EncodeDecodeBootSector(img);
  }

  /** RtlZeroMemory over the first `n` bytes. */
  method ZeroPrefix(a: array<byte>, n: nat)
    requires n <= a.Length
    modifies a
    ensures forall i :: 0 <= i < a.Length ==> a[i] == (if i < n then 0 else old(a[i]))
  {
    forall i | 0 <= i < n {
      a[i] := 0;
    }
  }

  /** Stores a byte sequence at `off`, as the formatter's runs of character
      assignments do. */
  method PutBytes(a: array<byte>, off: nat, s: seq<byte>)
    requires off + |s| <= a.Length
    modifies a
    ensures forall i :: 0 <= i < a.Length ==>
      a[i] == (if off <= i < off + |s| then s[i - off] else old(a[i]))
  {
    forall i | off <= i < off + |s| {
      a[i] := s[i - off];
    }
  }


  /** The boot-sector fields from the jump instruction to the sectors per cluster,
      in the order the formatter assigns them. Returns the 16-bit sector count it
      stored. */
  method WriteBootHead(a: array<byte>, diskSize: nat, g: Geometry, rootDirEntries: nat,
                       sectorsPerCluster: nat) returns (sectors: int)
    requires SECTOR_SIZE <= a.Length
    requires g.bytesPerSector == 512 && g.mediaType == RAMDISK_MEDIA_TYPE as nat
    requires rootDirEntries == ROOT_DIR_ENTRIES && sectorsPerCluster == SECTORS_PER_CLUSTER
    modifies a
    ensures sectors == TotalSectors16(diskSize)
    ensures forall i :: 0 <= i < a.Length ==>
      a[i] == (if i < OFF_FAT_SECS then BootByte(diskSize, i) else old(a[i]))
  {
    PutBytes(a, OFF_JUMP, BOOT_JUMP);
    PutBytes(a, OFF_OEM_NAME, OEM_NAME);
    Put16(a, OFF_BYTES_PER_SEC, ToU16(g.bytesPerSector));
    Put16(a, OFF_RES_SECTORS, RESERVED_SECTORS);
    a[OFF_FATS] := FAT_COUNT;
    Put16(a, OFF_ROOT_DIR_ENTS, ToU16(rootDirEntries));
    sectors := ToU16(diskSize / g.bytesPerSector);
    Put16(a, OFF_SECTORS, sectors);
    a[OFF_MEDIA] := g.mediaType % 256;
    a[OFF_SEC_PER_CLUS] := sectorsPerCluster % 256;
  }

  /** The boot-sector fields from the jump instruction to the head count, with the
      two-pass FAT size computed between the media byte and the FAT-size field. */
  method WriteBootFields(a: array<byte>, diskSize: nat, g: Geometry) returns (fatSectorCnt: int)
    requires SECTOR_SIZE <= a.Length
    requires g.bytesPerSector == 512 && g.sectorsPerTrack == 32 && g.tracksPerCylinder == 2
    requires g.mediaType == RAMDISK_MEDIA_TYPE as nat
    modifies a
    ensures fatSectorCnt == FatSectors(diskSize)
    ensures forall i :: 0 <= i < a.Length ==>
      a[i] == (if i < OFF_HIDDEN_SECS then BootByte(diskSize, i) else old(a[i]))
  {
    var rootDirEntries := ROOT_DIR_ENTRIES;
    var sectorsPerCluster := SECTORS_PER_CLUSTER;
    rootDirEntries := RoundUpRootEntries(rootDirEntries);
    var sectors := WriteBootHead(a, diskSize, g, rootDirEntries, sectorsPerCluster);
    ghost var head := a[..];

    // The two passes, over USHORT locals.
    var fatEntries := ToU16(CDiv(sectors - RESERVED_SECTORS - rootDirEntries / DIR_ENTRIES_PER_SECTOR,
                                 sectorsPerCluster) + 2);
    fatSectorCnt := ToU16((fatEntries * 2 + 511) / 512);
    fatEntries := ToU16(fatEntries + fatSectorCnt);
    fatSectorCnt := ToU16((fatEntries * 2 + 511) / 512);

    Put16(a, OFF_FAT_SECS, fatSectorCnt);
    Put16(a, OFF_SEC_PER_TRACK, ToU16(g.sectorsPerTrack));
    Put16(a, OFF_HEADS, ToU16(g.tracksPerCylinder));
    assert forall i :: 0 <= i < a.Length && !(OFF_FAT_SECS <= i < OFF_HIDDEN_SECS) ==> a[i] == head[i];
  }

  /** The boot signature, volume id, label and file-system tag, and the closing
      0x55 0xAA signature. */
  method WriteBootTrailer(a: array<byte>, diskSize: nat)
    requires SECTOR_SIZE <= a.Length
    modifies a
    ensures forall i :: 0 <= i < a.Length ==>
      a[i] == (if OFF_BOOT_SIGNATURE <= i < OFF_RESERVED2 || OFF_SIG2 <= i < SECTOR_SIZE
               then BootByte(diskSize, i) else old(a[i]))
  {
    a[OFF_BOOT_SIGNATURE] := BOOT_SIGNATURE;
    Put32(a, OFF_VOLUME_ID, VOLUME_ID);
    PutBytes(a, OFF_LABEL, VOLUME_LABEL);
    PutBytes(a, OFF_FILE_SYSTEM_TYPE, FS_TYPE_TAG);
    PutBytes(a, OFF_SIG2, BOOT_SIG2);
  }

  /** The first two FAT entries: the media byte followed by three 0xFF bytes. */
  method WriteFatHeader(a: array<byte>, media: nat)
    requires SECTOR_SIZE + 4 <= a.Length && media == RAMDISK_MEDIA_TYPE as nat
    modifies a
    ensures forall i :: 0 <= i < a.Length ==>
      a[i] == (if SECTOR_SIZE <= i < SECTOR_SIZE + 4 then FAT_HEADER[i - SECTOR_SIZE] else old(a[i]))
  {
    var firstFatSector := SECTOR_SIZE;
    a[firstFatSector] := media % 256;
    a[firstFatSector + 1] := 0xFF;
    a[firstFatSector + 2] := 0xFF;
    a[firstFatSector + 3] := 0xFF;
  }

  /** The volume-label entry at the start of the root directory: a blank name and
      extension and the volume attribute. */
  method WriteRootLabel(a: array<byte>, rootDir: nat)
    requires rootDir + 12 <= a.Length
    modifies a
    ensures forall i :: 0 <= i < a.Length ==>
      a[i] == (if rootDir <= i < rootDir + 12 then RootLabelEntry()[i - rootDir] else old(a[i]))
  {
    PutBytes(a, rootDir + DE_OFF_NAME, BLANK_NAME);
    PutBytes(a, rootDir + DE_OFF_EXTENSION, BLANK_EXTENSION);
    a[rootDir + DE_OFF_ATTRIBUTES] := DIR_ATTR_VOLUME;
  }

  /** Formats the volume's image as FAT16 in place. Only the first DiskSize bytes are
      zeroed; everything the formatter stores must lie inside the mapped image. */
  method FormatFat16(v: Volume) returns (status: Status)
    requires v.diskSize <= v.image.Length
    requires RootDirOffset(v.diskSize) + 12 <= v.image.Length
    modifies v`geometry, v.image
    ensures status == Success
    ensures v.geometry == FormattedGeometry(v.diskSize)
    ensures forall i :: 0 <= i < v.image.Length ==>
      v.image[i] == (if i < v.diskSize || StoredByFormatter(v.diskSize, i)
                     then FormattedByte(v.diskSize, i) else old(v.image[i]))
  {
    var image := v.image;
    var diskSize := v.diskSize;
    ZeroPrefix(image, diskSize);
    ghost var zeroed := image[..];

    v.geometry := v.geometry.(bytesPerSector := 512, sectorsPerTrack := 32, tracksPerCylinder := 2);
    v.geometry := v.geometry.(cylinders := diskSize / 512 / 32 / 2);
    v.geometry := v.geometry.(mediaType := 0xF8);

    var fatSectorCnt := WriteBootFields(image, diskSize, v.geometry);
    ghost var fielded := image[..];
    WriteBootTrailer(image, diskSize);
    ghost var booted := image[..];

    // The FAT follows the boot sector, the root directory follows the FAT.
    WriteFatHeader(image, v.geometry.mediaType);
    ghost var fatted := image[..];
    var rootDir := SECTOR_SIZE * (1 + fatSectorCnt);
    WriteRootLabel(image, rootDir);
    status := Success;

    forall i | 0 <= i < image.Length
      ensures image[i] == (if i < diskSize || StoredByFormatter(diskSize, i)
                           then FormattedByte(diskSize, i) else old(image[i]))
    {
      FormattedByteOutsideStores(diskSize, i);
      if rootDir <= i < rootDir + 12 {
      } else if SECTOR_SIZE <= i < SECTOR_SIZE + 4 {
        assert image[i] == fatted[i];
      } else {
        assert image[i] == fatted[i] == booted[i];
        if i < OFF_HIDDEN_SECS {
          assert booted[i] == fielded[i];
        } else if !(OFF_BOOT_SIGNATURE <= i < OFF_RESERVED2 || OFF_SIG2 <= i < SECTOR_SIZE) {
          assert booted[i] == fielded[i] == zeroed[i];
        }
      }
    }
  }

  /** What the zeroing alone decides: every byte the formatter does not store is 0. */
  lemma FormattedByteOutsideStores(diskSize: nat, i: nat)
    ensures !StoredByFormatter(diskSize, i) ==> FormattedByte(diskSize, i) == 0
  {
  }

  /** Integer division by a sector is monotone. */
  lemma DivMonotone512(a: int, b: int)
    requires 0 <= a <= b
    ensures a / 512 <= b / 512
  {
    assert a == 512 * (a / 512) + a % 512;
    assert b == 512 * (b / 512) + b % 512;
  }
}
