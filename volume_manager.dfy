/** Volume creation and shutdown: the size test, the "existing file is not
    formatted" rule, the setup of the volume record and its geometry, the dispatch
    on the file-system type, and the shutdown handler. The kernel objects behind a
    volume (device object, symbolic link, backing file, section and mapped view)
    are reduced to the image array they provide and to flags saying which are open. */
module VolumeManager {
  import opened Bytes
  import opened VolumeState
  import Fat16Format
  import VfsWorker
  import DeviceControl

  /** C's `size % 512` on a signed operand: the remainder takes the sign of the
      dividend. */
  function SectorRemainder(a: int): (r: int)
    ensures -512 < r < 512
    ensures a >= 0 ==> r == a % 512
    ensures (r == 0) == (a % 512 == 0)
  {
    if a >= 0 then a % 512 else -((-a) % 512)
  }

  /** VFSCreateDisk's size test on the signed 64-bit requested size. */
  predicate SizeRejected(size: int)
  {
    SectorRemainder(size) != 0 || size < VfsMiB(8)
  }

  /** The test accepts exactly the whole numbers of sectors from 8 MiB on. */
  lemma SizeAcceptedIff(size: int)
    ensures !SizeRejected(size) <==> size >= VfsMiB(8) && size % 512 == 0
  {
  }

  /** The boundary of the size test. */
  lemma SizeBoundaries()
    ensures SizeRejected(VfsMiB(8) - 512)
    ensures !SizeRejected(VfsMiB(8))
    ensures SizeRejected(VfsMiB(8) + 256)
    ensures !SizeRejected(VfsMiB(16)) && !SizeRejected(VfsMiB(31))
  {
  }

  /** What opening the backing file reported (ZwCreateFile with FILE_OPEN_IF). */
  datatype FileOpen = OpenError | FileCreated | FileOpened

  /** Where the image lives: memory alone, or a file on disk. */
  datatype Backing = RamDisk | BackingFile(open: FileOpen)

  /** What VFSCreateDisk decides before it sets the volume up. */
  datatype CreatePlan =
    | Refused(status: Status)
    | Proceed(diskSize: nat, fileSystemType: nat, fileHandleOpen: bool)

  /** The decisions of VFSCreateDisk. The size stored in the record is the requested
      size cut to 32 bits. The test meant to refuse a newly created file of size zero
      compares the address of the size argument, never null at that point,
      so it never refuses. */
  function PlanCreate(size: int, backing: Backing, fsType: nat): (p: CreatePlan)
    ensures p.Proceed? <==> !SizeRejected(size) && backing != BackingFile(OpenError)
    ensures SizeRejected(size) ==> p == Refused(Unsuccessful)
    ensures p.Proceed? ==> IsU32(p.diskSize) && (size - p.diskSize) % U32_LIMIT == 0
    ensures p.Proceed? ==> p.diskSize <= size && p.diskSize % 512 == 0
    ensures p.Proceed? ==> p.fileHandleOpen == backing.BackingFile?
    ensures p.Proceed? ==>
      p.fileSystemType == (if backing == BackingFile(FileOpened) then NOFORMAT else fsType)
  {
    if SizeRejected(size) then Refused(Unsuccessful)
    else
      match backing
      case RamDisk => Proceed(ToU32(size), fsType, false)
      case BackingFile(OpenError) => Refused(OpenFailed)
      case BackingFile(FileCreated) => Proceed(TruncatedSize(size), fsType, true)
      case BackingFile(FileOpened) => Proceed(TruncatedSize(size), NOFORMAT, true)
  }

  /** `(ULONG)VFSSize->QuadPart` of an accepted size: still a whole number of sectors. */
  function TruncatedSize(size: int): (diskSize: nat)
    requires size >= 0 && size % 512 == 0
    ensures IsU32(diskSize) && (size - diskSize) % U32_LIMIT == 0
    ensures diskSize <= size && diskSize % 512 == 0
  {
    var d := ToU32(size);
    var q, k := size / U32_LIMIT, size / 512;
    assert size == U32_LIMIT * q + d && size == 512 * k;
    assert d == 512 * (k - 8388608 * q);
    d
  }

  /** An existing backing file is mounted as it is, whatever type was asked for. */
  lemma ExistingFileIsNeverFormatted(size: int, fsType: nat)
    ensures var p := PlanCreate(size, BackingFile(FileOpened), fsType);
      p.Proceed? ==> p.fileSystemType == NOFORMAT
  {
  }

  /** Sizes of 4 GiB and more lose their high bits in the record. */
  lemma LargeSizesWrap()
    ensures PlanCreate(U32_LIMIT, RamDisk, FAT16) == Proceed(0, FAT16, false)
    ensures PlanCreate(U32_LIMIT + VfsMiB(16), RamDisk, FAT16) == Proceed(VfsMiB(16), FAT16, false)
  {
  }

  /** The geometry VFSPrepareFileSystem derives from the size: 512-byte sectors,
      32 sectors per track, 2 tracks per cylinder. The reported cylinders cover the
      volume but for less than one cylinder (32 KiB). */
  function DerivedGeometry(diskSize: nat): (g: Geometry)
    ensures g.bytesPerSector == 512 && g.sectorsPerTrack == 32 && g.tracksPerCylinder == 2
    ensures g.mediaType == FIXED_MEDIA
    ensures g.cylinders >= 0
    ensures g.cylinders * 32768 <= diskSize < (g.cylinders + 1) * 32768
  {
    var c := diskSize / 512 / 32 / 2;
    Fat16Format.CylinderDivision(diskSize);
    Geometry(c, FIXED_MEDIA, 2, 32, 512)
  }

  /** The FAT16 formatter keeps the derived geometry but for the media type. */
  lemma FormatterOnlyChangesMediaType(diskSize: nat)
    ensures Fat16Format.FormattedGeometry(diskSize) == DerivedGeometry(diskSize).(mediaType := 0xF8)
  {
  }

  /** The file-system types VFSPrepareFileSystem accepts. */
  predicate AcceptedType(fsType: nat)
  {
    fsType == FAT16 || fsType == NOFORMAT
  }

  /** FAT32 has a type code but no formatter, so it is refused. */
  lemma Fat32IsRefused()
    ensures !AcceptedType(FAT32)
  {
  }

  /** The volume the setup leaves behind, given its inputs. `linkStatus` is what
      creating the drive's symbolic link returned; the routine returns it as its own
      status once the type is accepted. A refused type yields STATUS_UNSUCCESSFUL and
      no volume. An accepted type yields a fresh volume holding the image, the size,
      the type and the backing-file flag, with an empty queue; a FAT16 volume is
      formatted, any other keeps its image and the derived geometry. */
  twostate predicate Prepared(image: array<byte>, diskSize: nat, fsType: nat, fileHandleOpen: bool,
                              linkStatus: Status, status: Status, new handle: Volume?)
    reads image, handle
  {
    status == (if AcceptedType(fsType) then linkStatus else Unsuccessful)
    && (handle != null <==> AcceptedType(fsType))
    && (handle != null ==>
          fresh(handle) && handle.image == image && handle.diskSize == diskSize
          && handle.fileSystemType == fsType && handle.fileHandleOpen == fileHandleOpen
          && handle.sectionOpen && handle.mapped
          && handle.queue == [] && handle.semaphoreCount == 0
          && handle.geometry == (if fsType == FAT16 then Fat16Format.FormattedGeometry(diskSize)
                                 else DerivedGeometry(diskSize)))
    && (if fsType == FAT16 then
          (forall i :: 0 <= i < image.Length ==>
             image[i] == (if i < diskSize || Fat16Format.StoredByFormatter(diskSize, i)
                          then Fat16Format.FormattedByte(diskSize, i) else old(image[i])))
        else image[..] == old(image[..]))
  }

  /** VFSPrepareFileSystem: creates the volume record, derives its geometry, formats
      or refuses by type and prepares the worker. `threadStatus` is what starting the
      worker thread returned; the routine ignores it. */
  method PrepareFileSystem(image: array<byte>, diskSize: nat, fsType: nat, fileHandleOpen: bool,
                           linkStatus: Status, threadStatus: Status)
    returns (status: Status, handle: Volume?)
    requires diskSize % 512 == 0 && diskSize <= image.Length
    requires fsType == FAT16 ==> Fat16Format.RootDirOffset(diskSize) + 12 <= image.Length
    modifies image
    ensures Prepared(image, diskSize, fsType, fileHandleOpen, linkStatus, status, handle)
    ensures handle != null ==> handle.QueueValid()
  {
    status := linkStatus;
    var v := new Volume(image, diskSize, fsType, fileHandleOpen);
    v.geometry := v.geometry.(cylinders := v.diskSize / 512 / 32 / 2, mediaType := FIXED_MEDIA);
    v.geometry := v.geometry.(tracksPerCylinder := 2, sectorsPerTrack := 32, bytesPerSector := 512);
    assert v.geometry == DerivedGeometry(diskSize);

    if v.fileSystemType == FAT16 {
      var _ := Fat16Format.FormatFat16(v);
    } else if v.fileSystemType == NOFORMAT {
    } else {
      return Unsuccessful, null;
    }

    var _ := VfsWorker.PrepareWorker(v, threadStatus);
    handle := v;
  }

  /** VFSCreateDisk. `initialized` says whether the module was initialised;
      `image` is the view the kernel maps for an accepted size, holding the whole
      requested size. */
  method CreateDisk(initialized: bool, size: int, backing: Backing, fsType: nat, image: array<byte>,
                    linkStatus: Status, threadStatus: Status)
    returns (status: Status, handle: Volume?)
    requires !SizeRejected(size) ==> image.Length == size
    modifies image
    ensures !initialized ==> status == Unsuccessful && handle == null && image[..] == old(image[..])
    ensures initialized ==>
      match PlanCreate(size, backing, fsType)
      case Refused(st) => status == st && handle == null && image[..] == old(image[..])
      case Proceed(ds, t, open) =>
        (Prepared(image, ds, t, open, linkStatus, status, handle)
         && (handle != null ==> handle.QueueValid()))
  {
    if !initialized {
      return Unsuccessful, null;
    }
    if SizeRejected(size) {
      return Unsuccessful, null;
    }
    var fileSystemType := fsType;
    var fileHandleOpen := false;
    match backing {
      case RamDisk =>
      case BackingFile(open) =>
        if open == OpenError {
          return OpenFailed, null;
        }
        if open == FileOpened {
          fileSystemType := NOFORMAT;
        }
        fileHandleOpen := true;
    }
    var diskSize := TruncatedSize(size);
    status, handle := PrepareFileSystem(image, diskSize, fileSystemType, fileHandleOpen,
                                        linkStatus, threadStatus);
  }

  /** VFSShutdown: unmaps the image and closes the section and the backing file, then
      completes the packet with STATUS_SUCCESS and no bytes. The worker and its queue
      are left as they are. */
  method Shutdown(v: Volume, irp: IoRequest) returns (status: Status)
    modifies v`mapped, v`sectionOpen, v`fileHandleOpen, irp`status, irp`information, irp`completed
    ensures !v.mapped && !v.sectionOpen && !v.fileHandleOpen
    ensures irp.status == Success && irp.information == 0 && irp.completed && status == Success
  {
    v.mapped := false;
    v.sectionOpen := false;
    v.fileHandleOpen := false;
    irp.status := Success;
    irp.information := 0;
    irp.completed := true;
    status := Success;
  }

  /** The file-backed 16 MiB FAT16 volume the driver mounts at load, created afresh:
      its image starts with the boot jump, its first sector ends with the boot
      signature, its geometry reports 512 cylinders and a partition query reports the
      whole 16 MiB. */
  method SixteenMiBFileVolume()
    returns (status: Status, jump: seq<byte>, signature: seq<byte>, cylinders: int,
             partitionLength: int)
    ensures status == Success
    ensures jump == [0xEB, 0x3C, 0x90] && signature == [0x55, 0xAA]
    ensures cylinders == 512
    ensures partitionLength == VfsMiB(16)
  {
    var image := new byte[VfsMiB(16)](_ => 0);
    var handle;
    status, handle := CreateDisk(true, VfsMiB(16), BackingFile(FileCreated), FAT16, image,
                                 Success, Success);
    assert PlanCreate(VfsMiB(16), BackingFile(FileCreated), FAT16) == Proceed(VfsMiB(16), FAT16, true);
    assert handle != null && handle.image == image;
    jump := handle.image[..3];
    signature := handle.image[510..512];
    cylinders := handle.geometry.cylinders;

    var req := new DeviceControl.ControlRequest(DeviceControl.DiskGetPartitionInfo,
                                                DeviceControl.PARTITION_INFORMATION_SIZE, 0);
    var _ := DeviceControl.Ioctl(handle, req);
    partitionLength := req.systemBuffer.value.partition.partitionLength;
  }
}
