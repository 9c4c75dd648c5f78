/** The per-volume record (the device extension of the virtual disk), the I/O
    request packets the volume serves, and the constants they share. */
module VolumeState {
  import opened Bytes

  /** The size macro: `mb` mebibytes in bytes. */
  function VfsMiB(mb: nat): (bytes: nat)
    ensures bytes % (1024 * 1024) == 0 && bytes / (1024 * 1024) == mb
  {
    mb * 1024 * 1024
  }

  // File-system type codes accepted when a volume is created.
  const FAT16: nat := 16
  const FAT32: nat := 32
  const NOFORMAT: nat := 0

  /** The MEDIA_TYPE value FixedMedia of the Windows storage headers. */
  const FIXED_MEDIA: nat := 12

  /** The NTSTATUS values the modelled routines produce. */
  datatype Status =
    | Success               // STATUS_SUCCESS
    | Pending               // STATUS_PENDING
    | Unsuccessful          // STATUS_UNSUCCESSFUL
    | BufferTooSmall        // STATUS_BUFFER_TOO_SMALL
    | InvalidParameter      // STATUS_INVALID_PARAMETER
    | InvalidDeviceRequest  // STATUS_INVALID_DEVICE_REQUEST
    | OpenFailed            // whatever failure status the backing-file open returned

  /** The DISK_GEOMETRY record. */
  datatype Geometry = Geometry(
    cylinders: int,
    mediaType: nat,
    tracksPerCylinder: nat,
    sectorsPerTrack: nat,
    bytesPerSector: nat)

  /** A zero-filled geometry record, as a freshly zeroed device extension holds. */
  const ZERO_GEOMETRY: Geometry := Geometry(0, 0, 0, 0, 0)

  /** The major function code of a request packet. */
  datatype MajorFunction = MajorRead | MajorWrite | OtherMajor(code: nat)

  /** A read or write request packet: its stack-location parameters, the caller's
      buffer (described by the packet's MDL) and its completion state. */
  class IoRequest {
    var major: MajorFunction
    /** Parameters.Read/Write.ByteOffset, a signed 64-bit LARGE_INTEGER. */
    var byteOffset: int
    /** Parameters.Read/Write.Length; both names denote the same union slot. */
    var length: nat
    const buffer: array<byte>
    /** IoStatus.Information. */
    var information: nat
    /** Set by IoMarkIrpPending. */
    var pending: bool
    /** IoStatus.Status, as the packet arrives or as a handler stores it. */
    var status: Status
    /** Set by IoCompleteRequest. */
    var completed: bool

    constructor (major: MajorFunction, byteOffset: int, length: nat, buffer: array<byte>, status: Status)
      ensures this.major == major && this.byteOffset == byteOffset && this.length == length
      ensures this.buffer == buffer && this.status == status && information == 0 && !pending && !completed
    {
      this.major := major;
      this.byteOffset := byteOffset;
      this.length := length;
      this.buffer := buffer;
      this.status := status;
      information := 0;
      pending := false;
      completed := false;
    }
  }

  /** The byte offset a request actually uses: only the low 32 bits of ByteOffset. */
  function LowOffset(byteOffset: int): (lo: nat)
    ensures IsU32(lo) && (byteOffset - lo) % U32_LIMIT == 0
  {
    ToU32(byteOffset)
  }

  /** The device extension of one virtual disk. */
  class Volume {
    var geometry: Geometry
    /** The mapped view of the image; its length is the mapped size. */
    var image: array<byte>
    /** DiskSize, a 32-bit ULONG. */
    var diskSize: nat
    var fileSystemType: nat
    /** QueueListHead: requests waiting for the worker, head first. */
    var queue: seq<IoRequest>
    /** The count of semQueue. */
    var semaphoreCount: nat
    /** Whether VFSFileHandle is a real handle (it is NULL for a RAM disk). */
    var fileHandleOpen: bool
    /** Whether the section object is open and its view mapped. */
    var sectionOpen: bool
    var mapped: bool

    /** IoCreateDevice followed by the zeroing of the extension and the storing of
        the image, its size, the FSType and the handles. */
    constructor (image: array<byte>, diskSize: nat, fileSystemType: nat, fileHandleOpen: bool)
      ensures this.image == image && this.diskSize == diskSize
      ensures this.fileSystemType == fileSystemType && this.fileHandleOpen == fileHandleOpen
      ensures sectionOpen && mapped && geometry == ZERO_GEOMETRY
      ensures queue == [] && semaphoreCount == 0
    {
      this.image := image;
      this.diskSize := diskSize;
      this.fileSystemType := fileSystemType;
      this.fileHandleOpen := fileHandleOpen;
      sectionOpen := true;
      mapped := true;
      geometry := ZERO_GEOMETRY;
      queue := [];
      semaphoreCount := 0;
    }

    /** A packet the worker can serve: its buffer holds `length` bytes, the bytes it
        names lie inside the image, and the buffer is not the image itself. */
    ghost predicate Serviceable(r: IoRequest)
      reads this, r
    {
      r.length <= r.buffer.Length && LowOffset(r.byteOffset) + r.length <= image.Length
      && r.buffer != image
    }

    /** The queue invariant: the semaphore counts the queued packets, every packet
        is serviceable, and no packet or buffer is queued twice. */
    ghost predicate QueueValid()
      reads this, set r | r in queue
    {
      semaphoreCount == |queue|
      && (forall i :: 0 <= i < |queue| ==> Serviceable(queue[i]))
      && (forall i, j :: 0 <= i < j < |queue| ==>
            queue[i] != queue[j] && queue[i].buffer != queue[j].buffer)
    }
  }
}
