/** The device-control responder: the control code and the output-buffer length of
    a request decide the status, the information count and the record written to
    the system buffer. The handlers only read the volume record. */
module DeviceControl {
  import opened VolumeState

  datatype Option<T> = None | Some(value: T)

  /** The control codes the dispatcher names; every other code is `OtherCode`. */
  datatype ControlCode =
    | DiskGetMediaTypes | CdromGetDriveGeometry | DiskGetDriveGeometry
    | DiskGetPartitionInfo | DiskGetLengthInfo
    | DiskCheckVerify | DiskIsWritable | DiskMediaRemoval | DiskSetPartitionInfo | DiskVerify
    | MountdevQueryDeviceName | StorageCheckVerify2 | StorageCheckVerify | StorageMediaRemoval
    | OtherCode(code: nat)

  // Sizes of the records, as the 64-bit compiler lays them out.
  const DISK_GEOMETRY_SIZE: nat := 24
  const PARTITION_INFORMATION_SIZE: nat := 32
  const GET_LENGTH_INFORMATION_SIZE: nat := 8
  const VERIFY_INFORMATION_SIZE: nat := 16

  /** The partition-table type byte for FAT32 with CHS addressing. */
  const PARTITION_FAT32: nat := 0x0B

  /** The PARTITION_INFORMATION record. */
  datatype PartitionInfo = PartitionInfo(
    startingOffset: int,
    partitionLength: int,
    hiddenSectors: nat,
    partitionNumber: nat,
    partitionType: nat,
    bootIndicator: bool,
    recognizedPartition: bool,
    rewritePartition: bool)

  /** What a handler leaves in the system buffer. */
  datatype Record = GeometryRecord(geometry: Geometry) | PartitionRecord(partition: PartitionInfo)
                  | LengthRecord(length: int)

  function RecordSize(rec: Record): nat
  {
    match rec
    case GeometryRecord(_) => DISK_GEOMETRY_SIZE
    case PartitionRecord(_) => PARTITION_INFORMATION_SIZE
    case LengthRecord(_) => GET_LENGTH_INFORMATION_SIZE
  }

  /** The outcome of a control request: its status, its information count when the
      handler assigns one, and the record it writes to the system buffer, if any. */
  datatype Reply = Reply(status: Status, information: Option<nat>, record: Option<Record>)

  predicate IsGeometryCode(code: ControlCode)
  {
    code == DiskGetMediaTypes || code == CdromGetDriveGeometry || code == DiskGetDriveGeometry
  }

  /** The codes answered with success and nothing else. */
  predicate IsNoOpCode(code: ControlCode)
  {
    code == DiskCheckVerify || code == DiskIsWritable || code == DiskMediaRemoval
    || code == DiskSetPartitionInfo || code == DiskVerify || code == MountdevQueryDeviceName
    || code == StorageCheckVerify2 || code == StorageCheckVerify || code == StorageMediaRemoval
  }

  /** The codes whose handler writes a record. */
  predicate IsQueryCode(code: ControlCode)
  {
    IsGeometryCode(code) || code == DiskGetPartitionInfo || code == DiskGetLengthInfo
  }

  /** VFSQueryDiskGeometry. */
  function GeometryReply(outLen: nat, geometry: Geometry): (r: Reply)
    ensures r.status == Success <==> outLen >= DISK_GEOMETRY_SIZE
    ensures r.status == Success ==> r.record == Some(GeometryRecord(geometry))
    ensures r.status != Success ==> r.status == BufferTooSmall && r.record == None
    ensures r.information == Some(if r.record.Some? then RecordSize(r.record.value) else 0)
  {
    if outLen < DISK_GEOMETRY_SIZE then Reply(BufferTooSmall, Some(0), None)
    else Reply(Success, Some(DISK_GEOMETRY_SIZE), Some(GeometryRecord(geometry)))
  }

  /** The single partition the volume reports: the whole disk, numbered 1. */
  function WholeDiskPartition(diskSize: nat): PartitionInfo
  {
    PartitionInfo(0, diskSize, 0, 1, PARTITION_FAT32, false, true, false)
  }

  /** VFSGetParitionInfo; a short buffer leaves the information count unassigned. */
  function PartitionReply(outLen: nat, diskSize: nat): (r: Reply)
    ensures r.status == Success <==> outLen >= PARTITION_INFORMATION_SIZE
    ensures r.status == Success ==>
      r.record == Some(PartitionRecord(WholeDiskPartition(diskSize)))
      && r.information == Some(RecordSize(r.record.value))
    ensures r.status != Success ==> r == Reply(InvalidParameter, None, None)
  {
    if outLen < PARTITION_INFORMATION_SIZE then Reply(InvalidParameter, None, None)
    else Reply(Success, Some(PARTITION_INFORMATION_SIZE), Some(PartitionRecord(WholeDiskPartition(diskSize))))
  }

  /** VFSGetDiskLengthInfo. */
  function LengthReply(outLen: nat, diskSize: nat): (r: Reply)
    ensures r.status == Success <==> outLen >= GET_LENGTH_INFORMATION_SIZE
    ensures r.status == Success ==> r.record == Some(LengthRecord(diskSize))
    ensures r.status != Success ==> r.status == BufferTooSmall && r.record == None
    ensures r.information == Some(if r.record.Some? then RecordSize(r.record.value) else 0)
  {
    if outLen < GET_LENGTH_INFORMATION_SIZE then Reply(BufferTooSmall, Some(0), None)
    else Reply(Success, Some(GET_LENGTH_INFORMATION_SIZE), Some(LengthRecord(diskSize)))
  }

  /** VFSDiskVerify, which the dispatcher never calls: it checks the input buffer and
      reports the length the caller asked to verify. */
  function VerifyReply(inLen: nat, verifyLength: nat): (r: Reply)
    ensures r.status == Success <==> inLen >= VERIFY_INFORMATION_SIZE
    ensures r.record == None
    ensures r.information == Some(if r.status == Success then verifyLength else 0)
    ensures r.status != Success ==> r.status == InvalidParameter
  {
    if inLen < VERIFY_INFORMATION_SIZE then Reply(InvalidParameter, Some(0), None)
    else Reply(Success, Some(verifyLength), None)
  }

  /** VFSIoctl's dispatch. A record is written exactly when a query succeeds, and then
      the information count is the record's size, which fits the output buffer; no
      successful reply claims more than the output buffer holds; the information
      count is left unassigned only by a short partition query. Each refusal has one
      cause: a short geometry or length buffer is too small, a short partition buffer
      is an invalid parameter, and any code outside the query and no-op groups is an
      invalid device request; a reply without a record reports 0, except the invalid
      parameter, which reports nothing. */
  function Respond(code: ControlCode, outLen: nat, geometry: Geometry, diskSize: nat): (r: Reply)
    ensures r.record.Some? <==> (r.status == Success && IsQueryCode(code))
    ensures r.record.Some? ==>
      r.information == Some(RecordSize(r.record.value)) && RecordSize(r.record.value) <= outLen
    ensures r.status == Success ==> r.information.Some? && r.information.value <= outLen
    ensures r.information.None? <==> (code == DiskGetPartitionInfo && outLen < PARTITION_INFORMATION_SIZE)
    ensures r.status == Success <==>
      (IsNoOpCode(code) || (IsGeometryCode(code) && outLen >= DISK_GEOMETRY_SIZE)
       || (code == DiskGetPartitionInfo && outLen >= PARTITION_INFORMATION_SIZE)
       || (code == DiskGetLengthInfo && outLen >= GET_LENGTH_INFORMATION_SIZE))
    ensures r.status == BufferTooSmall <==>
      ((IsGeometryCode(code) && outLen < DISK_GEOMETRY_SIZE)
       || (code == DiskGetLengthInfo && outLen < GET_LENGTH_INFORMATION_SIZE))
    ensures r.status == InvalidParameter <==> (code == DiskGetPartitionInfo && outLen < PARTITION_INFORMATION_SIZE)
    ensures r.status == InvalidDeviceRequest <==> (!IsQueryCode(code) && !IsNoOpCode(code))
    ensures r.information == Some(0) <==> (r.record.None? && r.status != InvalidParameter)
  {
    if IsGeometryCode(code) then GeometryReply(outLen, geometry)
    else if code == DiskGetPartitionInfo then PartitionReply(outLen, diskSize)
    else if code == DiskGetLengthInfo then LengthReply(outLen, diskSize)
    else if IsNoOpCode(code) then Reply(Success, Some(0), None)
    else Reply(InvalidDeviceRequest, Some(0), None)
  }

  /** The three geometry codes are answered alike. */
  lemma GeometryCodesAgree(outLen: nat, geometry: Geometry, diskSize: nat)
    ensures Respond(DiskGetMediaTypes, outLen, geometry, diskSize)
         == Respond(CdromGetDriveGeometry, outLen, geometry, diskSize)
         == Respond(DiskGetDriveGeometry, outLen, geometry, diskSize)
  {
  }

  /** A successful geometry query returns the stored geometry, whatever it holds. */
  lemma GeometryQueryReturnsStoredGeometry(code: ControlCode, outLen: nat, geometry: Geometry, diskSize: nat)
    requires IsGeometryCode(code) && outLen >= DISK_GEOMETRY_SIZE
    ensures Respond(code, outLen, geometry, diskSize).record == Some(GeometryRecord(geometry))
  {
  }

  /** The partition and length queries report the volume's size. */
  lemma SizeQueriesReportDiskSize(outLen: nat, geometry: Geometry, diskSize: nat)
    ensures outLen >= PARTITION_INFORMATION_SIZE ==>
      Respond(DiskGetPartitionInfo, outLen, geometry, diskSize).record
        == Some(PartitionRecord(PartitionInfo(0, diskSize, 0, 1, PARTITION_FAT32, false, true, false)))
    ensures outLen >= GET_LENGTH_INFORMATION_SIZE ==>
      Respond(DiskGetLengthInfo, outLen, geometry, diskSize).record == Some(LengthRecord(diskSize))
  {
  }

  /** IOCTL_DISK_VERIFY takes the no-op branch, so the verify handler never decides a
      reply: whatever the input buffer, the answer is success with no bytes, where the
      handler would have refused a short input buffer. */
  lemma DiskVerifyNeverReached(outLen: nat, geometry: Geometry, diskSize: nat, inLen: nat, verifyLength: nat)
    ensures Respond(DiskVerify, outLen, geometry, diskSize) == Reply(Success, Some(0), None)
    ensures inLen < VERIFY_INFORMATION_SIZE ==>
      Respond(DiskVerify, outLen, geometry, diskSize) != VerifyReply(inLen, verifyLength)
  {
  }

  /** A device-control request packet: its stack-location parameters, its status
      block and the system buffer. */
  class ControlRequest {
    var code: ControlCode
    var outputBufferLength: nat
    var inputBufferLength: nat
    var status: Status
    var information: nat
    var systemBuffer: Option<Record>
    var completed: bool

    constructor (code: ControlCode, outputBufferLength: nat, inputBufferLength: nat)
      ensures this.code == code && this.outputBufferLength == outputBufferLength
      ensures this.inputBufferLength == inputBufferLength
      ensures status == Success && information == 0 && systemBuffer == None && !completed
    {
      this.code := code;
      this.outputBufferLength := outputBufferLength;
      this.inputBufferLength := inputBufferLength;
      status := Success;
      information := 0;
      systemBuffer := None;
      completed := false;
    }
  }

  /** The request carries a reply: its status, its information count where the reply
      assigns one and its record where the reply writes one; the rest keeps its
      earlier value. */
  twostate predicate Answered(req: ControlRequest, rep: Reply)
    reads req
  {
    req.status == rep.status
    && req.information == (if rep.information.Some? then rep.information.value else old(req.information))
    && req.systemBuffer == (if rep.record.Some? then rep.record else old(req.systemBuffer))
  }

  method QueryDiskGeometry(req: ControlRequest, v: Volume)
    modifies req`status, req`information, req`systemBuffer
    ensures Answered(req, GeometryReply(req.outputBufferLength, v.geometry))
  {
    if req.outputBufferLength < DISK_GEOMETRY_SIZE {
      req.status := BufferTooSmall;
      req.information := 0;
      return;
    }
    req.systemBuffer := Some(GeometryRecord(v.geometry));
    req.status := Success;
    req.information := DISK_GEOMETRY_SIZE;
  }

  method GetPartitionInfo(req: ControlRequest, v: Volume)
    modifies req`status, req`information, req`systemBuffer
    ensures Answered(req, PartitionReply(req.outputBufferLength, v.diskSize))
  {
    if req.outputBufferLength < PARTITION_INFORMATION_SIZE {
      req.status := InvalidParameter;
      return;
    }
    var partition := PartitionInfo(0, 0, 0, 0, 0, false, false, false);
    partition := partition.(partitionType := PARTITION_FAT32, partitionNumber := 1);
    partition := partition.(bootIndicator := false, recognizedPartition := true, rewritePartition := false);
    partition := partition.(startingOffset := 0, partitionLength := v.diskSize, hiddenSectors := 0);
    req.systemBuffer := Some(PartitionRecord(partition));
    req.status := Success;
    req.information := PARTITION_INFORMATION_SIZE;
  }

  method GetDiskLengthInfo(req: ControlRequest, v: Volume)
    modifies req`status, req`information, req`systemBuffer
    ensures Answered(req, LengthReply(req.outputBufferLength, v.diskSize))
  {
    if req.outputBufferLength < GET_LENGTH_INFORMATION_SIZE {
      req.status := BufferTooSmall;
      req.information := 0;
      return;
    }
    req.systemBuffer := Some(LengthRecord(v.diskSize));
    req.status := Success;
    req.information := GET_LENGTH_INFORMATION_SIZE;
  }

  /** VFSDiskVerify; `verifyLength` is the Length field of the caller's
      VERIFY_INFORMATION. */
  method DiskVerifyHandler(req: ControlRequest, verifyLength: nat)
    modifies req`status, req`information
    ensures Answered(req, VerifyReply(req.inputBufferLength, verifyLength))
  {
    if req.inputBufferLength < VERIFY_INFORMATION_SIZE {
      req.status := InvalidParameter;
      req.information := 0;
      return;
    }
    req.status := Success;
    req.information := verifyLength;
  }

  /** VFSIoctl: answers the request as `Respond` decides, completes it and returns the
      status stored in it. The volume record is only read. */
  method Ioctl(v: Volume, req: ControlRequest) returns (status: Status)
    modifies req`status, req`information, req`systemBuffer, req`completed
    ensures Answered(req, Respond(req.code, req.outputBufferLength, v.geometry, v.diskSize))
    ensures status == req.status && req.completed
  {
    var code := req.code;
    if IsGeometryCode(code) {
      QueryDiskGeometry(req, v);
    } else if code == DiskGetPartitionInfo {
      GetPartitionInfo(req, v);
    } else if code == DiskGetLengthInfo {
      GetDiskLengthInfo(req, v);
    } else if IsNoOpCode(code) {
      req.status := Success;
      req.information := 0;
    } else {
      req.status := InvalidDeviceRequest;
      req.information := 0;
    }
    status := req.status;
    req.completed := true;
  }
}
