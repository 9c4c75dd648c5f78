# A verified model of a virtual FAT16 disk driver

The driver serves a virtual disk whose image lives in memory. It may be RAM only, or
a memory-mapped file. This project models the driver's core in Dafny and proves what
each part promises:

- **The FAT16 formatter** (`Fat16Format`, with the on-disk layouts in `FatLayout` and
  the little-endian helpers in `Bytes`).
  - It zeroes the image, then writes the boot sector / BIOS Parameter Block, the first
    two FAT entries and an empty volume-label entry heading the root directory.
  - It also stores the fixed legacy geometry in the volume record.
  - The model keeps the code's 16-bit casts, C's integer promotion and its truncating
    division.
- **The request pipeline** (`VfsWorker` and `VfsIo`).
  - Read and write packets are queued in FIFO order and counted by a semaphore.
  - A worker takes the head of the queue and copies bytes between the image and the
    packet's buffer.
  - The queue is a `seq` field of the volume record. The semaphore is a counter, and
    the worker loop is a `while` loop over the same state.
- **The device-control responder** (`DeviceControl`). A pure reply function decides
  each control request from its code and its buffer lengths. It feeds methods that
  fill in the request packet. The volume record is only read.
- **Volume creation and shutdown** (`VolumeManager`).
  - Creation validates the size.
  - An existing backing file is never reformatted.
  - The record stores a 32-bit size and derives a geometry from it.
  - Only FAT16 and "no format" are accepted.
  - Shutdown closes the handles and completes with no bytes.
- **The keystroke decoder** (`Keymap`). Two 84-entry US-layout tables and a state
  machine over the SHIFT/CTRL/ALT flags decide what each keystroke appends to the
  log.

The volume record (`VolumeState.Volume`) and the packets (`VolumeState.IoRequest`,
`DeviceControl.ControlRequest`) are classes, because the code updates their fields in
place. The formatter and the copy routines work on the image `array` in place.

## Behaviour worth knowing

- **Shutdown.** No terminate flag is raised. `VFSShutdown` only closes the mapping
  and the handles (`src/vfs.c:447-455`), and the worker loop never ends
  (`src/vfsworker.c:113-142`).
- **Other packets.** A packet whose major function is neither read nor write is
  taken off the queue and never completed (`src/vfsworker.c:136-140`).
- **The stored size.** The record keeps the size cut to 32 bits (`src/vfs.c:293`),
  so a 4 GiB request is recorded as 0 bytes and is formatted as such.
- **The total-sector field.** This field is 16 bits wide, so from 32 MiB on it wraps
  around (`src/format.c:124`). The 32-bit field stays 0. The FAT size then collapses
  and is not monotone in the volume size.
- **The partition type.** The partition query reports the type byte of FAT32
  (`PARTITION_FAT32`) for a volume formatted as FAT16 (`src/ioctl.c:120`).
- **Read and write status.** `VFSRead` and `VFSWrite` set the information count and
  complete the packet but never store a status in it; they only return
  STATUS_SUCCESS (`src/vfsio.c:58-61`, `src/vfsio.c:101-104`), and the worker
  discards that result (`src/vfsworker.c:136-140`). A served packet therefore keeps
  the status it arrived with. `VFSShutdown` does store STATUS_SUCCESS
  (`src/vfs.c:451`).
- **Packets.** The request packets (`VolumeState.IoRequest`,
  `DeviceControl.ControlRequest`) are built by the I/O manager, outside the driver;
  their constructors only build a packet for the model's methods to serve.

## Model

| member | source | states |
|---|---|---|
| Bytes.ToU16 | src/format.c:124 | the 16-bit cast: the result is in 0..65535, agrees with the value modulo 2^16 and is the identity on that range |
| Bytes.ToU32 | src/vfs.c:293 | the 32-bit cast: the result is in 0..2^32-1, agrees with the value modulo 2^32 and is the identity on that range |
| Bytes.Le16 | src/format.h:78-87 | a 16-bit field is two bytes, each a byte value |
| Bytes.Le32 | src/format.h:88-93 | a 32-bit field is four bytes, each a byte value |
| Bytes.Get16 | src/format.h:78-87 | the two bytes of a field read as a value in 0..65535 |
| Bytes.Get32 | src/format.h:88-93 | the four bytes of a field read as a value in 0..2^32-1 |
| Bytes.Get16Le16 | src/format.h:78-87 | reading back a 16-bit little-endian field gives the stored value |
| Bytes.Le16Get16 | src/format.h:78-87 | re-encoding the value read from two bytes gives those two bytes back |
| Bytes.Get32Le32 | src/format.h:88-93 | reading back a 32-bit little-endian field gives the stored value |
| Bytes.Le32Get32 | src/format.h:88-93 | re-encoding the value read from four bytes gives those four bytes back |
| Bytes.Put16 | src/format.c:119-124 | a 16-bit store writes the two little-endian bytes at its offset and nothing else |
| Bytes.Put32 | src/format.c:144 | a 32-bit store writes the four little-endian bytes at its offset and nothing else |
| FatLayout.EncodeBootSector | src/format.h:74-98 | the packed boot sector is exactly 512 bytes |
| FatLayout.EncodedFieldsAtOffsets | src/format.h:76-97 | each boot-sector field sits at its packed offset: jump 0, OEM 3, bytes/sector 11, sectors/cluster 13, reserved 14, FATs 16, root entries 17, sectors 19, media 21, FAT sectors 22, sectors/track 24, heads 26, hidden 28, huge 32, drive 36, reserved1 37, signature 38, volume ID 39, label 43, type 54, reserved2 62, sig2 510 |
| FatLayout.DecodeBootSector | src/format.h:74-98 | every 512-byte sector unpacks to a well-formed boot-sector record, each text field of its packed width |
| FatLayout.DecodeEncodeBootSector | src/format.h:74-98 | decoding an encoded boot sector gives the record back |
| FatLayout.EncodeDecodeBootSector | src/format.h:74-98 | every 512-byte sector is the encoding of what it decodes to |
| FatLayout.EncodeDirEntry | src/format.h:100-110 | the packed directory entry is 23 bytes, with name 0..7, extension 8..10, attributes 11, reserved 12 and the rest after |
| FatLayout.DirEntryHead | src/format.h:100-104 | the first twelve bytes of an entry are its name, extension and attribute byte |
| Fat16Format.RootLabelEntry | src/format.c:189-202 | the root label entry is eleven spaces followed by the volume attribute 0x08 |
| Fat16Format.CDiv | src/format.c:132 | C's int division: exact division for non-negative operands, rounding toward zero otherwise |
| Fat16Format.RoundUpRootEntries | src/format.c:88-90 | the rounding yields a multiple of 16 that is at least the count and less than the count plus 16 |
| Fat16Format.RootEntriesNeedNoRounding | src/format.c:81-90 | 224 root entries are already 14 whole sectors, so rounding keeps 224 |
| Fat16Format.TotalSectors16 | src/format.c:124 | the total-sector field is a 16-bit value |
| Fat16Format.TotalSectorsExactBelow32MiB | src/format.c:124 | below 32 MiB the total-sector field equals size/512 |
| Fat16Format.TotalSectorsWrapAt32MiB | src/format.c:124 | at 32 MiB the field wraps to 0, and at 40 MiB it reads as 8 MiB's sector count |
| Fat16Format.FatSizingFor | src/format.c:132-138 | each of the two passes' entry and sector counts is a USHORT value |
| Fat16Format.FatSectors | src/format.c:132-140 | the FAT written to the boot sector has between 1 and 17 sectors, whatever the volume size |
| Fat16Format.FatSizingBounds | src/format.c:132-138 | the two passes are exactly e1 = (sectors-15)/16+2 (0 below 15 sectors, where C rounds toward zero), f1 = ceil(2*e1/512), e2 = e1+f1, f2 = ceil(2*e2/512); no cast wraps; 1 <= f1 <= f2 <= 17; 256*f2 >= e2 >= e1 |
| Fat16Format.FatSizingMonotone | src/format.c:132-138 | a larger sector count never gives a smaller first or final FAT size |
| Fat16Format.FatSectorsMonotoneBelow32MiB | src/format.c:124-138 | below 32 MiB a larger volume never gets a smaller FAT |
| Fat16Format.FatSectorsDropAt32MiB | src/format.c:124-138 | the FAT has 17 sectors just under 32 MiB and 1 sector at 32 MiB |
| Fat16Format.FatSectorsOfShippedVolumes | src/format.c:132-138 | the 16 MiB volume gets 9 FAT sectors and the 31 MiB volume 16 |
| Fat16Format.RootDirOffset | src/format.c:187 | the root directory starts at 512*(1+FAT sectors), between bytes 1024 and 9216 |
| Fat16Format.FormattedBootSector | src/format.c:101-168 | the boot sector the formatter produces is a well-formed boot-sector record |
| Fat16Format.FormattedImage | src/format.c:58-202 | the formatted image is DiskSize bytes, each as the field-by-field description of the formatter says |
| Fat16Format.FormattedRun | src/format.c:101-168 | a run of the formatted first sector equals a field whenever the field-by-field description agrees byte for byte |
| Fat16Format.FormattedTextFields | src/format.c:101-168 | the formatted first sector holds EB 3C 90, "RajuRam ", "NO NAME    ", "FAT16   ", 448 zero bytes and 55 AA at their offsets |
| Fat16Format.FormattedNumberFields | src/format.c:119-144 | the formatted numeric fields read back as 512 bytes/sector, 16 sectors/cluster, 1 reserved sector, 1 FAT, 224 root entries, the 16-bit sector count, media 0xF8, the FAT size, 32 sectors/track, 2 heads, hidden and huge sectors 0, boot signature 0 and volume ID 0xC0FFFFEE |
| Fat16Format.FormattedBootSectorDecodes | src/format.c:101-168 | the formatted first sector decodes to the formatter's boot-sector record and is its encoding |
| Fat16Format.ZeroPrefix | src/format.c:58 | the zeroing clears exactly the first DiskSize bytes |
| Fat16Format.PutBytes | src/format.c:101-117 | a run of byte stores writes the run at its offset and nothing else |
| Fat16Format.WriteBootHead | src/format.c:101-126 | the stores up to the media byte leave bytes 0..21 as the formatted boot sector, touch nothing else, and yield the 16-bit sector count |
| Fat16Format.WriteBootFields | src/format.c:101-142 | the stores plus the two-pass FAT-size computation leave bytes 0..27 as the formatted boot sector and yield the FAT sector count |
| Fat16Format.WriteBootTrailer | src/format.c:143-168 | the boot signature, volume ID, label, type tag and 55 AA land at their offsets and nothing else changes |
| Fat16Format.WriteFatHeader | src/format.c:174-180 | the FAT starts at byte 512 with F8 FF FF FF, i.e. entries 0xFFF8 and 0xFFFF |
| Fat16Format.WriteRootLabel | src/format.c:187-202 | the root directory's first twelve bytes become the label entry and nothing else changes |
| Fat16Format.FormatFat16 | src/format.c:44-205 | the whole formatter: the geometry becomes 512 bytes/sector, 32 sectors/track, 2 tracks/cylinder, size/512/32/2 cylinders and media 0xF8. Each image byte inside DiskSize, or among those it stores, becomes the formatted byte; every other byte is unchanged. It returns success |
| Fat16Format.FormattedByteOutsideStores | src/format.c:58 | every byte the formatter does not store explicitly is zero in the formatted image |
| Fat16Format.DivMonotone512 | src/format.c:124 | dividing by the sector size is monotone |
| Fat16Format.FormattedGeometry | src/format.c:60-74 | the formatter's geometry: 512-byte sectors, 32 sectors/track, 2 tracks/cylinder, media 0xF8, and cylinders that cover the volume up to less than one 32 KiB cylinder |
| Fat16Format.CylinderDivision | src/format.c:68 | size/512/32/2 is size/32768 |
| VolumeState.VfsMiB | src/vfs.h:44 | the size macro yields a whole number of mebibytes, `mb` of them |
| VolumeState.LowOffset | src/vfsio.c:53 | the offset used, by reads and writes alike, is the low 32 bits of ByteOffset |
| VolumeState.Volume.constructor | src/vfs.c:382-391 | the zeroed record holds the image, the size, the type and the backing-file handle, with an empty queue and a zero geometry |
| VfsIo.Overwrite | src/vfsio.c:56 | a copy into a range puts the copied bytes there and keeps every other byte |
| VfsIo.OverwriteWithOwnBytes | src/vfsio.c:56 | copying a range onto itself changes nothing |
| VfsIo.OverwriteTwice | src/vfsio.c:99 | a second write of the same range hides the first |
| VfsIo.OverwriteDisjointCommute | src/vfsio.c:99 | writes to disjoint ranges commute |
| VfsIo.CopyBytes | src/vfsio.c:56 | the copy overwrites the target range with the source range and nothing else |
| VfsIo.RequestRange | src/vfsio.c:53-56 | the bytes a request names are Length image bytes from the low offset on |
| VfsIo.HighOffsetBitsIgnored | src/vfsio.c:53 | offsets that agree in the low 32 bits name the same bytes, and a negative offset wraps to the top of the 32-bit range |
| VfsIo.VfsRead | src/vfsio.c:21-62 | the image bytes of the request land at the start of the caller's buffer; the rest of the buffer and the image are unchanged; information is Length; the packet is completed with its status left as it was; returns STATUS_SUCCESS |
| VfsIo.VfsWrite | src/vfsio.c:64-105 | the first Length buffer bytes replace the image range and nothing else in the image changes; information is the (aliased) Length; completed with its status left as it was; returns STATUS_SUCCESS |
| VfsIo.WriteThenReadReturnsData | src/vfsio.c:53-99 | reading back a range just written returns the written bytes and leaves the rest of the buffer as it was |
| VfsIo.ReadThenWriteBackIsIdentity | src/vfsio.c:53-99 | writing back the bytes just read leaves the image unchanged |
| VfsWorker.ApplyOp | src/vfsworker.c:134-140 | serving a packet changes only the bytes a write names, which then hold its data |
| VfsWorker.ApplyAll | src/vfsworker.c:113-142 | serving a batch of packets oldest first keeps the image size |
| VfsWorker.ApplyAllAppend | src/vfsworker.c:113-142 | serving two batches in turn equals serving their concatenation |
| VfsWorker.UnwrittenByteKept | src/vfsworker.c:113-142 | a byte that no queued write covers keeps its value |
| VfsWorker.NoWritesKeepImage | src/vfsworker.c:136-140 | reads and dropped packets never change the image |
| VfsWorker.LatestWriteWins | src/vfsworker.c:126-140 | a write's range holds its data until a later write overlaps it, so requests take effect in queue order |
| VfsWorker.QueuedReadSeesEarlierWrite | src/vfsworker.c:126-140 | a queued read of a range an earlier queued write covered, with no overlapping write between, sees exactly the written bytes |
| VfsWorker.OpOf | src/vfsworker.c:134-140 | the effect of a packet is fixed by its major function, offset, length and write data |
| VfsWorker.QueueOps | src/vfsworker.c:126-128 | the queue's operations are those of its packets, head first |
| VfsWorker.QueueOpsFit | src/vfsworker.c:126-140 | every operation of a valid queue stays inside the image |
| VfsWorker.PrepareWorker | src/vfsworker.c:56-80 | the queue is empty; the semaphore count is 0, which keeps the queue invariant; the status is that of the thread creation |
| VfsWorker.QueueWorkItem | src/vfsworker.c:145-185 | the packet is marked pending and appended at the tail; the count rises by exactly one; the queue invariant holds; the status is pending |
| VfsWorker.WorkerStep | src/vfsworker.c:120-140 | exactly the head is removed and the count drops by one. A read fills the head's buffer from the image. A write changes the image as its operation says. Any other packet is dropped, neither completed nor given information. No packet's status changes. The queue invariant is kept |
| VfsWorker.Answer | src/vfsworker.c:134-140 | a read receives the requested image bytes at the start of its buffer and keeps the rest; reads and writes complete with their length as information; a dropped packet keeps its contents, information and completion |
| VfsWorker.ServeNext | src/vfsworker.c:113-140 | one more loop pass serves the next queued packet, in order; that packet alone changes, to its Answer on the image its predecessors left |
| VfsWorker.ServeQueue | src/vfsworker.c:113-142 | the loop consumes one packet per semaphore count until the queue is empty; the image ends as the queued operations applied oldest first; the k-th packet ends holding its Answer on the image the first k operations left: a read's buffer starts with those image bytes, reads and writes report their length and are completed, other packets are untouched; no packet's status changes |
| VfsWorker.ProgressStarts | src/vfsworker.c:113 | before the loop nothing has been served, and every queued packet can take its Answer |
| DeviceControl.Respond | src/ioctl.c:62-182 | a record is written exactly when a query succeeds, and then information is its size, which fits the output buffer. No success claims more than the buffer holds. Success happens exactly for the no-op codes and for queries with a large enough buffer. BUFFER_TOO_SMALL comes exactly from a short geometry or length buffer, INVALID_PARAMETER exactly from a short partition buffer, INVALID_DEVICE_REQUEST exactly from any other code. Information is 0 exactly when no record is written and the status is not INVALID_PARAMETER, and is left unassigned exactly by a short partition query |
| DeviceControl.GeometryReply | src/ioctl.c:137-158 | success exactly when the buffer holds a DISK_GEOMETRY, with the stored geometry as the record; otherwise BUFFER_TOO_SMALL and no record; information is the record size or 0 |
| DeviceControl.PartitionReply | src/ioctl.c:105-135 | success exactly when the buffer holds a PARTITION_INFORMATION, with the whole-disk descriptor and its size as information; otherwise INVALID_PARAMETER, no record and no information |
| DeviceControl.LengthReply | src/ioctl.c:160-182 | success exactly when the buffer holds a GET_LENGTH_INFORMATION, with DiskSize as the record; otherwise BUFFER_TOO_SMALL and no record; information is the record size or 0 |
| DeviceControl.VerifyReply | src/ioctl.c:184-207 | success exactly when the input holds a VERIFY_INFORMATION, with the verify length as information; otherwise INVALID_PARAMETER and 0; never a record |
| DeviceControl.GeometryCodesAgree | src/ioctl.c:64-69 | the three geometry codes get the same reply |
| DeviceControl.GeometryQueryReturnsStoredGeometry | src/ioctl.c:146-157 | a large enough geometry query returns the stored geometry |
| DeviceControl.SizeQueriesReportDiskSize | src/ioctl.c:120-181 | the partition descriptor is offset 0, length DiskSize, hidden 0, number 1, type PARTITION_FAT32, boot FALSE, recognized TRUE, rewrite FALSE; the length query reports DiskSize |
| DeviceControl.DiskVerifyNeverReached | src/ioctl.c:85-207 | IOCTL_DISK_VERIFY gets success with no bytes, unlike the verify handler, which would refuse a short input buffer |
| DeviceControl.QueryDiskGeometry | src/ioctl.c:137-158 | a short buffer gives BUFFER_TOO_SMALL and information 0, leaving the buffer alone; otherwise the geometry is copied, with information 24 and success |
| DeviceControl.GetPartitionInfo | src/ioctl.c:105-135 | a short buffer gives INVALID_PARAMETER and leaves information unassigned; otherwise the whole-disk descriptor is written, with information 32 and success |
| DeviceControl.GetDiskLengthInfo | src/ioctl.c:160-182 | a short buffer gives BUFFER_TOO_SMALL and information 0; otherwise Length is DiskSize, with information 8 and success |
| DeviceControl.DiskVerifyHandler | src/ioctl.c:184-207 | a short input buffer gives INVALID_PARAMETER and information 0; otherwise success with the requested verify length as information |
| DeviceControl.Ioctl | src/ioctl.c:28-103 | the request is answered as Respond decides and completed; the returned status is the one stored in the request; the volume record is unchanged |
| VolumeManager.SectorRemainder | src/vfs.c:174 | C's signed remainder by 512 is zero exactly when the size is a multiple of 512 |
| VolumeManager.SizeAcceptedIff | src/vfs.c:174-178 | a size passes the test exactly when it is a multiple of 512 and at least 8 MiB |
| VolumeManager.SizeBoundaries | src/vfs.c:174-178 | 8 MiB-512 fails, 8 MiB passes, 8 MiB+256 fails, and both shipped sizes pass |
| VolumeManager.PlanCreate | src/vfs.c:167-293 | creation goes ahead exactly when the size passes and the backing file opened. A bad size gives STATUS_UNSUCCESSFUL. The stored size is the size modulo 2^32, still whole sectors. The file handle is open exactly for a file-backed volume. An existing file forces NOFORMAT |
| VolumeManager.TruncatedSize | src/vfs.c:293 | the 32-bit size of an accepted size agrees with it modulo 2^32, is no larger and is still whole sectors |
| VolumeManager.ExistingFileIsNeverFormatted | src/vfs.c:228-231 | an already existing backing file is mounted unformatted whatever type was requested |
| VolumeManager.LargeSizesWrap | src/vfs.c:293 | a 4 GiB request is recorded as 0 bytes, and 4 GiB+16 MiB as 16 MiB |
| VolumeManager.DerivedGeometry | src/vfs.c:393-397 | 512-byte sectors, 32 sectors/track, 2 tracks/cylinder and FixedMedia; the cylinders cover the volume up to less than one 32 KiB cylinder |
| VolumeManager.FormatterOnlyChangesMediaType | src/vfs.c:393-397 | the FAT16 formatter keeps the derived geometry except that the media type becomes 0xF8 |
| VolumeManager.Fat32IsRefused | src/vfs.c:399-411 | the FAT32 type code is not accepted |
| VolumeManager.PrepareFileSystem | src/vfs.c:307-430 | an unknown type (FAT32 included) gives STATUS_UNSUCCESSFUL and no volume. FAT16 or NOFORMAT gives a fresh volume holding the image, the size, the type and the handle flag, with an empty queue. A FAT16 image is formatted. A NOFORMAT image is untouched and keeps the derived geometry. The status is that of the symbolic link |
| VolumeManager.CreateDisk | src/vfs.c:104-305 | an uninitialised module or refused plan returns its status and no volume, with the image untouched; otherwise the volume is prepared with the plan's size, type and handle flag |
| VolumeManager.Shutdown | src/vfs.c:432-456 | the view is unmapped and the section and file closed; the packet's status becomes STATUS_SUCCESS, its information 0, and it is completed; returns STATUS_SUCCESS; the queue is untouched |
| VolumeManager.SixteenMiBFileVolume | src/igmain.c:278-298 | a fresh 16 MiB file-backed FAT16 volume starts EB 3C 90 and its first sector ends 55 AA; it reports 512 cylinders, and a partition query reports 16 MiB |
| Keymap.KeyMap | src/keymap.c:39-123 | every entry of the plain table is a special-key marker or a printable character |
| Keymap.ExtendedKeyMap | src/keymap.c:131-215 | every entry of the shifted table is a special-key marker or a printable character |
| Keymap.Keystroke | src/keymap.c:247-321 | a keystroke logs something only on a make, and never changes the caps-lock flag |
| Keymap.ShiftedTableIsPrintableWherePlainIs | src/keymap.c:39-215 | wherever the plain table holds a printable character, the shifted one does too |
| Keymap.OutputIsTagOrCharacter | src/keymap.c:247-321 | a keystroke logs nothing, one of the seven tags, or one printable character |
| Keymap.ShiftKeys | src/keymap.c:259-266 | LSHIFT and RSHIFT set SHIFT exactly when the flags are KEY_MAKE, clear it otherwise (E0 included) and log nothing |
| Keymap.CtrlAndAltKeys | src/keymap.c:267-282 | on make CTRL logs "[CTRL]" and sets its flag, otherwise clears it silently; ALT does the same with "[ALT]" |
| Keymap.SpaceAndEnterKeys | src/keymap.c:283-292 | SPACE and ENTER log their tag only on make while ALT is not held |
| Keymap.PrintableKeys | src/keymap.c:308-320 | a printable key logs exactly one character, on make with neither ALT nor CTRL held: from the shifted table while SHIFT is held, else the plain one; otherwise nothing, and the flags stay |
| Keymap.SingleCharacterOnlyForPrintableKeys | src/keymap.c:308-320 | a single logged character always comes from a printable key pressed with neither ALT nor CTRL |
| Keymap.OnlyModifiersChangeState | src/keymap.c:258-320 | only the shift, CTRL and ALT scan codes change the flags |
| Keymap.EscIsNeverLogged | src/keymap.c:298-302 | no table entry is the ESC marker, so "[ESC]" is never logged |
| Keymap.CapsLockIgnored | src/keymap.c:253-317 | the caps-lock flag neither affects the output nor changes |
| Keymap.KeylogDevice.constructor | src/keylog.c:142 | the zeroed extension: no modifier held, and nothing logged yet |
| Keymap.KeylogDevice.Emit | src/keymap.c:220-242 | text is appended to the log only when a log file is open |
| Keymap.KeylogDevice.WriteKeystrokeToLog | src/keymap.c:247-321 | the flags become what the decoder says, and the log grows by the decoder's text when a file is open and not at all otherwise |

## Left out

- Kernel objects and mappings are not modelled: device objects, symbolic links,
  `ZwCreateFile`, `ZwCreateSection`, `ZwMapViewOfSection` and unmapping
  (`src/vfs.c:188-281, 367-380`). The model takes an image array of the requested size
  as given. Opening the backing file becomes an outcome parameter, and the symbolic
  link's status becomes a parameter. A failure to create the section, to map the view
  or to create the device object is not modelled.
- The module-initialisation check is a Boolean parameter of
  `VolumeManager.CreateDisk`. `VFSPrepareFileSystem` repeats it; that copy cannot fail
  after the first, so it is not modelled.
- `VFSInit`'s dispatch table, `src/igmain.c` and `src/vfscompat.c` only wire handlers
  or complete packets with fixed statuses. They hold no logic.
- Threads, the spin lock, the semaphore wait and the MAXLONG semaphore limit are not
  modelled. The worker is sequential: `VfsWorker.WorkerStep` serves one packet whose
  count is positive, and `VfsWorker.ServeQueue` runs the loop until the wait would
  block. The loop's endlessness, and the interleaving of submissions with service, are
  outside the model.
- `VfsWorker.QueueWorkItem` requires the new packet and its buffer to differ from those
  already queued and from the image. The C code does not check this. The model needs
  it to describe each copy separately.
- `VfsIo.VfsRead` and `VfsIo.VfsWrite` require every request to fit inside the image.
  The C copies without any bounds check, so an out-of-range request is undefined
  behaviour there and is not modelled. They also require the packet's buffer to be a
  different array from the image, which `src/vfsio.c` does not check either; a buffer
  that aliases the image is not modelled.
- IRP and MDL mechanics become plain state: `IoMarkIrpPending`, `IoCompleteRequest` and
  MDL mapping are a `pending` flag, a `completed` flag and the buffer array.
- `DeviceControl`: the records written to the system buffer are modelled as values
  (geometry, partition info, length), not as their byte layout.
- The keystroke-capture plumbing is not modelled: filter attach, the completion
  routine, the keystroke worker thread and pass-through. `ZwWriteFile` becomes an
  append to the `log` string. An out-of-range or negative (signed `char`) scan code
  overruns the tables in C; the model requires a scan code below 84.
- The unused `BOOT_SECTOR_FAT32` record (`src/format.h:41-72`) and the unused symmetric
  key parameter (`src/vfs.c:165`) are left out.
- All `DbgPrint`/`KdPrint` output is left out.
- `Fat16Format.FormatFat16` requires everything it stores to lie inside the image
  array. The C code writes into the image unchecked.
