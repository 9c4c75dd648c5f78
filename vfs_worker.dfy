/** The request queue of a volume and the worker that serves it. Submission marks
    a packet pending, appends it to the queue and raises the semaphore; the worker
    waits on the semaphore, takes the head of the queue and dispatches reads and
    writes to the copy handlers, dropping any other packet. The worker thread and the
    lock are replaced by sequential steps over the same state. */
module VfsWorker {
  import opened Bytes
  import opened VolumeState
  import opened VfsIo

  /** What serving one packet does to the image, with the data a write carries. */
  datatype Op = ReadOp(off: nat, len: nat) | WriteOp(off: nat, data: seq<byte>) | IgnoredOp

  /** The bytes an operation names lie inside an image of `n` bytes. */
  predicate FitsIn(op: Op, n: nat)
  {
    match op
    case ReadOp(off, len) => off + len <= n
    case WriteOp(off, data) => off + |data| <= n
    case IgnoredOp => true
  }

  predicate AllFit(ops: seq<Op>, n: nat)
  {
    forall k :: 0 <= k < |ops| ==> FitsIn(ops[k], n)
  }

  /** Whether an operation writes to image byte `i`. */
  predicate WritesByte(op: Op, i: nat)
  {
    op.WriteOp? && op.off <= i < op.off + |op.data|
  }

  /** The image after one operation: a write overwrites its range, anything else
      leaves the image as it is. */
  function ApplyOp(image: seq<byte>, op: Op): (r: seq<byte>)
    requires FitsIn(op, |image|)
    ensures |r| == |image|
    ensures forall i :: 0 <= i < |image| && !WritesByte(op, i) ==> r[i] == image[i]
    ensures op.WriteOp? ==> r[op.off..op.off + |op.data|] == op.data
  {
    match op
    case WriteOp(off, data) => Overwrite(image, off, data)
    case _ => image
  }

  /** The image after the operations run one after another, oldest first. */
  function ApplyAll(image: seq<byte>, ops: seq<Op>): (r: seq<byte>)
    requires AllFit(ops, |image|)
    ensures |r| == |image|
    decreases |ops|
  {
    if ops == [] then image
    else ApplyOp(ApplyAll(image, ops[..|ops| - 1]), ops[|ops| - 1])
  }

  /** Running two batches in turn is running their concatenation. */
  lemma {:induction false} ApplyAllAppend(image: seq<byte>, a: seq<Op>, b: seq<Op>)
    requires AllFit(a, |image|) && AllFit(b, |image|)
    ensures AllFit(a + b, |image|)
    ensures ApplyAll(image, a + b) == ApplyAll(ApplyAll(image, a), b)
    decreases |b|
  {
    assert forall k :: 0 <= k < |a + b| ==> (a + b)[k] == (if k < |a| then a[k] else b[k - |a|]);
    if b == [] {
      assert a + b == a;
    } else {
      var b' := b[..|b| - 1];
      assert (a + b)[..|a + b| - 1] == a + b';
      assert AllFit(b', |image|);
      ApplyAllAppend(image, a, b');
    }
  }

  /** A byte no operation writes keeps its value. */
  lemma {:induction false} UnwrittenByteKept(image: seq<byte>, ops: seq<Op>, i: nat)
    requires AllFit(ops, |image|) && i < |image|
    requires forall k :: 0 <= k < |ops| ==> !WritesByte(ops[k], i)
    ensures ApplyAll(image, ops)[i] == image[i]
    decreases |ops|
  {
    if ops != [] {
      var ops' := ops[..|ops| - 1];
      assert AllFit(ops', |image|);
      UnwrittenByteKept(image, ops', i);
    }
  }

  /** Reads and dropped packets never change the image. */
  lemma NoWritesKeepImage(image: seq<byte>, ops: seq<Op>)
    requires AllFit(ops, |image|)
    requires forall k :: 0 <= k < |ops| ==> !ops[k].WriteOp?
    ensures ApplyAll(image, ops) == image
  {
    forall i | 0 <= i < |image| ensures ApplyAll(image, ops)[i] == image[i] {
      UnwrittenByteKept(image, ops, i);
    }
  }

  /** After a write, its range holds its data until a later write overlaps it: the
      requests take effect in the order they were queued. */
  lemma {:induction false} LatestWriteWins(image: seq<byte>, ops: seq<Op>, k: nat)
    requires AllFit(ops, |image|) && k < |ops| && ops[k].WriteOp?
    requires forall j, i :: k < j < |ops| && ops[k].off <= i < ops[k].off + |ops[k].data| ==>
      !WritesByte(ops[j], i)
    ensures ApplyAll(image, ops)[ops[k].off..ops[k].off + |ops[k].data|] == ops[k].data
    decreases |ops|
  {
    var w := ops[k];
    var ops' := ops[..|ops| - 1];
    assert AllFit(ops', |image|);
    if k == |ops| - 1 {
    } else {
      LatestWriteWins(image, ops', k);
      var before := ApplyAll(image, ops');
      var after := ApplyAll(image, ops);
      assert after == ApplyOp(before, ops[|ops| - 1]);
      forall i | w.off <= i < w.off + |w.data|
        ensures after[i] == w.data[i - w.off]
      {
        assert before[i] == before[w.off..w.off + |w.data|][i - w.off];
      }
    }
  }

  /** The operation a queued packet stands for, read from its parameters and, for a
      write, from its buffer. */
  ghost function OpOf(r: IoRequest): (op: Op)
    reads r, r.buffer
    requires r.length <= r.buffer.Length
  {
    match r.major
    case MajorRead => ReadOp(LowOffset(r.byteOffset), r.length)
    case MajorWrite => WriteOp(LowOffset(r.byteOffset), r.buffer[..r.length])
    case OtherMajor(_) => IgnoredOp
  }

  /** The operations of a queue, head first. */
  ghost function QueueOps(q: seq<IoRequest>): (ops: seq<Op>)
    reads set r | r in q, set r | r in q :: r.buffer
    requires forall k :: 0 <= k < |q| ==> q[k].length <= q[k].buffer.Length
    ensures |ops| == |q|
    ensures forall k :: 0 <= k < |q| ==> ops[k] == OpOf(q[k])
    decreases |q|
  {
    if q == [] then [] else QueueOps(q[..|q| - 1]) + [OpOf(q[|q| - 1])]
  }

  /** The operations of a valid queue all fit its volume's image. */
  lemma QueueOpsFit(v: Volume)
    requires v.QueueValid()
    ensures AllFit(QueueOps(v.queue), v.image.Length)
  {
    forall k | 0 <= k < |v.queue| ensures FitsIn(QueueOps(v.queue)[k], v.image.Length) {
      assert v.Serviceable(v.queue[k]);
    }
  }

  /** PrepareVFSWorkerThread: an empty queue and a zero semaphore. The status is
      whatever creating the worker thread returned. */
  method PrepareWorker(v: Volume, threadStatus: Status) returns (status: Status)
    modifies v`queue, v`semaphoreCount
    ensures v.queue == [] && v.semaphoreCount == 0 && v.QueueValid()
    ensures status == threadStatus
  {
    v.queue := [];
    v.semaphoreCount := 0;
    status := threadStatus;
  }

  /** VFSQueueWorkItem: marks the packet pending, appends it at the tail, raises the
      semaphore by one and answers STATUS_PENDING. */
  method QueueWorkItem(v: Volume, r: IoRequest) returns (status: Status)
    requires v.QueueValid() && v.Serviceable(r)
    requires forall k :: 0 <= k < |v.queue| ==> v.queue[k] != r && v.queue[k].buffer != r.buffer
    modifies v`queue, v`semaphoreCount, r`pending
    ensures v.queue == old(v.queue) + [r] && v.semaphoreCount == old(v.semaphoreCount) + 1
    ensures r.pending && v.QueueValid()
    ensures status == Pending
  {
    r.pending := true;
    v.queue := v.queue + [r];
    v.semaphoreCount := v.semaphoreCount + 1;
    status := Pending;
  }

  /** One pass of the worker loop: with the semaphore signalled, takes the head of the
      queue and dispatches it. A read fills the packet's buffer, a write changes the
      image, and any other packet is dropped without completion. */
  method WorkerStep(v: Volume)
    requires v.QueueValid() && v.semaphoreCount > 0
    modifies v`queue, v`semaphoreCount, v.image, v.queue[0].buffer
    modifies v.queue[..1]`information, v.queue[..1]`completed
    ensures v.queue == old(v.queue[1..]) && v.semaphoreCount == old(v.semaphoreCount) - 1
    ensures v.QueueValid()
    ensures v.image[..] == ApplyOp(old(v.image[..]), old(OpOf(v.queue[0])))
    ensures var r := old(v.queue[0]);
      r.buffer[..] == (if r.major == MajorRead
                       then Overwrite(old(r.buffer[..]), 0, RequestRange(old(v.image[..]), r.byteOffset, r.length))
                       else old(r.buffer[..]))
    ensures var r := old(v.queue[0]);
      if r.major.OtherMajor? then r.information == old(r.information) && r.completed == old(r.completed)
      else r.information == r.length && r.completed
    ensures old(v.queue[0]).status == old(v.queue[0].status)
  {
    v.semaphoreCount := v.semaphoreCount - 1;
    var r := v.queue[0];
    v.queue := v.queue[1..];
    assert v.Serviceable(r);
    if r.major == MajorRead {
      var _ := VfsRead(v, r);
    } else if r.major == MajorWrite {
      var _ := VfsWrite(v, r);
    }
  }

  /** What a packet holds that the worker may change: its buffer's bytes, its
      information count and its completion. */
  datatype Snapshot = Snapshot(buffer: seq<byte>, information: nat, completed: bool)

  ghost function SnapshotOf(r: IoRequest): Snapshot
    reads r, r.buffer
  {
    Snapshot(r.buffer[..], r.information, r.completed)
  }

  /** Each packet of `q` holds the matching entry of `now`. */
  ghost predicate Holds(q: seq<IoRequest>, now: seq<Snapshot>)
    reads set r | r in q, set r | r in q :: r.buffer
  {
    |now| == |q| && forall k :: 0 <= k < |q| ==> SnapshotOf(q[k]) == now[k]
  }

  /** The image the `k`-th queued packet is served on: the first `k` operations
      applied to the starting image. */
  ghost function ImageBefore(image0: seq<byte>, ops0: seq<Op>, k: nat): (r: seq<byte>)
    requires AllFit(ops0, |image0|) && k <= |ops0|
    ensures |r| == |image0|
  {
    assert AllFit(ops0[..k], |image0|);
    ApplyAll(image0, ops0[..k])
  }

  /** An operation fits an image of `n` bytes, and a read also fits the buffer of the
      packet holding `s`. */
  predicate AnswerFits(op: Op, s: Snapshot, n: nat)
  {
    FitsIn(op, n) && (op.ReadOp? ==> op.len <= |s.buffer|)
  }

  /** What serving the operation `op` gives back to a packet that held `s`, on image
      `before`: a read receives the requested image bytes at the start of its buffer,
      a read or a write completes with its length as the information count, and a
      dropped packet is left exactly as it was. */
  function Answer(op: Op, s: Snapshot, before: seq<byte>): (a: Snapshot)
    requires AnswerFits(op, s, |before|)
    ensures |a.buffer| == |s.buffer|
    ensures op.ReadOp? ==>
      a.buffer[..op.len] == before[op.off..op.off + op.len] && a.buffer[op.len..] == s.buffer[op.len..]
    ensures !op.ReadOp? ==> a.buffer == s.buffer
    ensures op.ReadOp? ==> a.information == op.len && a.completed
    ensures op.WriteOp? ==> a.information == |op.data| && a.completed
    ensures op.IgnoredOp? ==> a == s
  {
    match op
    case ReadOp(off, len) =>
      var b := Overwrite(s.buffer, 0, before[off..off + len]);
      assert b[len..] == s.buffer[len..];
      Snapshot(b, len, true)
    case WriteOp(_, data) => Snapshot(s.buffer, |data|, true)
    case IgnoredOp => s
  }

  /** The contents a packet holds after WorkerStep are its Answer. */
  lemma StepAnswer(major: MajorFunction, byteOffset: int, length: nat, op: Op, s0: Snapshot, s1: Snapshot,
                   before: seq<byte>)
    requires LowOffset(byteOffset) + length <= |before| && length <= |s0.buffer|
    requires op == (match major
                    case MajorRead => ReadOp(LowOffset(byteOffset), length)
                    case MajorWrite => WriteOp(LowOffset(byteOffset), s0.buffer[..length])
                    case OtherMajor(_) => IgnoredOp)
    requires s1.buffer == (if major == MajorRead
                           then Overwrite(s0.buffer, 0, RequestRange(before, byteOffset, length))
                           else s0.buffer)
    requires if major.OtherMajor? then s1.information == s0.information && s1.completed == s0.completed
             else s1.information == length && s1.completed
    ensures AnswerFits(op, s0, |before|) && s1 == Answer(op, s0, before)
  {
  }

  /** The packets' contents `now` after `done` of the operations `ops0` are served:
      each served packet holds its Answer, on the image its predecessors left, and
      each waiting packet still holds what it held at the start, `snaps0`. */
  ghost predicate RepliesOf(now: seq<Snapshot>, snaps0: seq<Snapshot>, ops0: seq<Op>, image0: seq<byte>,
                            done: nat)
  {
    done <= |ops0| && |now| == |ops0| && |snaps0| == |ops0| && AllFit(ops0, |image0|)
    && (forall k :: 0 <= k < |ops0| ==> AnswerFits(ops0[k], snaps0[k], |image0|))
    && (forall k :: 0 <= k < done ==> now[k] == Answer(ops0[k], snaps0[k], ImageBefore(image0, ops0, k)))
    && (forall k :: done <= k < |ops0| ==> now[k] == snaps0[k])
  }

  /** Answering the next packet extends the replies by one. */
  lemma RepliesStep(now: seq<Snapshot>, snaps0: seq<Snapshot>, ops0: seq<Op>, image0: seq<byte>,
                    done: nat)
    requires RepliesOf(now, snaps0, ops0, image0, done) && done < |ops0|
    ensures RepliesOf(now[done := Answer(ops0[done], snaps0[done], ImageBefore(image0, ops0, done))],
                      snaps0, ops0, image0, done + 1)
  {
  }

  /** How far the worker has got through the queue `q0` it started from: the first
      `done` packets are served, in order, on the image `image0` it started with; the
      rest wait with the operations `ops0` they had when the run began. */
  ghost predicate Progress(v: Volume, q0: seq<IoRequest>, ops0: seq<Op>, image0: seq<byte>, done: nat)
    reads v, v.image, set r | r in q0, set r | r in q0 :: r.buffer
  {
    done <= |q0| && |ops0| == |q0| && v.queue == q0[done..] && v.QueueValid()
    && (forall i, j :: 0 <= i < j < |q0| ==> q0[i] != q0[j] && q0[i].buffer != q0[j].buffer)
    && (forall k :: 0 <= k < |q0| ==> q0[k].buffer != v.image && q0[k].length <= q0[k].buffer.Length)
    && |image0| == v.image.Length && AllFit(ops0, |image0|)
    && v.image[..] == ApplyAll(image0, ops0[..done])
    && (forall k :: done <= k < |q0| ==> OpOf(q0[k]) == ops0[k])
  }

  /** One turn of the worker loop, as seen from the whole run: serving the next
      packet extends the served prefix by one, and that packet alone changes, to
      the Answer of its operation on the image its predecessors left. */
  method ServeNext(v: Volume, ghost q0: seq<IoRequest>, ghost ops0: seq<Op>, ghost image0: seq<byte>,
                   ghost now: seq<Snapshot>, ghost done: nat)
    requires Progress(v, q0, ops0, image0, done) && v.semaphoreCount > 0 && Holds(q0, now)
    modifies v`queue, v`semaphoreCount, v.image, set r | r in q0 :: r.buffer
    modifies q0`information, q0`completed
    ensures Progress(v, q0, ops0, image0, done + 1)
    ensures AnswerFits(ops0[done], now[done], |image0|)
    ensures Holds(q0, now[done := Answer(ops0[done], now[done], ImageBefore(image0, ops0, done))])
  {
    ghost var r := v.queue[0];
    assert r == q0[done];
    ghost var before := v.image[..];
    assert before == ImageBefore(image0, ops0, done);
    ghost var s0 := SnapshotOf(r);
    label BeforeStep:
    WorkerStep(v);
    StepAnswer(r.major, r.byteOffset, r.length, ops0[done], s0, SnapshotOf(r), before);
    forall k | 0 <= k < |q0| && k != done
      ensures SnapshotOf(q0[k]) == old@BeforeStep(SnapshotOf(q0[k]))
      ensures OpOf(q0[k]) == old@BeforeStep(OpOf(q0[k]))
    {
      assert q0[k] != r && q0[k].buffer != r.buffer;
      assert q0[k].buffer[..] == old@BeforeStep(q0[k].buffer[..]);
    }
    assert ops0[..done + 1][..done] == ops0[..done];
  }

  /** The worker loop until the semaphore wait would block: every queued packet is
      served, oldest first, and the image ends as the queued operations applied in
      that order. Each packet ends holding its Answer, on the image the packets
      queued before it left. */
  method ServeQueue(v: Volume)
    requires v.QueueValid()
    modifies v`queue, v`semaphoreCount, v.image, set r | r in v.queue :: r.buffer
    modifies v.queue`information, v.queue`completed
    ensures v.queue == [] && v.semaphoreCount == 0 && v.QueueValid()
    ensures AllFit(old(QueueOps(v.queue)), v.image.Length)
    ensures v.image[..] == ApplyAll(old(v.image[..]), old(QueueOps(v.queue)))
    ensures forall k :: 0 <= k < |old(v.queue)| ==>
      AnswerFits(old(QueueOps(v.queue))[k], old(SnapshotOf(v.queue[k])), old(v.image.Length))
    ensures forall k :: 0 <= k < |old(v.queue)| ==>
      SnapshotOf(old(v.queue)[k])
      == Answer(old(QueueOps(v.queue))[k], old(SnapshotOf(v.queue[k])),
                ImageBefore(old(v.image[..]), old(QueueOps(v.queue)), k))
    ensures forall k :: 0 <= k < |old(v.queue)| ==> old(v.queue)[k].status == old(v.queue[k].status)
  {
    ghost var q0 := v.queue;
    ghost var ops0 := QueueOps(q0);
    ghost var image0 := v.image[..];
    ghost var snaps0 := ProgressStarts(v, q0, ops0, image0);
    ghost var now := snaps0;
    ghost var done := 0;
    while v.semaphoreCount > 0
      invariant Progress(v, q0, ops0, image0, done) && Holds(q0, now)
      invariant RepliesOf(now, snaps0, ops0, image0, done)
      decreases v.semaphoreCount
    {
      ServeNext(v, q0, ops0, image0, now, done);
      RepliesStep(now, snaps0, ops0, image0, done);
      now := now[done := Answer(ops0[done], snaps0[done], ImageBefore(image0, ops0, done))];
      done := done + 1;
    }
    assert ops0[..done] == ops0;
  }

  /** The starting point of a run: nothing served yet, every packet holds its
      starting contents `snaps0`, and each of them can take its Answer. */
  lemma ProgressStarts(v: Volume, q0: seq<IoRequest>, ops0: seq<Op>, image0: seq<byte>)
    returns (snaps0: seq<Snapshot>)
    requires v.QueueValid() && q0 == v.queue && ops0 == QueueOps(v.queue) && image0 == v.image[..]
    ensures Progress(v, q0, ops0, image0, 0) && Holds(q0, snaps0)
    ensures RepliesOf(snaps0, snaps0, ops0, image0, 0)
  {
    QueueOpsFit(v);
    assert ops0[..0] == [];
    forall k | 0 <= k < |q0| ensures q0[k].buffer != v.image && q0[k].length <= q0[k].buffer.Length {
      assert v.Serviceable(q0[k]);
    }
    snaps0 := seq(|q0|, k requires 0 <= k < |q0| reads set r | r in q0, set r | r in q0 :: r.buffer =>
      SnapshotOf(q0[k]));
  }

  /** A queued read that follows a write of the same range, with no overlapping write
      between them, returns exactly the written bytes. */
  lemma QueuedReadSeesEarlierWrite(image: seq<byte>, ops: seq<Op>, j: nat, k: nat)
    requires AllFit(ops, |image|) && j < k < |ops|
    requires ops[j].WriteOp? && ops[k] == ReadOp(ops[j].off, |ops[j].data|)
    requires forall m, i :: j < m < k && ops[j].off <= i < ops[j].off + |ops[j].data| ==>
      !WritesByte(ops[m], i)
    ensures AllFit(ops[..k], |image|)
    ensures ApplyAll(image, ops[..k])[ops[k].off..ops[k].off + ops[k].len] == ops[j].data
  {
    var pre := ops[..k];
    assert AllFit(pre, |image|);
    assert pre[j] == ops[j];
    LatestWriteWins(image, pre, j);
  }
}
