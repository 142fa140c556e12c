/**
 * Per-frame-slot bookkeeping of the render thread (`FrameData`,
 * `frameDataArray`, `SceneConstantBuffer`) and the command queue the slots
 * submit to.
 *
 * The command queue is modelled as the log of what the renderer enqueued on
 * it: command-list executions, fence signals and presents. A slot's fence is
 * a GPU object whose value is the last one signalled on it; `LastSignal`
 * reads that off the log.
 */
module Frames {
  import opened Scene

  /** `MAX_FRAME_COUNT`: `frameDataArray` has exactly this many slots. */
  const MAX_FRAME_COUNT: nat := 3

  /** The length of `SceneConstantBuffer::worldMatrix`. */
  const INSTANCE_CAPACITY: nat := 510

  /** Vertices per triangle instance in the draw call. */
  const VERTICES_PER_INSTANCE: nat := 3

  /** `{ 0.3f, 0.3f, 0.3f, 1.0f }`, the render-target clear colour. */
  const CLEAR_COLOR := Vec4(0x3E99_999A, 0x3E99_999A, 0x3E99_999A, F_ONE)

  datatype ResourceState = StatePresent | StateRenderTarget

  /** A command recorded into a slot's command list. */
  datatype Command =
    | SetGraphicsRootSignature
    | SetDescriptorHeaps
    | SetGraphicsRootConstantBufferView(bufferSlot: nat)
    | RSSetViewport(viewport: Viewport)
    | RSSetScissorRect(rect: Rect)
    | ResourceBarrier(target: nat, before: ResourceState, after: ResourceState)
    | OMSetRenderTarget(target: nat)
    | ClearRenderTargetView(target: nat, color: Vec4)
    | IASetTriangleListTopology
    | IASetVertexBuffer
    | DrawInstanced(vertexCountPerInstance: nat, instanceCount: nat, startVertex: nat, startInstance: nat)

  /** `FrameData`'s bookkeeping: the fence target, whether a signal for it is
      outstanding, and the commands last recorded into the slot's list. */
  datatype FrameData = FrameData(fenceValue: nat, syncGPU: bool, commandList: seq<Command>)

  /** `FrameData()`: fence target 0, nothing outstanding, an empty closed list. */
  const DEFAULT_FRAME_DATA := FrameData(0, false, [])

  /** What the renderer enqueues on `d3dCommandQueue`. */
  datatype QueueOp =
    | ExecuteCommandList(slot: nat, commands: seq<Command>)
    | Signal(slot: nat, value: nat)
    | PresentBuffer(slot: nat)

  /** What `SyncGPU` leaves in a slot: with a signal outstanding, the target
      moves on by one and nothing is outstanding any more; otherwise the slot
      is as it was. The recorded list is never touched. */
  function AfterSync(f: FrameData): (r: FrameData)
    ensures !r.syncGPU && r.commandList == f.commandList
    ensures f.syncGPU ==> r.fenceValue == f.fenceValue + 1
    ensures !f.syncGPU ==> r == f
  {
    if f.syncGPU then f.(fenceValue := f.fenceValue + 1, syncGPU := false) else f
  }

  /** A slot that agrees with its fence still agrees after `SyncGPU`: the
      new target is above the last signalled value. */
  lemma AfterSyncConsistent(f: FrameData, signaled: nat)
    requires SlotConsistent(f, signaled)
    ensures SlotConsistent(AfterSync(f), signaled)
    ensures signaled < AfterSync(f).fenceValue
  {
  }

  /** What `PopulateCommandList` enqueues for slot `slot`: its list, if a
      signal is outstanding on it, and nothing otherwise. */
  function Submission(slot: nat, f: FrameData): (ops: seq<QueueOp>)
    ensures |ops| <= 1
    ensures ops != [] <==> f.syncGPU
    ensures forall op :: op in ops ==> op == ExecuteCommandList(slot, f.commandList)
  {
    if f.syncGPU then [ExecuteCommandList(slot, f.commandList)] else []
  }

  /** `(index + 1) % count`: the ring successor of a back-buffer index. */
  function NextIndex(index: nat, count: nat): (next: nat)
    requires 0 < count
    ensures next < count
    ensures index + 1 < count ==> next == index + 1
    ensures index + 1 == count ==> next == 0
  {
    (index + 1) % count
  }

  /** The value of slot `slot`'s fence once the GPU has processed the log `q`:
      the last value signalled on it, or 0 (`CreateFence(0, ...)`) if none. */
  function LastSignal(q: seq<QueueOp>, slot: nat): (v: nat)
    ensures v == 0 || Signal(slot, v) in q
    decreases |q|
  {
    if q == [] then 0
    else
      var init := q[..|q| - 1];
      match q[|q| - 1]
      case Signal(s, value) =>
        if s == slot then value else LastSignal(init, slot)
      case _ => LastSignal(init, slot)
  }

  /** A fence is only ever signalled with a value no smaller than the one it
      already holds: each signal in the log is at least the fence's value
      just before it. */
  ghost predicate MonotoneSignals(q: seq<QueueOp>)
    decreases |q|
  {
    q == [] ||
      var init, last := q[..|q| - 1], q[|q| - 1];
      && MonotoneSignals(init)
      && (last.Signal? ==> LastSignal(init, last.slot) <= last.value)
  }

  /** The fence bookkeeping of one slot agrees with its fence: while a signal
      is outstanding the slot's target is the value last signalled on its
      fence; otherwise the target is above everything signalled so far.
      An outstanding slot also holds a recorded command list. */
  predicate SlotConsistent(f: FrameData, signaled: nat) {
    && 1 <= f.fenceValue
    && (f.syncGPU ==> signaled == f.fenceValue && f.commandList != [])
    && (!f.syncGPU ==> signaled < f.fenceValue)
  }

  /** Appending one operation changes the fence value of a slot only when it
      is a signal on that slot. */
  lemma {:induction false} LastSignalAppend(q: seq<QueueOp>, op: QueueOp, slot: nat)
    ensures LastSignal(q + [op], slot) ==
      if op.Signal? && op.slot == slot then op.value else LastSignal(q, slot)
  {
    assert (q + [op])[..|q|] == q;
  }

  /** Under monotone signalling every signal on a fence is bounded by the
      fence's last value. */
  lemma {:induction false} SignalsBoundedByLast(q: seq<QueueOp>, slot: nat)
    requires MonotoneSignals(q)
    ensures forall i :: 0 <= i < |q| && q[i].Signal? && q[i].slot == slot ==> q[i].value <= LastSignal(q, slot)
    decreases |q|
  {
    if q != [] {
      var init, last := q[..|q| - 1], q[|q| - 1];
      SignalsBoundedByLast(init, slot);
      assert q == init + [last];
      LastSignalAppend(init, last, slot);
      forall i | 0 <= i < |q| - 1 && q[i].Signal? && q[i].slot == slot
        ensures q[i].value <= LastSignal(q, slot)
      {
        assert q[i] == init[i];
      }
    }
  }

  /** Monotone signalling seen pair by pair: a later signal on a fence never
      carries a smaller value than an earlier one. */
  lemma {:induction false} MonotoneSignalsPairwise(q: seq<QueueOp>)
    requires MonotoneSignals(q)
    ensures forall i, j :: 0 <= i < j < |q| && q[i].Signal? && q[j].Signal? && q[i].slot == q[j].slot ==>
      q[i].value <= q[j].value
    decreases |q|
  {
    if q != [] {
      var init, last := q[..|q| - 1], q[|q| - 1];
      MonotoneSignalsPairwise(init);
      forall i, j | 0 <= i < j < |q| && q[i].Signal? && q[j].Signal? && q[i].slot == q[j].slot
        ensures q[i].value <= q[j].value
      {
        assert q[i] == init[i];
        if j < |q| - 1 {
          assert q[j] == init[j];
        } else {
          SignalsBoundedByLast(init, last.slot);
        }
      }
    }
  }

  /** Signalling a fence with a value no smaller than its last one keeps the
      log monotone, leaves the fence at exactly that value and every other
      fence where it was. */
  lemma SignalKeepsMonotone(q: seq<QueueOp>, slot: nat, value: nat)
    requires MonotoneSignals(q)
    requires LastSignal(q, slot) <= value
    ensures MonotoneSignals(q + [Signal(slot, value)])
    ensures LastSignal(q + [Signal(slot, value)], slot) == value
    ensures forall k: nat :: k != slot ==> LastSignal(q + [Signal(slot, value)], k) == LastSignal(q, k)
  {
    assert (q + [Signal(slot, value)])[..|q|] == q;
    forall k: nat
      ensures LastSignal(q + [Signal(slot, value)], k) == if k == slot then value else LastSignal(q, k)
    {
      LastSignalAppend(q, Signal(slot, value), k);
    }
  }

  /** Enqueueing anything but a signal keeps the log monotone and leaves every
      fence's value as it was. */
  lemma NonSignalKeepsMonotone(q: seq<QueueOp>, op: QueueOp)
    requires MonotoneSignals(q)
    requires !op.Signal?
    ensures MonotoneSignals(q + [op])
    ensures forall k: nat :: LastSignal(q + [op], k) == LastSignal(q, k)
  {
    assert (q + [op])[..|q|] == q;
    forall k: nat
      ensures LastSignal(q + [op], k) == LastSignal(q, k)
    {
      LastSignalAppend(q, op, k);
    }
  }

  /** `SceneConstantBuffer`: the mapped upload buffer of one frame slot. Its
      contents persist between frames. */
  class SceneConstantBuffer {
    var viewMatrix: Mat4
    var projMatrix: Mat4
    const worldMatrix: array<Mat4>

    constructor ()
      ensures worldMatrix.Length == INSTANCE_CAPACITY && fresh(worldMatrix)
    {
      viewMatrix, projMatrix := Indeterminate, Indeterminate;
      worldMatrix := new Mat4[INSTANCE_CAPACITY](_ => Indeterminate);
    }
  }
}
