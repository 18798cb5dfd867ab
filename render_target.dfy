/** A render target's per-frame command buffer pools, its slot cursor, its
    fence ring and its extent (`VKRenderTarget`), with the bookkeeping
    `start_recording`, `stop_recording` and `set_context` do on it. */
module RenderTargets {
  import opened VulkanTypes
  import opened FenceRing
  import opened SceneSetup

  /** The slot bookkeeping of a render target at one moment:
      `cmdBuffers[f]` and `preCmdBuffers[f]` are the pools of frame `f`,
      `fences` is a ring walked by `fenceIdx`, and `cmdBufferIdx` is the
      next free slot of the frame stamped `lastUsedFrame`. */
  datatype Slots = Slots(cmdBuffers: seq<seq<Handle>>, preCmdBuffers: seq<seq<Handle>>, fences: seq<Handle>,
                         fenceIdx: nat, cmdBufferIdx: nat, lastUsedFrame: nat)
  {
    /** Each frame has as many pre-render command buffers as render command
        buffers, and the fence cursor is inside the ring. */
    ghost predicate Valid()
    {
      && |cmdBuffers| == |preCmdBuffers|
      && (forall f :: 0 <= f < |cmdBuffers| ==> |cmdBuffers[f]| == |preCmdBuffers[f]|)
      && fenceIdx < |fences|
    }

    /** There is a pool for each of the `frames` frames in flight, and while
        the target is used in the frame stamped `frameTimestamp` its slot
        cursor never passes the end of the pool of `frame`. */
    ghost predicate Fits(frames: nat, frame: nat, frameTimestamp: nat)
    {
      && Valid()
      && frame < frames == |cmdBuffers|
      && (lastUsedFrame == frameTimestamp ==> cmdBufferIdx <= |cmdBuffers[frame]|)
    }

    /** Every command buffer and fence held is a non-null handle below
        `bound`, and no fence occurs twice in the ring: all of them were
        allocated before the handle counter reached `bound`. */
    ghost predicate FreshBelow(bound: Handle)
    {
      && PoolsBelow(cmdBuffers, bound)
      && PoolsBelow(preCmdBuffers, bound)
      && (forall j :: 0 <= j < |fences| ==> 0 < fences[j] < bound)
      && Distinct(fences)
    }

    /** The slot `start_recording` takes in the frame stamped
        `frameTimestamp`: 0 in a new frame, the cursor otherwise. */
    function SlotFor(frameTimestamp: nat): nat
    {
      if lastUsedFrame != frameTimestamp then 0 else cmdBufferIdx
    }

    /** Whether every slot of `frame` is taken, so that the pools must grow. */
    predicate GrowsFor(frame: nat, frameTimestamp: nat)
      requires frame < |cmdBuffers|
    {
      SlotFor(frameTimestamp) == |cmdBuffers[frame]|
    }

    /** The render command buffer of the slot taken: the one in the pool, or
        the new one `h` when the pools grow. */
    function CmdFor(frame: nat, frameTimestamp: nat, h: Handle): Handle
      requires Fits(|cmdBuffers|, frame, frameTimestamp)
    {
      if GrowsFor(frame, frameTimestamp) then h else cmdBuffers[frame][SlotFor(frameTimestamp)]
    }

    /** The pre-render command buffer of the slot taken: the one in the
        pool, or the new one `h + 1` when the pools grow. */
    function PreCmdFor(frame: nat, frameTimestamp: nat, h: Handle): Handle
      requires Fits(|cmdBuffers|, frame, frameTimestamp)
    {
      if GrowsFor(frame, frameTimestamp) then h + 1 else preCmdBuffers[frame][SlotFor(frameTimestamp)]
    }

    /** The safety growth of `start_recording`: one more render command
        buffer `h` and pre-render command buffer `h + 1` for `frame`, and the
        new fence `h + 2` inserted at the cursor, so that it is the next one
        submitted. The pools stay paired and every other frame's pools and
        every other fence keep their place. */
    function Grown(frame: nat, h: Handle): (s: Slots)
      requires Valid() && frame < |cmdBuffers|
      ensures s.Valid() && |s.cmdBuffers| == |cmdBuffers| && |s.fences| == |fences| + 1
      ensures |s.cmdBuffers[frame]| == |cmdBuffers[frame]| + 1
      ensures forall f :: 0 <= f < |cmdBuffers| && f != frame ==> s.cmdBuffers[f] == cmdBuffers[f]
      ensures forall f :: 0 <= f < |preCmdBuffers| && f != frame ==> s.preCmdBuffers[f] == preCmdBuffers[f]
      ensures s.cmdBuffers[frame] == cmdBuffers[frame] + [h]
      ensures s.preCmdBuffers[frame] == preCmdBuffers[frame] + [h + 1]
      ensures s.fences[fenceIdx] == h + 2
      ensures s.fences[..fenceIdx] == fences[..fenceIdx] && s.fences[fenceIdx + 1..] == fences[fenceIdx..]
      ensures (s.fenceIdx, s.cmdBufferIdx, s.lastUsedFrame) == (fenceIdx, cmdBufferIdx, lastUsedFrame)
    {
      var r := this.(cmdBuffers := cmdBuffers[frame := cmdBuffers[frame] + [h]],
                     preCmdBuffers := preCmdBuffers[frame := preCmdBuffers[frame] + [h + 1]],
                     fences := Inserted(fences, fenceIdx, h + 2));
      InsertedPositions(fences, fenceIdx, h + 2);
      assert r.fences[..fenceIdx] == fences[..fenceIdx];
      assert r.fences[fenceIdx + 1..] == fences[fenceIdx..];
      r
    }

    /** What taking a slot of `frame` leaves behind, with the handles from
        `h` on for a growth: the pools grown exactly when every slot is
        taken, and the cursor one past the slot in the frame stamped
        `frameTimestamp`. The slot is inside both pools and holds the command
        buffers `CmdFor` and `PreCmdFor` name; the fence cursor stays. */
    function Took(frame: nat, frameTimestamp: nat, h: Handle): (s: Slots)
      requires Fits(|cmdBuffers|, frame, frameTimestamp)
      ensures s.Fits(|cmdBuffers|, frame, frameTimestamp)
      ensures s.lastUsedFrame == frameTimestamp && s.cmdBufferIdx == SlotFor(frameTimestamp) + 1
      ensures s.fenceIdx == fenceIdx
      ensures SlotFor(frameTimestamp) < |s.cmdBuffers[frame]|
      ensures s.cmdBuffers[frame][SlotFor(frameTimestamp)] == CmdFor(frame, frameTimestamp, h)
      ensures s.preCmdBuffers[frame][SlotFor(frameTimestamp)] == PreCmdFor(frame, frameTimestamp, h)
      ensures !GrowsFor(frame, frameTimestamp) ==>
        (s.cmdBuffers, s.preCmdBuffers, s.fences) == (cmdBuffers, preCmdBuffers, fences)
    {
      var pools := if GrowsFor(frame, frameTimestamp) then Grown(frame, h) else this;
      pools.(cmdBufferIdx := SlotFor(frameTimestamp) + 1, lastUsedFrame := frameTimestamp)
    }
  }

  /** Every handle in the pools lies strictly between 0 and `bound`. */
  ghost predicate PoolsBelow(pools: seq<seq<Handle>>, bound: Handle)
  {
    forall f, j :: 0 <= f < |pools| && 0 <= j < |pools[f]| ==> 0 < pools[f][j] < bound
  }

  /** Appending a new handle `x` to the pool of one frame keeps every handle
      below a bound above `x`. */
  lemma AppendedBelow(pools: seq<seq<Handle>>, frame: nat, x: Handle, bound: Handle, bound': Handle)
    requires frame < |pools| && PoolsBelow(pools, bound) && bound <= bound' && 0 < x < bound'
    ensures PoolsBelow(pools[frame := pools[frame] + [x]], bound')
  {
    var after := pools[frame := pools[frame] + [x]];
    forall f, j | 0 <= f < |after| && 0 <= j < |after[f]|
      ensures 0 < after[f][j] < bound'
    {
      if f == frame && j == |pools[f]| {
        assert after[f][j] == x;
      } else {
        assert after[f][j] == pools[f][j];
      }
    }
  }

  /** A growth with the new handles `h`, `h + 1` and `h + 2`, where every
      handle the target holds is below `h`, keeps every handle below
      `h + 3` and the ring without duplicates. */
  lemma GrownStaysFresh(before: Slots, frame: nat, h: Handle)
    requires before.Valid() && frame < |before.cmdBuffers| && 0 < h && before.FreshBelow(h)
    ensures before.Grown(frame, h).FreshBelow(h + 3)
  {
    var after := before.Grown(frame, h);
    AppendedBelow(before.cmdBuffers, frame, h, h, h + 3);
    AppendedBelow(before.preCmdBuffers, frame, h + 1, h, h + 3);
    assert after.fences == Inserted(before.fences, before.fenceIdx, h + 2);
    InsertedPositions(before.fences, before.fenceIdx, h + 2);
    InsertedDistinct(before.fences, before.fenceIdx, h + 2);
    assert forall x :: x in after.fences ==> x in before.fences || x == h + 2;
  }

  /** Taking a slot with the new handles from `h` on, where every handle
      the target holds is below `h`: a growth's fence `h + 2` is not in the
      ring yet, and afterwards every handle is below the counter's next
      value and the ring is still without duplicates. */
  lemma TookStaysFresh(before: Slots, frame: nat, frameTimestamp: nat, h: Handle)
    requires before.Fits(|before.cmdBuffers|, frame, frameTimestamp) && 0 < h && before.FreshBelow(h)
    ensures before.GrowsFor(frame, frameTimestamp) ==> h + 2 !in before.fences
    ensures before.Took(frame, frameTimestamp, h).FreshBelow(h + if before.GrowsFor(frame, frameTimestamp) then 3 else 0)
  {
    var after := before.Took(frame, frameTimestamp, h);
    if before.GrowsFor(frame, frameTimestamp) {
      GrownStaysFresh(before, frame, h);
      var grown := before.Grown(frame, h);
      assert (after.cmdBuffers, after.preCmdBuffers, after.fences) == (grown.cmdBuffers, grown.preCmdBuffers, grown.fences);
    }
  }

  /** A render target (`VKRenderTarget`): its slot bookkeeping as fields the
      recording updates in place, and its extent. */
  class RenderTarget {
    var cmdBuffers: seq<seq<Handle>>
    var preCmdBuffers: seq<seq<Handle>>
    var fences: seq<Handle>
    var fenceIdx: nat
    var cmdBufferIdx: nat
    var lastUsedFrame: nat
    var width: nat
    var height: nat
    const multisampleMode: bool
    const maskView: Handle

    /** The slot bookkeeping as a value. */
    function Snapshot(): Slots
      reads this`cmdBuffers, this`preCmdBuffers, this`fences, this`fenceIdx
      reads this`cmdBufferIdx, this`lastUsedFrame
    {
      Slots(cmdBuffers, preCmdBuffers, fences, fenceIdx, cmdBufferIdx, lastUsedFrame)
    }

    /** The target fits `frames` frames in flight while used in `frame`,
        as `Slots.Fits` states of its bookkeeping. */
    ghost predicate Fits(frames: nat, frame: nat, frameTimestamp: nat)
      reads this`cmdBuffers, this`preCmdBuffers, this`fences, this`fenceIdx
      reads this`cmdBufferIdx, this`lastUsedFrame
    {
      Snapshot().Fits(frames, frame, frameTimestamp)
    }

    constructor (cmdBuffers: seq<seq<Handle>>, preCmdBuffers: seq<seq<Handle>>, fences: seq<Handle>,
                 width: nat, height: nat, multisampleMode: bool, maskView: Handle)
      requires |cmdBuffers| == |preCmdBuffers|
      requires forall f :: 0 <= f < |cmdBuffers| ==> |cmdBuffers[f]| == |preCmdBuffers[f]|
      requires |fences| > 0
      ensures Snapshot().Valid()
      ensures Snapshot() == Slots(cmdBuffers, preCmdBuffers, fences, 0, 0, 0)
      ensures this.width == width && this.height == height
      ensures this.multisampleMode == multisampleMode && this.maskView == maskView
    {
      this.cmdBuffers, this.preCmdBuffers, this.fences := cmdBuffers, preCmdBuffers, fences;
      fenceIdx, cmdBufferIdx, lastUsedFrame := 0, 0, 0;
      this.width, this.height := width, height;
      this.multisampleMode, this.maskView := multisampleMode, maskView;
    }

    /** `start_recording`'s pool growth, in place. */
    method GrowPools(frame: nat, h: Handle)
      requires Snapshot().Valid() && frame < |cmdBuffers|
      modifies this`cmdBuffers, this`preCmdBuffers, this`fences
      ensures Snapshot() == old(Snapshot()).Grown(frame, h)
    {
      cmdBuffers := cmdBuffers[frame := cmdBuffers[frame] + [h]];
      preCmdBuffers := preCmdBuffers[frame := preCmdBuffers[frame] + [h + 1]];
      fences := Inserted(fences, fenceIdx, h + 2);
    }

    /** The slot bookkeeping of `start_recording`, in place: the slot handed
        out and whether the pools grew, and the bookkeeping `Slots.Took`
        describes. */
    method TakeSlot(frames: nat, frame: nat, frameTimestamp: nat, h: Handle) returns (slot: nat, grown: bool)
      requires Fits(frames, frame, frameTimestamp)
      modifies this`cmdBuffers, this`preCmdBuffers, this`fences, this`cmdBufferIdx, this`lastUsedFrame
      ensures Fits(frames, frame, frameTimestamp)
      ensures slot == old(Snapshot().SlotFor(frameTimestamp)) && grown == old(Snapshot().GrowsFor(frame, frameTimestamp))
      ensures Snapshot() == old(Snapshot()).Took(frame, frameTimestamp, h)
    {
      if lastUsedFrame != frameTimestamp {
        cmdBufferIdx, lastUsedFrame := 0, frameTimestamp;
      }
      slot := cmdBufferIdx;
      grown := slot == |cmdBuffers[frame]|;
      if grown {
        GrowPools(frame, h);
      }
      cmdBufferIdx := slot + 1;
    }

    /** The fence a submission signals: the one at the cursor, which then
        moves one step round the ring. */
    method NextFence(frames: nat, frame: nat, frameTimestamp: nat) returns (fence: Handle)
      requires Fits(frames, frame, frameTimestamp)
      modifies this`fenceIdx
      ensures Fits(frames, frame, frameTimestamp)
      ensures fence == fences[old(fenceIdx)]
      ensures fenceIdx == Advanced(old(fenceIdx), |fences|)
    {
      fence := fences[fenceIdx];
      fenceIdx := fenceIdx + 1;
      if fenceIdx == |fences| {
        fenceIdx := 0;
      }
    }

    /** The multi-sample emulation of `set_context`: twice the extent. */
    method DoubleExtent()
      modifies this`width, this`height
      ensures width == Doubled(old(width)) && height == Doubled(old(height))
    {
      width, height := Doubled(width), Doubled(height);
    }

    /** `stop_recording` undoing `DoubleExtent`. */
    method HalveExtent()
      modifies this`width, this`height
      ensures width == Halved(old(width)) && height == Halved(old(height))
    {
      width, height := Halved(width), Halved(height);
    }
  }
}
