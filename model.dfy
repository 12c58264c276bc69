/**
 * The multi-kernel model: per-frame status updates, the resize guard, and a
 * render that uploads the status words, seeds the chain, runs every filter
 * pipeline alternating the two bind groups, blits, submits once and presents.
 */
module DefineModel {
  import opened Gpu
  import opened AboutStatus

  /** The compute side's handles: the seed pipeline, the filter chain, the two bind groups and the status buffer. */
  datatype ComputeModel = ComputeModel(
    pipelineInit: PipelineId,
    pipelines: seq<PipelineId>,
    bindgroupEven: BindGroupId,
    bindgroupOdd: BindGroupId,
    statusBuffer: BufferId)

  /** The blit stage's handles. */
  datatype RenderModel = RenderModel(pipeline: PipelineId, bindgroup: BindGroupId)

  /** The transition a filter pass makes; it is undefined on `FtT2`. */
  function Flip(p: PinPongStatus): (r: PinPongStatus)
    requires p.MidChain()
    ensures r.MidChain() && r != p
  {
    if p == F2T1 then F1T2 else F2T1
  }

  /** The bind group a filter pass binds when it finds the ping-pong state `p`. */
  function FilterBindGroup(c: ComputeModel, p: PinPongStatus): (g: BindGroupId)
    requires p.MidChain()
    ensures g == c.bindgroupEven || g == c.bindgroupOdd
    ensures c.bindgroupEven != c.bindgroupOdd ==> (g == c.bindgroupEven <==> p == F2T1)
  {
    if p == F2T1 then c.bindgroupEven else c.bindgroupOdd
  }

  /** The ping-pong state after the seed pass and `k` filter passes. */
  function ChainState(k: nat): (p: PinPongStatus)
    ensures p.MidChain()
  {
    if k == 0 then F1T2 else Flip(ChainState(k - 1))
  }

  /** The state after `k` filters depends only on the parity of `k`. */
  lemma {:induction false} ChainStateParity(k: nat)
    ensures ChainState(k) == if k % 2 == 0 then F1T2 else F2T1
  {
    if k > 0 {
      ChainStateParity(k - 1);
    }
  }

  /** Filter `i` (from 0) binds the odd group when `i` is even and the even group when `i` is odd. */
  lemma FilterBindGroupParity(c: ComputeModel, i: nat)
    ensures FilterBindGroup(c, ChainState(i)) == if i % 2 == 0 then c.bindgroupOdd else c.bindgroupEven
  {
  }

  /** The words uploaded each frame; the last is the bit pattern of the float 0.0. */
  function StatusWords(size: Size, nextFrameIndex: U32): (w: seq<U32>)
    ensures |w| == StatusWordCount
    ensures w[0] == size.width && w[1] == size.height && w[2] == nextFrameIndex
    ensures w[3] == 0 && w[4] == 0
  {
    [size.width, size.height, nextFrameIndex, 0, 0]
  }

  /** The dispatches of the filter chain, filter `i` finding the state `ChainState(i)`. */
  function FilterPasses(c: ComputeModel, size: Size): (s: seq<Command>)
    ensures |s| == |c.pipelines|
  {
    seq(|c.pipelines|, i requires 0 <= i < |c.pipelines| =>
      Pass(c.pipelines[i], FilterBindGroup(c, ChainState(i)), size))
  }

  /** Everything one successful render records into its encoder, in order. */
  function FrameCommands(c: ComputeModel, r: RenderModel, size: Size, status: Status, target: TextureId): (cmds: seq<Command>)
    ensures |cmds| == |c.pipelines| + 3
  {
    [CopyBufferToBuffer(StatusWords(size, status.nextFrameIndex), c.statusBuffer, status.bufferSize),
     Pass(c.pipelineInit, c.bindgroupEven, size)]
    + FilterPasses(c, size)
    + [Draw(r.pipeline, r.bindgroup, target, 3, 2)]
  }

  /**
   * The order of a frame's commands: one copy of the status words, whose size
   * matches the upload; then the seed pass and one pass per filter, in chain
   * order, each over the whole surface, filter `i` binding the odd group when
   * `i` is even and the even group when `i` is odd; then the blit onto the
   * acquired target.
   */
  lemma FrameCommandsShape(c: ComputeModel, r: RenderModel, size: Size, status: Status, target: TextureId)
    requires Invariant(status)
    ensures var cmds := FrameCommands(c, r, size, status, target);
      && |cmds| == |c.pipelines| + 3
      && cmds[0] == CopyBufferToBuffer(StatusWords(size, status.nextFrameIndex), c.statusBuffer, status.bufferSize)
      && cmds[0].bytes == WordBytes * |cmds[0].words|
      && cmds[1] == Pass(c.pipelineInit, c.bindgroupEven, size)
      && (forall i :: 0 <= i < |c.pipelines| ==>
            cmds[i + 2] == Pass(c.pipelines[i], if i % 2 == 0 then c.bindgroupOdd else c.bindgroupEven, size))
      && cmds[|cmds| - 1] == Draw(r.pipeline, r.bindgroup, target, 3, 2)
  {
    var cmds := FrameCommands(c, r, size, status, target);
    assert cmds[2..|cmds| - 1] == FilterPasses(c, size);
    forall i | 0 <= i < |c.pipelines|
      ensures cmds[i + 2] == Pass(c.pipelines[i], if i % 2 == 0 then c.bindgroupOdd else c.bindgroupEven, size)
    {
      assert cmds[i + 2] == FilterPasses(c, size)[i];
      FilterBindGroupParity(c, i);
    }
  }

  /** The compute passes of a frame bind the even group, then the odd one, and so on alternately. */
  lemma FrameBindGroupSequence(c: ComputeModel, r: RenderModel, size: Size, status: Status, target: TextureId)
    ensures var cmds := FrameCommands(c, r, size, status, target);
      forall j :: 1 <= j < |cmds| - 1 ==>
        cmds[j].bindGroup == if j % 2 == 1 then c.bindgroupEven else c.bindgroupOdd
  {
    var cmds := FrameCommands(c, r, size, status, target);
    forall j | 2 <= j < |cmds| - 1
      ensures cmds[j].bindGroup == if j % 2 == 1 then c.bindgroupEven else c.bindgroupOdd
    {
      assert cmds[j] == FilterPasses(c, size)[j - 2];
      FilterBindGroupParity(c, j - 2);
    }
  }

  /** With two distinct groups, consecutive compute passes of a frame never bind the same one. */
  lemma FrameBindGroupsAlternate(c: ComputeModel, r: RenderModel, size: Size, status: Status, target: TextureId)
    requires c.bindgroupEven != c.bindgroupOdd
    ensures var cmds := FrameCommands(c, r, size, status, target);
      forall j :: 1 <= j < |cmds| - 2 ==> cmds[j].bindGroup != cmds[j + 1].bindGroup
  {
    FrameBindGroupSequence(c, r, size, status, target);
  }

  class Model {
    var size: Size
    var config: SurfaceConfig
    var status: Status
    const computeModel: ComputeModel
    const renderModel: RenderModel
    /** The calls made so far on the surface and the queue, in order. */
    var log: seq<Effect>

    /** The status keeps its invariant and the surface is configured at the window's size. */
    ghost predicate Valid()
      reads this
    {
      Invariant(status) && config == SurfaceConfig(size.width, size.height)
    }

    /** The bookkeeping part of `Model::new`: configure the surface at the window's size, fresh status. */
    constructor (windowSize: Size, computeModel: ComputeModel, renderModel: RenderModel)
      ensures Valid()
      ensures size == windowSize && status == New()
      ensures this.computeModel == computeModel && this.renderModel == renderModel
      ensures log == [Configure(config)]
    {
      size := windowSize;
      config := SurfaceConfig(windowSize.width, windowSize.height);
      status := New();
      this.computeModel := computeModel;
      this.renderModel := renderModel;
      log := [Configure(SurfaceConfig(windowSize.width, windowSize.height))];
    }

    /** Reduce the time-derived frame count modulo `frameLen` into `nextFrameIndex`. */
    method UpdatePre(count: U32)
      requires Valid()
      modifies this`status
      ensures Valid()
      ensures status == old(status).(nextFrameIndex := FrameIndex(count, old(status).frameLen))
      ensures status.nextFrameIndex < status.frameLen
    {
      status := status.(nextFrameIndex := count % status.frameLen);
    }

    /** Count the frame and reset the ping-pong state for the next one. */
    method UpdatePost()
      requires Valid()
      modifies this`status
      ensures Valid()
      ensures status == old(status).(elapsedFrame := WrappingInc(old(status).elapsedFrame), pingPong := FtT2)
    {
      status := status.(elapsedFrame := WrappingInc(status.elapsedFrame));
      status := status.(pingPong := FtT2);
    }

    /** Resize and reconfigure the surface, unless a dimension is zero (minimised window). */
    method Resize(newSize: Size)
      requires Valid()
      modifies this`size, this`config, this`log
      ensures Valid()
      ensures newSize.HasArea() ==>
        size == newSize && config == SurfaceConfig(newSize.width, newSize.height) && log == old(log) + [Configure(config)]
      ensures !newSize.HasArea() ==> size == old(size) && config == old(config) && log == old(log)
    {
      if newSize.width > 0 && newSize.height > 0 {
        size := newSize;
        config := config.(width := newSize.width);
        config := config.(height := newSize.height);
        log := log + [Configure(config)];
      }
    }

    /**
     * Render one frame. A failed acquisition returns its error before anything
     * else happens; otherwise the frame's commands are submitted once and the
     * texture presented, and the ping-pong state is left at the end of the chain.
     */
    method Render(acquire: Acquire) returns (r: RenderResult)
      requires Valid()
      modifies this`status, this`log
      ensures Valid()
      ensures acquire.Failed? ==> r == Err(acquire.error) && status == old(status) && log == old(log)
      ensures acquire.Acquired? ==> r == Ok
      ensures acquire.Acquired? ==>
        status == old(status).(pingPong := ChainState(|computeModel.pipelines|))
      ensures acquire.Acquired? ==>
        log == old(log) + [Submit(FrameCommands(computeModel, renderModel, size, old(status), acquire.texture)),
                           Present(acquire.texture)]
    {
      if acquire.Failed? {
        return Err(acquire.error);
      }
      var view := acquire.texture;
      var statusBufferData := [size.width, size.height, status.nextFrameIndex, 0, 0];
      var encoder := [CopyBufferToBuffer(statusBufferData, computeModel.statusBuffer, status.bufferSize)];

      // The seed pass always binds the even group and starts the chain at F1T2.
      status := status.(pingPong := F1T2);
      encoder := encoder + [Dispatch(computeModel.pipelineInit, computeModel.bindgroupEven,
                                     size.width / 16, size.height / 16, 1)];
      ghost var seeded := encoder;

      var pipelines := computeModel.pipelines;
      for i := 0 to |pipelines|
        invariant status == old(status).(pingPong := ChainState(i)) && log == old(log)
        invariant encoder == seeded + FilterPasses(computeModel, size)[..i]
      {
        var pipeline := pipelines[i];
        var bindGroup: BindGroupId;
        match status.pingPong {
          case F2T1 =>
            bindGroup := computeModel.bindgroupEven;
            status := status.(pingPong := F1T2);
          case F1T2 =>
            bindGroup := computeModel.bindgroupOdd;
            status := status.(pingPong := F2T1);
          case FtT2 =>
            // Unreachable: every filter finds the chain seeded.
            assert false;
        }
        encoder := encoder + [Dispatch(pipeline, bindGroup, size.width / 16, size.height / 16, 1)];
        assert ChainState(i + 1) == Flip(ChainState(i));
        assert FilterPasses(computeModel, size)[..i + 1] == FilterPasses(computeModel, size)[..i] + [FilterPasses(computeModel, size)[i]];
      }
      assert FilterPasses(computeModel, size)[..|pipelines|] == FilterPasses(computeModel, size);

      assert seeded == [CopyBufferToBuffer(StatusWords(size, old(status).nextFrameIndex), computeModel.statusBuffer, old(status).bufferSize),
                        Pass(computeModel.pipelineInit, computeModel.bindgroupEven, size)];
      encoder := encoder + [Draw(renderModel.pipeline, renderModel.bindgroup, view, 3, 2)];
      assert encoder == FrameCommands(computeModel, renderModel, size, old(status), view);
      log := log + [Submit(encoder), Present(view)];
      r := Ok;
    }
  }
}
