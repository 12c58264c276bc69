/**
 * The boundary with the graphics API and the window system.
 *
 * Devices, queues, surfaces, pipelines, bind groups, buffers and textures are
 * opaque handles here. What the core does with them is recorded: a command
 * encoder becomes a sequence of `Command`s, and the calls made on the surface,
 * the queue and the window become an ordered log of `Effect`s.
 */
module Gpu {

  /** An unsigned 32-bit word: the width of window sizes and of uploaded uniform words. */
  type U32 = x: int | 0 <= x < 0x1_0000_0000

  /** Bytes per uploaded word. */
  const WordBytes: nat := 4

  /** Side of the square workgroup tile that every compute kernel is dispatched over. */
  const TileSize: nat := 16

  /** `x += 1` on a u32, with the wrap-around of a release build. */
  function WrappingInc(x: U32): (r: U32)
    ensures x < 0xFFFF_FFFF ==> r == x + 1
    ensures x == 0xFFFF_FFFF ==> r == 0
  {
    (x + 1) % 0x1_0000_0000
  }

  datatype PipelineId = PipelineId(id: nat)
  datatype BindGroupId = BindGroupId(id: nat)
  datatype BufferId = BufferId(id: nat)
  datatype TextureId = TextureId(id: nat)

  /** A physical window size in pixels. */
  datatype Size = Size(width: U32, height: U32) {
    /** A size that is not minimised: both dimensions are positive. */
    predicate HasArea() { width > 0 && height > 0 }
  }

  /** The width and height of a surface configuration (its other settings never change). */
  datatype SurfaceConfig = SurfaceConfig(width: U32, height: U32)

  /** A command recorded into a command encoder. */
  datatype Command =
      /** A copy of a freshly initialised host buffer holding `words` into `destination`. */
    | CopyBufferToBuffer(words: seq<U32>, destination: BufferId, bytes: nat)
      /** A compute pass: one pipeline, one bind group at slot 0, one dispatch. */
    | Dispatch(pipeline: PipelineId, bindGroup: BindGroupId, x: U32, y: U32, z: U32)
      /** A render pass onto `target` drawing vertices 0..vertices, instances 0..instances. */
    | Draw(pipeline: PipelineId, bindGroup: BindGroupId, target: TextureId, vertices: nat, instances: nat)

  /** A call made on the surface, the queue or the window. */
  datatype Effect =
    | Configure(config: SurfaceConfig)
    | Submit(commands: seq<Command>)
    | Present(texture: TextureId)
    | RequestRedraw

  /** The ways acquiring the surface's current texture can fail. */
  datatype SurfaceError = Timeout | Outdated | Lost | OutOfMemory

  /** What the surface answers when the current texture is requested. */
  datatype Acquire = Acquired(texture: TextureId) | Failed(error: SurfaceError)

  /** `Result<(), SurfaceError>`. */
  datatype RenderResult = Ok | Err(error: SurfaceError)

  /** The compute pass that runs `pipeline` with `bindGroup` over a `size` surface, one tile per workgroup. */
  function Pass(pipeline: PipelineId, bindGroup: BindGroupId, size: Size): (c: Command)
    ensures c.Dispatch? && c.pipeline == pipeline && c.bindGroup == bindGroup && c.z == 1
  {
    Dispatch(pipeline, bindGroup, size.width / TileSize, size.height / TileSize, 1)
  }

  /**
   * A pass covers the largest whole number of tiles that fits the surface: a
   * dimension that is not a multiple of the tile is rounded down, leaving a
   * border of fewer than `TileSize` pixels untouched.
   */
  lemma PassRoundsDown(pipeline: PipelineId, bindGroup: BindGroupId, size: Size)
    ensures var c := Pass(pipeline, bindGroup, size);
      && c.x * TileSize <= size.width < (c.x + 1) * TileSize
      && c.y * TileSize <= size.height < (c.y + 1) * TileSize
      && c.z == 1
  {
  }
}
