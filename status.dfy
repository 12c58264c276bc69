/**
 * The frame status record: per-frame bookkeeping shared by every pass of a
 * frame, and the ping-pong state that says which of the two textures the next
 * filter pass reads.
 */
module AboutStatus {
  import opened Gpu

  /**
   * `FtT2`: no pass of this frame has run yet ("from the source image to
   * texture 2"); `F1T2`: the next filter reads texture 1 and writes texture 2;
   * `F2T1`: the reverse.
   */
  datatype PinPongStatus = FtT2 | F1T2 | F2T1 {
    /** The states a filter pass may find: the chain has been seeded. */
    predicate MidChain() { this != FtT2 }
  }

  /** `Status` without its start instant, which belongs to the clock and is left out. */
  datatype Status = Status(
    bufferSize: nat,
    frameLen: U32,
    frameRate: U32,
    elapsedFrame: U32,
    nextFrameIndex: U32,
    pingPong: PinPongStatus)

  /** Number of u32 words in the per-frame status upload. */
  const StatusWordCount: nat := 5

  /**
   * What every status the program holds satisfies: the frame index can be
   * reduced modulo `frameLen`, it is already reduced, and the copy size matches
   * the status upload.
   */
  predicate Invariant(s: Status) {
    && s.frameLen > 0
    && s.nextFrameIndex < s.frameLen
    && s.bufferSize == WordBytes * StatusWordCount
  }

  /** `Status::new`. */
  function New(): (s: Status)
    ensures Invariant(s)
    ensures s.elapsedFrame == 0 && s.pingPong == FtT2
  {
    Status(
      bufferSize := 20,
      frameLen := 200,
      frameRate := 60,
      elapsedFrame := 0,
      nextFrameIndex := 0,
      pingPong := FtT2)
  }

  /** The frame index for a time-derived frame count: the count reduced modulo `frameLen`. */
  function FrameIndex(count: U32, frameLen: U32): (r: U32)
    requires frameLen > 0
    ensures r < frameLen
    ensures (count / frameLen) * frameLen + r == count
    ensures count < frameLen ==> r == count
  {
    var r := count % frameLen;
    assert count == (count / frameLen) * frameLen + r;
    r
  }
}
