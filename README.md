# Frame orchestration of a ping-pong compute-shader viewer

This project models, in Dafny, the per-frame orchestration of a small wgpu/winit
program that runs an image through a chain of compute kernels and blits the
result to a window. The graphics API is treated as opaque handles. Everything the
program asks of the surface, the queue and the window is recorded in order, in a
log of effects: `Configure`, `Submit(commands)`, `Present` and `RequestRedraw`.
A command encoder becomes a sequence of `Command`s: a buffer copy, a compute
dispatch, or a draw.

- `gpu.dfy` (module `Gpu`): handles, 32-bit words, commands, effects, surface
  errors. It also holds the workgroup arithmetic of a dispatch: one 16×16 tile
  per workgroup, rounded down.
- `status.dfy` (module `AboutStatus`, from `src/status.rs`): the three-state
  `PinPongStatus`, the `Status` record, `Status::new`, and the invariant every
  status keeps. The frame length is positive, the frame index is below it, and
  the copy size is 4 bytes per uploaded word.
- `model.dfy` (module `DefineModel`, from `src/model.rs`): the multi-kernel
  `Model` as a class. `UpdatePre` reduces a time-derived count modulo
  `frameLen`. `UpdatePost` counts the frame and resets the ping-pong state.
  `Resize` is guarded against zero-area sizes. `Render` is a `for` loop over the
  filter pipelines, proved against `FrameCommands`. Pure lemmas cover parity,
  bind-group alternation and command order. The panic arm of the ping-pong
  `match` is an `assert false` that the loop invariant makes unreachable.
- `app.dfy` (module `App`, from `src/lib.rs`): the single-kernel `Model` and the
  event-loop closure of `run`. The closure is a class `Runner` whose
  `HandleEvent` is proved against a pure `Step` function. Lemmas about `Step`
  and about `Run`, which folds `Step` over a sequence of events, cover the
  `surface_configured` gate, the surface-error policy and the exit conditions.

Inputs from outside the program are parameters:
- the answer of `get_current_texture` is an `Acquire` value;
- the time-derived frame count of `update_pre` is an abstract `U32`;
- the `f32` time bits of the single-kernel upload are an abstract `U32`;
- window events are an `Event` datatype.

## Notes on the code

- The seed pass sets `ping_pong` to `F1T2` unconditionally (src/model.rs:203); only filter passes flip it. After `k` filters the state is `F1T2` for even `k` and `F2T1` for odd `k`.
- `resize` reconfigures the surface only; the textures and bind groups keep their creation size (src/model.rs:170-177, src/lib.rs:378-385).
- The fifth status word is `0f32.to_bits()`, which is 0 (src/model.rs:185).
- `elapsed_frame` is advanced only by `update_post` (src/model.rs:165).

## Model

| member | source | states |
|---|---|---|
| Gpu.WrappingInc | src/model.rs:165 | `elapsed_frame += 1` on a u32 adds one, and wraps from 2^32-1 to 0 |
| Gpu.Pass | src/model.rs:205 | a compute pass is one dispatch of the given pipeline with the given bind group, with `z = 1` |
| Gpu.PassRoundsDown | src/model.rs:205 | a dispatch of `(width/16, height/16, 1)` covers the largest whole number of 16×16 tiles; the uncovered border is under 16 pixels |
| AboutStatus.New | src/status.rs:22-40 | the initial status keeps the status invariant: frame length positive, frame index below it, 20-byte copy = 4 × 5 words; it also has no counted frames and state `FtT2` |
| AboutStatus.Invariant | src/status.rs:24-28 | what every status satisfies: `frame_len > 0`, `next_frame_index < frame_len`, `buffer_size` = 4 × 5 words |
| AboutStatus.FrameIndex | src/model.rs:161 | the frame index is below `frame_len`, is the remainder of the count after whole multiples of `frame_len`, and equals the count when the count is already below it |
| DefineModel.Flip | src/model.rs:214-226 | a filter pass only accepts `F1T2` or `F2T1` and leaves the other one of the two |
| DefineModel.FilterBindGroup | src/model.rs:214-224 | a filter binds one of the two groups; with distinct groups it binds the even one exactly when it finds `F2T1` |
| DefineModel.ChainState | src/model.rs:203-229 | the state after the seed and any number of filters is never `FtT2`, which makes the panic arm unreachable |
| DefineModel.ChainStateParity | src/model.rs:203-229 | after `k` filters the state is `F1T2` when `k` is even and `F2T1` when `k` is odd, whatever it was on entry |
| DefineModel.FilterBindGroupParity | src/model.rs:214-224 | filter `i` (from 0) binds `bindgroup_odd` when `i` is even and `bindgroup_even` when `i` is odd |
| DefineModel.StatusWords | src/model.rs:185 | the upload is five words `[width, height, next_frame_index, 0, 0]` |
| DefineModel.FilterPasses | src/model.rs:209-229 | there is one dispatch per filter pipeline |
| DefineModel.FrameCommands | src/model.rs:193-252 | a frame records three commands more than there are filter pipelines: copy, seed, one per filter, blit |
| DefineModel.FrameCommandsShape | src/model.rs:193-252 | a frame records one copy of `buffer_size` = 4 × 5 bytes of the status words, then the seed dispatch with `bindgroup_even`, then one dispatch per filter in chain order, filter `i` binding `bindgroup_odd` for even `i` and `bindgroup_even` for odd `i`, each of `(w/16, h/16, 1)`, then one draw of 3 vertices and 2 instances onto the acquired texture |
| DefineModel.FrameBindGroupSequence | src/model.rs:201-224 | the compute passes of a frame bind even, odd, even, … |
| DefineModel.FrameBindGroupsAlternate | src/model.rs:201-224 | when the two groups differ, consecutive compute passes never bind the same group |
| DefineModel.Model.constructor | src/model.rs:83-97 | the surface is configured once at the window size and the status is `Status::new()` |
| DefineModel.Model.UpdatePre | src/model.rs:156-162 | only `next_frame_index` changes; it becomes the count reduced modulo `frame_len`, so it stays below `frame_len` |
| DefineModel.Model.UpdatePost | src/model.rs:164-168 | `elapsed_frame` goes up by one (wrapping) and `ping_pong` becomes `FtT2`; no other field changes |
| DefineModel.Model.Resize | src/model.rs:170-177 | a size with area is adopted by the size and the configuration, and the surface is configured once; otherwise nothing changes |
| DefineModel.Model.Render | src/model.rs:179-259 | a failed acquisition returns its error and changes nothing; otherwise exactly one submit of `FrameCommands` is followed by one present, and `ping_pong` ends at the chain's end state |
| App.ConfigWords | src/lib.rs:393-394 | the upload is `[width, height, time bits]`, three words = `BUFFER_SIZE` = 12 bytes |
| App.FrameCommands | src/lib.rs:400-429 | a frame records exactly three commands: a copy of the words `[width, height, time bits]` (`BUFFER_SIZE` bytes) into the config buffer, one dispatch of the compute pipeline and bind group of `(w/16, h/16, 1)`, and one draw of the render pipeline and bind group, 3 vertices and 2 instances, onto the acquired texture |
| App.AfterResize | src/lib.rs:378-385 | a size with area is adopted by the size and the configuration and the surface is configured once; a zero dimension changes nothing |
| App.AfterRender | src/lib.rs:387-435 | size and configuration stay; the result is `Ok` exactly when a texture was acquired; a failure returns its error and records nothing; a success records one submit of the frame's commands, then one present |
| App.ResizeKeepsSync | src/lib.rs:378-385 | a resize keeps the surface configuration equal to the window size |
| App.ResizeToCurrentSize | src/lib.rs:378-385 | resizing to the current size changes neither the size nor the configuration |
| App.Model.constructor | src/lib.rs:88-99 | the surface is configured once at the window size |
| App.Model.Resize | src/lib.rs:378-385 | the new state is the resize guard applied to the old one |
| App.Model.Render | src/lib.rs:387-435 | a failed acquisition returns its error and records nothing; otherwise one submit of the frame's commands, then one present |
| App.Model.RequestRedraw | src/lib.rs:486 | one redraw request is appended to the log |
| App.ErrorAction | src/lib.rs:493-509 | Lost and Outdated (and only they) reconfigure, OutOfMemory (and only it) exits, Timeout (and only it) skips |
| App.Redraw | src/lib.rs:484-509 | a redraw first requests the next frame, keeps `surface_configured`, and requests exit exactly when the surface is configured and runs out of memory |
| App.Step | src/lib.rs:460-517 | one event never clears `surface_configured` or an exit request, and only appends to the record of calls |
| App.Run | src/lib.rs:459-518 | the same holds for any sequence of events |
| App.ExitExactly | src/lib.rs:469-478 | exit is requested exactly on CloseRequested, a pressed Escape, or OutOfMemory while rendering, and it stays requested |
| App.ForeignEventsIgnored | src/lib.rs:462-465 | events of another window, and non-window events, change nothing |
| App.ResizedConfigures | src/lib.rs:479-483 | `Resized` sets `surface_configured` and applies the resize guard |
| App.RedrawBeforeConfigured | src/lib.rs:484-490 | a redraw before the surface is configured only requests the next frame and never renders |
| App.RedrawSubmitsFrame | src/lib.rs:484-494 | a configured redraw with a texture submits the frame's commands once and presents the texture |
| App.StaleSurfaceReconfigures | src/lib.rs:496-498 | Lost or Outdated reconfigures at the current size; the size and configuration stay and no exit is requested |
| App.OutOfMemoryExits | src/lib.rs:500-503 | OutOfMemory requests exit and records nothing but the redraw request |
| App.TimeoutSkipsFrame | src/lib.rs:506-508 | Timeout changes nothing but the redraw request and does not exit |
| App.StepKeepsSync | src/lib.rs:461-516 | every event keeps the surface configuration equal to the window size |
| App.RunKeepsSync | src/lib.rs:459-518 | so does every sequence of events |
| App.NoFrameBeforeResized | src/lib.rs:457-490 | until the first `Resized`, no sequence of events renders: the surface stays unconfigured, size and configuration stay, and only redraw requests are made |
| App.TwoResizes | src/lib.rs:479-483 | resizing to 800×600 and then to 1920×1080 configures the surface twice, each time at the new size |
| App.Runner.constructor | src/lib.rs:457 | the loop starts with `surface_configured` false |
| App.Runner.HandleEvent | src/lib.rs:460-517 | handling an event moves the closure's state exactly as `Step` says |

## Left out

- Device, adapter, surface and pipeline creation, shader modules, bind-group layouts, samplers and textures in every `Model::new`: these are calls into the graphics API. Their products are opaque ids given to the constructors.
- Image decoding, `queue.write_texture` and icon loading: these are I/O and library calls.
- The `f32` time term `0.5 + elapsed_micros * 1e-6` and its casts: this is floating point and the clock. The count it yields (after the saturating `as u32`) and its bit pattern are abstract `U32` inputs.
- `start_time` in `Status`: it is a reading of the clock.
- The clear colour of the render pass and the sampler settings: they have no bearing on the orchestration.
- `Model::input` always returns false and `update` in `src/lib.rs` is empty, so the closure never skips an event on account of them. The model leaves both calls out.
- The log level of the messages in the closure: logging only.
- The caller of the multi-kernel `Model` in `src/model.rs` is not part of this model. Its operations are modelled one by one, and the per-frame order update_pre → render → update_post is not composed.
- `src/main.rs`: it is an earlier single-kernel draft that `src/lib.rs` covers.
- `async`/`await` and the winit event-loop machinery. The closure body is modelled as one step per event. Exit is recorded as a flag, and what winit does after an exit request is not modelled.
- DefineModel.Model.UpdatePost: models the wrap-around of a release build. A debug build would panic on overflow instead.
