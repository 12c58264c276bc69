/**
 * The single-kernel application: its model (resize guard and a render that
 * uploads `[width, height, time bits]`, dispatches one kernel and blits), and
 * the event-loop closure of `run` as a state machine over window events.
 */
module App {
  import opened Gpu

  /** `BUFFER_SIZE`: bytes of the per-frame config upload. */
  const BufferSize: nat := 12

  /** The handles `Model::new` creates once: compute pipeline and bind group, config buffer, blit pipeline and bind group. */
  datatype Resources = Resources(
    computePipeline: PipelineId,
    computeBindgroup: BindGroupId,
    buffer: BufferId,
    renderPipeline: PipelineId,
    renderBindgroup: BindGroupId)

  /** The part of the model that events change: the window size, the surface configuration, the calls made so far. */
  datatype ModelState = ModelState(size: Size, config: SurfaceConfig, log: seq<Effect>)

  /** The surface is configured at the window's current size. */
  predicate InSync(m: ModelState) {
    m.config == SurfaceConfig(m.size.width, m.size.height)
  }

  /** The config words uploaded each frame; their byte count is `BUFFER_SIZE`. */
  function ConfigWords(size: Size, timeBits: U32): (w: seq<U32>)
    ensures WordBytes * |w| == BufferSize
    ensures w[0] == size.width && w[1] == size.height && w[2] == timeBits
  {
    [size.width, size.height, timeBits]
  }

  /** What one successful render records: the config copy, the one kernel over the surface, the blit. */
  function FrameCommands(res: Resources, size: Size, timeBits: U32, target: TextureId): (cmds: seq<Command>)
    ensures |cmds| == 3
    ensures cmds[0].CopyBufferToBuffer? && cmds[0].destination == res.buffer
    ensures cmds[0].words == ConfigWords(size, timeBits)
    ensures cmds[0].bytes == WordBytes * |cmds[0].words| == BufferSize
    ensures cmds[1] == Pass(res.computePipeline, res.computeBindgroup, size)
    ensures cmds[2] == Draw(res.renderPipeline, res.renderBindgroup, target, 3, 2)
  {
    [CopyBufferToBuffer(ConfigWords(size, timeBits), res.buffer, BufferSize),
     Pass(res.computePipeline, res.computeBindgroup, size),
     Draw(res.renderPipeline, res.renderBindgroup, target, 3, 2)]
  }

  /** `resize`: adopt and configure a size with area; ignore a zero dimension. */
  function AfterResize(m: ModelState, newSize: Size): (r: ModelState)
    ensures newSize.HasArea() ==>
      r.size == newSize && r.config == SurfaceConfig(newSize.width, newSize.height) && r.log == m.log + [Configure(r.config)]
    ensures !newSize.HasArea() ==> r == m
  {
    if newSize.HasArea() then
      var config := m.config.(width := newSize.width, height := newSize.height);
      ModelState(newSize, config, m.log + [Configure(config)])
    else
      m
  }

  /** `render`: a failed acquisition returns its error and records nothing. */
  function AfterRender(res: Resources, m: ModelState, acquire: Acquire, timeBits: U32): (r: (ModelState, RenderResult))
    ensures r.0.size == m.size && r.0.config == m.config
    ensures r.1.Ok? <==> acquire.Acquired?
    ensures acquire.Failed? ==> r == (m, Err(acquire.error))
    ensures acquire.Acquired? ==>
      r.0.log == m.log + [Submit(FrameCommands(res, m.size, timeBits, acquire.texture)), Present(acquire.texture)]
  {
    match acquire
    case Failed(e) => (m, Err(e))
    case Acquired(t) => (m.(log := m.log + [Submit(FrameCommands(res, m.size, timeBits, t)), Present(t)]), Ok)
  }

  /** A resize keeps the surface configured at the window's size. */
  lemma ResizeKeepsSync(m: ModelState, newSize: Size)
    requires InSync(m)
    ensures InSync(AfterResize(m, newSize))
  {
  }

  /**
   * Reconfiguring at the current size changes neither the size nor the
   * configuration; it only configures the surface again (if the size has area).
   */
  lemma ResizeToCurrentSize(m: ModelState)
    requires InSync(m)
    ensures var r := AfterResize(m, m.size);
      r.size == m.size && r.config == m.config &&
      r.log == m.log + (if m.size.HasArea() then [Configure(m.config)] else [])
  {
  }

  class Model {
    var size: Size
    var config: SurfaceConfig
    const resources: Resources
    /** The calls made so far on the surface, the queue and the window, in order. */
    var log: seq<Effect>

    function State(): ModelState
      reads this
    {
      ModelState(size, config, log)
    }

    /** The bookkeeping part of `Model::new`: configure the surface at the window's size. */
    constructor (windowSize: Size, resources: Resources)
      ensures InSync(State()) && size == windowSize
      ensures log == [Configure(config)]
      ensures this.resources == resources
    {
      size := windowSize;
      config := SurfaceConfig(windowSize.width, windowSize.height);
      this.resources := resources;
      log := [Configure(SurfaceConfig(windowSize.width, windowSize.height))];
    }

    method Resize(newSize: Size)
      modifies this`size, this`config, this`log
      ensures State() == AfterResize(old(State()), newSize)
    {
      if newSize.width > 0 && newSize.height > 0 {
        size := newSize;
        config := config.(width := newSize.width);
        config := config.(height := newSize.height);
        log := log + [Configure(config)];
      }
    }

    method Render(acquire: Acquire, timeBits: U32) returns (r: RenderResult)
      modifies this`log
      ensures (State(), r) == AfterRender(resources, old(State()), acquire, timeBits)
    {
      if acquire.Failed? {
        return Err(acquire.error);
      }
      var view := acquire.texture;
      var bufferData := [size.width, size.height, timeBits];
      var encoder := [CopyBufferToBuffer(bufferData, resources.buffer, BufferSize)];
      encoder := encoder + [Dispatch(resources.computePipeline, resources.computeBindgroup,
                                     size.width / 16, size.height / 16, 1)];
      encoder := encoder + [Draw(resources.renderPipeline, resources.renderBindgroup, view, 3, 2)];
      assert encoder == FrameCommands(resources, size, timeBits, view);
      log := log + [Submit(encoder), Present(view)];
      r := Ok;
    }

    /** `window().request_redraw()`. */
    method RequestRedraw()
      modifies this`log
      ensures State() == old(State()).(log := old(log) + [Effect.RequestRedraw])
    {
      log := log + [Effect.RequestRedraw];
    }
  }

  datatype Key = Escape | OtherKey
  datatype ElementState = Pressed | Released

  /** The window events the closure tells apart; every other one is `OtherWindowEvent`. */
  datatype WindowEvent =
    | CloseRequested
    | KeyboardInput(state: ElementState, key: Key)
    | Resized(newSize: Size)
    | RedrawRequested
    | OtherWindowEvent

  /** An event of the loop: a window event addressed to a window, or anything else. */
  datatype Event = OnWindow(windowId: nat, event: WindowEvent) | OtherEvent

  /** What the closure does with a failed render. */
  datatype Action = Reconfigure | Exit | Skip

  /** A lost or outdated surface is reconfigured, running out of memory ends the loop, a timeout skips the frame. */
  function ErrorAction(e: SurfaceError): (a: Action)
    ensures a == Reconfigure <==> e == Lost || e == Outdated
    ensures a == Exit <==> e == OutOfMemory
    ensures a == Skip <==> e == Timeout
  {
    match e
    case Lost => Reconfigure
    case Outdated => Reconfigure
    case OutOfMemory => Exit
    case Timeout => Skip
  }

  /** The closure's state: the model it owns, the `surface_configured` flag, and whether exit was requested. */
  datatype AppState = AppState(model: ModelState, surfaceConfigured: bool, exitRequested: bool)

  /** The `RedrawRequested` arm: request the next frame; render only once a resize has configured the surface. */
  function Redraw(res: Resources, s: AppState, acquire: Acquire, timeBits: U32): (r: AppState)
    ensures r.surfaceConfigured == s.surfaceConfigured
    ensures r.exitRequested <==> s.exitRequested || (s.surfaceConfigured && acquire == Failed(OutOfMemory))
    ensures |r.model.log| > |s.model.log| && r.model.log[..|s.model.log| + 1] == s.model.log + [Effect.RequestRedraw]
  {
    var m := s.model.(log := s.model.log + [Effect.RequestRedraw]);
    if !s.surfaceConfigured then
      s.(model := m)
    else
      var (m', r) := AfterRender(res, m, acquire, timeBits);
      match r
      case Ok => s.(model := m')
      case Err(e) =>
        match ErrorAction(e)
        case Reconfigure => s.(model := AfterResize(m', m'.size))
        case Exit => s.(model := m', exitRequested := true)
        case Skip => s.(model := m')
  }

  /**
   * One call of the closure with `event`; `acquire` and `timeBits` are what the
   * surface and the clock would answer if this event renders a frame.
   */
  function Step(res: Resources, windowId: nat, s: AppState, event: Event, acquire: Acquire, timeBits: U32): (r: AppState)
    ensures s.surfaceConfigured ==> r.surfaceConfigured
    ensures s.exitRequested ==> r.exitRequested
    ensures |s.model.log| <= |r.model.log| && r.model.log[..|s.model.log|] == s.model.log
  {
    match event
    case OtherEvent => s
    case OnWindow(id, e) =>
      if id != windowId then s
      else
        match e
        case CloseRequested => s.(exitRequested := true)
        case KeyboardInput(state, key) =>
          if state == Pressed && key == Escape then s.(exitRequested := true) else s
        case Resized(newSize) => s.(model := AfterResize(s.model, newSize), surfaceConfigured := true)
        case RedrawRequested => Redraw(res, s, acquire, timeBits)
        case OtherWindowEvent => s
  }

  /** One event together with what the surface and the clock answer while it is handled. */
  datatype Input = Input(event: Event, acquire: Acquire, timeBits: U32)

  /** The closure called once per input, in order. */
  function Run(res: Resources, windowId: nat, s: AppState, inputs: seq<Input>): (r: AppState)
    ensures s.surfaceConfigured ==> r.surfaceConfigured
    ensures s.exitRequested ==> r.exitRequested
    ensures |s.model.log| <= |r.model.log| && r.model.log[..|s.model.log|] == s.model.log
    decreases |inputs|
  {
    if inputs == [] then s
    else Run(res, windowId, Step(res, windowId, s, inputs[0].event, inputs[0].acquire, inputs[0].timeBits), inputs[1..])
  }

  /** The events that end the loop: close, a pressed Escape, or running out of memory while rendering. */
  predicate RequestsExit(windowId: nat, s: AppState, event: Event, acquire: Acquire) {
    && event.OnWindow?
    && event.windowId == windowId
    && (|| event.event == CloseRequested
        || event.event == KeyboardInput(Pressed, Escape)
        || (event.event == RedrawRequested && s.surfaceConfigured && acquire == Failed(OutOfMemory)))
  }

  /** Exit is requested exactly by the events that `RequestsExit` names, and once requested it stays requested. */
  lemma ExitExactly(res: Resources, windowId: nat, s: AppState, event: Event, acquire: Acquire, timeBits: U32)
    ensures Step(res, windowId, s, event, acquire, timeBits).exitRequested
      <==> s.exitRequested || RequestsExit(windowId, s, event, acquire)
  {
  }

  /** Events for another window, and events that are not window events, change nothing. */
  lemma ForeignEventsIgnored(res: Resources, windowId: nat, s: AppState, event: Event, acquire: Acquire, timeBits: U32)
    requires !event.OnWindow? || event.windowId != windowId
    ensures Step(res, windowId, s, event, acquire, timeBits) == s
  {
  }

  /** A `Resized` event marks the surface configured and applies the resize guard. */
  lemma ResizedConfigures(res: Resources, windowId: nat, s: AppState, newSize: Size, acquire: Acquire, timeBits: U32)
    ensures var r := Step(res, windowId, s, OnWindow(windowId, Resized(newSize)), acquire, timeBits);
      && r.surfaceConfigured
      && r.exitRequested == s.exitRequested
      && (newSize.HasArea() ==> r.model.size == newSize && InSync(r.model))
      && (!newSize.HasArea() ==> r.model == s.model)
  {
  }

  /** A redraw before the surface is configured only requests the next frame: no update, no render. */
  lemma RedrawBeforeConfigured(res: Resources, windowId: nat, s: AppState, acquire: Acquire, timeBits: U32)
    requires !s.surfaceConfigured
    ensures Step(res, windowId, s, OnWindow(windowId, RedrawRequested), acquire, timeBits)
      == s.(model := s.model.(log := s.model.log + [Effect.RequestRedraw]))
  {
  }

  /** A configured redraw whose acquisition succeeds submits the frame's commands once and presents the target. */
  lemma RedrawSubmitsFrame(res: Resources, windowId: nat, s: AppState, target: TextureId, timeBits: U32)
    requires s.surfaceConfigured
    ensures Step(res, windowId, s, OnWindow(windowId, RedrawRequested), Acquired(target), timeBits)
      == s.(model := s.model.(log := s.model.log +
              [Effect.RequestRedraw, Submit(FrameCommands(res, s.model.size, timeBits, target)), Present(target)]))
  {
  }

  /** A lost or outdated surface is reconfigured at the current size: the size stays, and the loop goes on. */
  lemma StaleSurfaceReconfigures(res: Resources, windowId: nat, s: AppState, e: SurfaceError, timeBits: U32)
    requires s.surfaceConfigured && InSync(s.model)
    requires e == Lost || e == Outdated
    ensures var r := Step(res, windowId, s, OnWindow(windowId, RedrawRequested), Failed(e), timeBits);
      && r.model.size == s.model.size && r.model.config == s.model.config
      && r.exitRequested == s.exitRequested && r.surfaceConfigured
      && r.model.log == s.model.log + [Effect.RequestRedraw]
                        + (if s.model.size.HasArea() then [Configure(s.model.config)] else [])
  {
  }

  /** Running out of memory requests exit and records nothing but the redraw request. */
  lemma OutOfMemoryExits(res: Resources, windowId: nat, s: AppState, timeBits: U32)
    requires s.surfaceConfigured
    ensures Step(res, windowId, s, OnWindow(windowId, RedrawRequested), Failed(OutOfMemory), timeBits)
      == s.(model := s.model.(log := s.model.log + [Effect.RequestRedraw]), exitRequested := true)
  {
  }

  /** A timeout skips the frame: nothing but the redraw request, and no exit. */
  lemma TimeoutSkipsFrame(res: Resources, windowId: nat, s: AppState, timeBits: U32)
    requires s.surfaceConfigured
    ensures Step(res, windowId, s, OnWindow(windowId, RedrawRequested), Failed(Timeout), timeBits)
      == s.(model := s.model.(log := s.model.log + [Effect.RequestRedraw]))
  {
  }

  /** Every step keeps the surface configured at the window's size. */
  lemma StepKeepsSync(res: Resources, windowId: nat, s: AppState, event: Event, acquire: Acquire, timeBits: U32)
    requires InSync(s.model)
    ensures InSync(Step(res, windowId, s, event, acquire, timeBits).model)
  {
  }

  /** So does every run of the loop. */
  lemma {:induction false} RunKeepsSync(res: Resources, windowId: nat, s: AppState, inputs: seq<Input>)
    requires InSync(s.model)
    ensures InSync(Run(res, windowId, s, inputs).model)
    decreases |inputs|
  {
    if inputs != [] {
      StepKeepsSync(res, windowId, s, inputs[0].event, inputs[0].acquire, inputs[0].timeBits);
      RunKeepsSync(res, windowId, Step(res, windowId, s, inputs[0].event, inputs[0].acquire, inputs[0].timeBits), inputs[1..]);
    }
  }

  /** The event is a `Resized` addressed to this window. */
  predicate IsResize(windowId: nat, event: Event) {
    event.OnWindow? && event.windowId == windowId && event.event.Resized?
  }

  /**
   * Until the first `Resized`, the loop never renders: whatever redraws,
   * closes or key presses arrive, the surface stays unconfigured, the size and
   * configuration stay, and the only calls made are redraw requests.
   */
  lemma {:induction false} NoFrameBeforeResized(res: Resources, windowId: nat, s: AppState, inputs: seq<Input>)
    requires !s.surfaceConfigured
    requires forall i :: 0 <= i < |inputs| ==> !IsResize(windowId, inputs[i].event)
    ensures var r := Run(res, windowId, s, inputs);
      && !r.surfaceConfigured
      && r.model.size == s.model.size && r.model.config == s.model.config
      && |s.model.log| <= |r.model.log| && r.model.log[..|s.model.log|] == s.model.log
      && forall j :: |s.model.log| <= j < |r.model.log| ==> r.model.log[j] == Effect.RequestRedraw
    decreases |inputs|
  {
    if inputs != [] {
      var s' := Step(res, windowId, s, inputs[0].event, inputs[0].acquire, inputs[0].timeBits);
      assert !IsResize(windowId, inputs[0].event);
      assert s'.model.log == s.model.log || s'.model.log == s.model.log + [Effect.RequestRedraw];
      NoFrameBeforeResized(res, windowId, s', inputs[1..]);
      var r := Run(res, windowId, s', inputs[1..]);
      assert r.model.log[..|s'.model.log|] == s'.model.log;
      assert r.model.log[..|s.model.log|] == s'.model.log[..|s.model.log|];
    }
  }

  /** Resizing to 800x600 and then to 1920x1080 configures the surface twice, each time at the new size. */
  lemma TwoResizes(res: Resources, windowId: nat, s: AppState, acquire: Acquire, timeBits: U32)
    ensures var r := Run(res, windowId, s,
                         [Input(OnWindow(windowId, Resized(Size(800, 600))), acquire, timeBits),
                          Input(OnWindow(windowId, Resized(Size(1920, 1080))), acquire, timeBits)]);
      && r.model.size == Size(1920, 1080)
      && r.model.log == s.model.log + [Configure(SurfaceConfig(800, 600)), Configure(SurfaceConfig(1920, 1080))]
      && r.surfaceConfigured
  {
    var inputs := [Input(OnWindow(windowId, Resized(Size(800, 600))), acquire, timeBits),
                   Input(OnWindow(windowId, Resized(Size(1920, 1080))), acquire, timeBits)];
    var s1 := Step(res, windowId, s, inputs[0].event, acquire, timeBits);
    var s2 := Step(res, windowId, s1, inputs[1].event, acquire, timeBits);
    assert inputs[1..][1..] == [];
    assert Run(res, windowId, s, inputs) == Run(res, windowId, s1, inputs[1..]) == Run(res, windowId, s2, []) == s2;
  }

  /** The event-loop closure of `run`, with the model it owns and the `surface_configured` flag it captures. */
  class Runner {
    const model: Model
    const windowId: nat
    var surfaceConfigured: bool
    var exitRequested: bool

    function Abs(): AppState
      reads this, model
    {
      AppState(model.State(), surfaceConfigured, exitRequested)
    }

    /** The state `run` enters the loop with: the surface is not yet configured. */
    constructor (model: Model, windowId: nat)
      ensures this.model == model && this.windowId == windowId
      ensures !surfaceConfigured && !exitRequested
    {
      this.model := model;
      this.windowId := windowId;
      surfaceConfigured := false;
      exitRequested := false;
    }

    /** Handle one event; `model.input` never consumes one and `model.update` does nothing, so both are omitted. */
    method HandleEvent(event: Event, acquire: Acquire, timeBits: U32)
      modifies this, model
      ensures Abs() == Step(model.resources, windowId, old(Abs()), event, acquire, timeBits)
    {
      match event {
        case OtherEvent =>
        case OnWindow(id, e) =>
          if id == windowId {
            match e {
              case CloseRequested =>
                exitRequested := true;
              case KeyboardInput(state, key) =>
                if state == Pressed && key == Escape {
                  exitRequested := true;
                }
              case Resized(physicalSize) =>
                surfaceConfigured := true;
                model.Resize(physicalSize);
              case RedrawRequested =>
                model.RequestRedraw();
                if !surfaceConfigured {
                  return;
                }
                var r := model.Render(acquire, timeBits);
                if r.Err? {
                  match ErrorAction(r.error) {
                    case Reconfigure => model.Resize(model.size);
                    case Exit => exitRequested := true;
                    case Skip =>
                  }
                }
              case OtherWindowEvent =>
            }
          }
      }
    }
  }
}
