/**
 * The overlay host's surface lifecycle and visibility state machine, as pure
 * functions over a snapshot of the host's fields.
 *
 * The class `OverlayHost.Host` updates those fields in place. Its methods
 * `Render`, `ResizeSwapchainBitmap`, `MessageHandler` and `ReleaseDevice` are
 * proved to produce exactly the state, the overlay calls and the result that
 * `Render`, `Resize`, `HandleMessage` and `ReleaseDevice` compute here, and
 * the properties of the host are proved here, about the functions.
 */
module Surface {
  import opened Win32
  import opened OverlayContract

  /** The driver a Direct3D device was created with. */
  datatype Driver = Hardware | Warp

  /** `ID3D11Device`, identified by its driver. */
  datatype Device = Device(driver: Driver)

  /** `ID2D1DeviceContext` created on a device. */
  datatype DeviceContext = DeviceContext(device: Device)

  /** `IDXGISwapChain1` created for composition on a device. */
  datatype SwapChain = SwapChain(device: Device)

  /** `IDCompositionVisual` whose content is a swapchain. */
  datatype Visual = Visual(content: SwapChain)

  /** `IDCompositionTarget` whose root is a visual. */
  datatype CompTarget = CompTarget(root: Visual)

  /**
   * The fields of `OverlayHost` that change after construction, together
   * with the overlay's two resource tiers.
   */
  datatype HostState = HostState(
    target: Option<DeviceContext>,
    swapchain: Option<SwapChain>,
    dcompvisual: Option<Visual>,
    dcomptarget: Option<CompTarget>,
    visible: bool,
    occlusion: u32,
    deviceTier: bool,
    sizedTier: bool)

  /** The state `new` builds: no surface, not visible, no occlusion cookie. */
  const Initial: HostState := HostState(None, None, None, None, false, 0, false, false)

  /**
   * The answers of the foreign calls one `render` may make, in source order.
   * `surface` is the first failure among the swapchain, device context,
   * backbuffer bitmap, DXGI factory and composition steps (or Ok).
   */
  datatype RenderEnv = RenderEnv(
    hardware: Status,
    warp: Status,
    surface: Status,
    createResources: Status,
    createSized: Status,
    draw: Status,
    endDraw: Status,
    present: Status,
    register: Result<u32>)

  /** The answers of the foreign calls handling one window message may make. */
  datatype MessageEnv = MessageEnv(
    resizeBuffers: Status,
    bitmap: Status,
    resizeSized: Status,
    presentTest: Status,
    render: RenderEnv)

  /** One window message: its identifier, its `wParam`, and what the world answers while it is handled. */
  datatype Message = Message(id: u32, wparam: nat, env: MessageEnv)

  /** The effect of one host operation: the new state, the overlay calls it made, and its result. */
  datatype Step = Step(state: HostState, calls: seq<OverlayCall>, result: Status)

  /** Why the message handler panics (an `unwrap` on an error or on `None`). */
  datatype Panic = RenderFailed(error: Error) | NoSwapchain

  /** What the message handler returns to the window procedure. */
  datatype Reply =
    | Handled               // LRESULT(0)
    | QuitPosted            // PostQuitMessage(0), then LRESULT(0)
    | DefaultProc           // forwarded to DefWindowProcA
    | Panicked(why: Panic)

  datatype HandlerStep = HandlerStep(state: HostState, calls: seq<OverlayCall>, reply: Reply)

  /** The calls `release_device` makes on the overlay, in its order. */
  const ReleaseCalls: seq<OverlayCall> := [ReleaseResourcesCall, ReleaseSizedCall]

  /**
   * The host's invariant: the device context and the swapchain exist
   * together, a live surface is wired into the composition tree and backed
   * by device resources, and sized resources only exist with device ones.
   */
  ghost predicate Inv(s: HostState) {
    && (s.target.Some? <==> s.swapchain.Some?)
    && (s.target.Some? <==> s.deviceTier)
    && (s.sizedTier ==> s.deviceTier)
    && (s.target.Some? ==>
          && s.target.value.device == s.swapchain.value.device
          && s.dcompvisual == Some(Visual(s.swapchain.value))
          && s.dcomptarget == Some(CompTarget(s.dcompvisual.value)))
  }

  /**
   * `create_device`: hardware first; WARP only when hardware creation fails
   * with `DXGI_ERROR_UNSUPPORTED`; any other hardware error is returned as is.
   */
  function CreateDevice(hardware: Status, warp: Status): (r: Result<Device>)
    ensures r.Ok? && r.value.driver == Hardware <==> hardware.Ok?
    ensures r.Ok? && r.value.driver == Warp <==>
              hardware.Err? && hardware.error.code == DXGI_ERROR_UNSUPPORTED && warp.Ok?
    ensures r.Err? && hardware.error.code != DXGI_ERROR_UNSUPPORTED ==> r.error == hardware.error
    ensures r.Err? && hardware.error.code == DXGI_ERROR_UNSUPPORTED ==> r.error == warp.error
  {
    if hardware.Ok? then Ok(Device(Hardware))
    else if hardware.error.code == DXGI_ERROR_UNSUPPORTED then
      if warp.Ok? then Ok(Device(Warp)) else Err(warp.error)
    else Err(hardware.error)
  }

  /**
   * The lazy surface build at the top of `render`, run when there is no
   * device context: device, swapchain, context, backbuffer bitmap and
   * composition objects, then the visual and the composition target are
   * stored, then `create_resources`, and only after it succeeds the context
   * and the swapchain; sized-resource creation follows and its failure is
   * ignored.
   */
  function Build(s: HostState, env: RenderEnv): (r: Step)
    requires s.target.None?
    ensures r.result.Err? ==> r.state.target.None? && r.state.swapchain == s.swapchain
    ensures r.result.Err? ==> r.state.deviceTier == s.deviceTier && r.state.sizedTier == s.sizedTier
    ensures r.result.Err? ==> r.calls == [] || r.calls == [CreateResourcesCall]
    ensures r.result.Ok? ==> r.calls == [CreateResourcesCall, CreateSizedCall]
    ensures r.result.Ok? ==> r.state.target.Some? && r.state.deviceTier
    ensures r.state.visible == s.visible && r.state.occlusion == s.occlusion
    // The first failing step is the answer; nothing is stored before the composition objects.
    ensures CreateDevice(env.hardware, env.warp).Err? ==>
              r == Step(s, [], Err(CreateDevice(env.hardware, env.warp).error))
    ensures CreateDevice(env.hardware, env.warp).Ok? && env.surface.Err? ==> r == Step(s, [], env.surface)
    // A `create_resources` failure leaves the new visual and target stored.
    ensures CreateDevice(env.hardware, env.warp).Ok? && env.surface.Ok? && env.createResources.Err? ==>
              var chain := SwapChain(CreateDevice(env.hardware, env.warp).value);
              r == Step(s.(dcompvisual := Some(Visual(chain)), dcomptarget := Some(CompTarget(Visual(chain)))),
                        [CreateResourcesCall], env.createResources)
    // Once `create_resources` succeeds the build succeeds, whatever sized-resource creation answers.
    ensures CreateDevice(env.hardware, env.warp).Ok? && env.surface.Ok? && env.createResources.Ok? ==>
              && r.result.Ok?
              && r.state.target == Some(DeviceContext(CreateDevice(env.hardware, env.warp).value))
              && r.state.swapchain == Some(SwapChain(CreateDevice(env.hardware, env.warp).value))
              && r.state.sizedTier == (s.sizedTier || env.createSized.Ok?)
  {
    match CreateDevice(env.hardware, env.warp)
    case Err(e) => Step(s, [], Err(e))
    case Ok(device) =>
      if env.surface.Err? then Step(s, [], env.surface)
      else
        var swapchain := SwapChain(device);
        var visual := Visual(swapchain);
        var wired := s.(dcompvisual := Some(visual), dcomptarget := Some(CompTarget(visual)));
        if env.createResources.Err? then Step(wired, [CreateResourcesCall], env.createResources)
        else
          var live := wired.(target := Some(DeviceContext(device)), swapchain := Some(swapchain),
                             deviceTier := true, sizedTier := wired.sizedTier || env.createSized.Ok?);
          Step(live, [CreateResourcesCall, CreateSizedCall], Ok(()))
  }

  /**
   * `release_device`: drops the context and the swapchain, then releases
   * the device tier, then the sized tier; their results are ignored. The
   * composition visual and target, the visibility and the occlusion cookie
   * are kept.
   */
  function ReleaseDevice(s: HostState): (r: Step)
    ensures Inv(r.state)
    ensures r.state.target.None? && r.state.swapchain.None?
    ensures !r.state.deviceTier && !r.state.sizedTier
    ensures r.state.dcompvisual == s.dcompvisual && r.state.dcomptarget == s.dcomptarget
    ensures r.state.visible == s.visible && r.state.occlusion == s.occlusion
    ensures r.calls == [ReleaseResourcesCall, ReleaseSizedCall] && r.result.Ok?
  {
    Step(s.(target := None, swapchain := None, deviceTier := false, sizedTier := false),
         ReleaseCalls, Ok(()))
  }

  /** A present answer the host reads as "the window is occluded". */
  predicate IsOccluded(present: Status) {
    present.Err? && present.error.code == DXGI_STATUS_OCCLUDED
  }

  /**
   * `render`: builds the surface if there is none, draws, and presents. An
   * occluded present registers for the occlusion notification and marks the
   * host not visible, which stops the run loop rendering; any other
   * present failure tears the device down; both return Ok.
   */
  function Render(s: HostState, env: RenderEnv): (r: Step)
    ensures Inv(s) ==> Inv(r.state)
    // An existing surface is reused or torn down, never rebuilt.
    ensures s.target.Some? ==>
              (r.state.target == s.target && r.calls == []) ||
              (r.state.target.None? && r.calls == ReleaseCalls)
    // A failed build leaves no surface; a failure after a complete build keeps it.
    ensures Inv(s) && s.target.None? && r.result.Err? ==>
              (r.state.target.None? && r.state.swapchain.None?) ||
              (r.state.target.Some? && r.calls == [CreateResourcesCall, CreateSizedCall])
    // The render fails exactly when the build, the draw, `EndDraw` or the
    // occlusion registration fails: a device loss at present, on a reused or
    // a freshly built surface, is absorbed and the render succeeds.
    ensures r.result.Ok? <==>
              && (s.target.Some? || Build(s, env).result.Ok?)
              && env.draw.Ok? && env.endDraw.Ok?
              && (IsOccluded(env.present) ==> env.register.Ok?)
    // After a device loss the host holds no surface and no tiers.
    ensures r.result.Ok? && !IsOccluded(env.present) && env.present.Err? ==>
              r.state.target.None? && !r.state.deviceTier && !r.state.sizedTier
    ensures r.result.Ok? && IsOccluded(env.present) ==>
              !r.state.visible && env.register == Ok(r.state.occlusion) && r.state.target.Some?
    ensures r.result.Ok? && env.present.Ok? ==> r.state.target.Some? && r.state.visible == s.visible
    ensures r.state.visible != s.visible ==> r.result.Ok? && IsOccluded(env.present)
  {
    var built := if s.target.None? then Build(s, env) else Step(s, [], Ok(()));
    if built.result.Err? then built
    else if env.draw.Err? then Step(built.state, built.calls, env.draw)
    else if env.endDraw.Err? then Step(built.state, built.calls, env.endDraw)
    else if env.present.Ok? then built
    else if IsOccluded(env.present) then
      match env.register
      case Err(e) => Step(built.state, built.calls, Err(e))
      case Ok(cookie) => Step(built.state.(occlusion := cookie, visible := false), built.calls, Ok(()))
    else
      var released := ReleaseDevice(built.state);
      Step(released.state, built.calls + released.calls, Ok(()))
  }

  /**
   * `resize_swapchain_bitmap`: with no device context nothing happens. With
   * one, the buffers are resized; on success the backbuffer is rebound and
   * the sized resources are created again (without releasing them first,
   * and ignoring failure); on failure the device is released. Both
   * branches then render.
   */
  function Resize(s: HostState, env: MessageEnv): (r: Step)
    ensures Inv(s) ==> Inv(r.state)
    ensures s.target.None? ==> r == Step(s, [], Ok(()))
    ensures s.target.Some? && env.resizeBuffers.Ok? && env.bitmap.Err? ==> r == Step(s, [], env.bitmap)
    ensures s.target.Some? && env.resizeBuffers.Ok? && env.bitmap.Ok? ==>
              var rendered := Render(s.(sizedTier := s.sizedTier || env.resizeSized.Ok?), env.render);
              r == Step(rendered.state, [CreateSizedCall] + rendered.calls, rendered.result)
    ensures s.target.Some? && env.resizeBuffers.Err? ==>
              var rendered := Render(ReleaseDevice(s).state, env.render);
              r == Step(rendered.state, ReleaseCalls + rendered.calls, rendered.result)
  {
    if s.target.None? then Step(s, [], Ok(()))
    else if env.resizeBuffers.Ok? then
      if env.bitmap.Err? then Step(s, [], env.bitmap)
      else
        var resized := s.(sizedTier := s.sizedTier || env.resizeSized.Ok?);
        var rendered := Render(resized, env.render);
        Step(rendered.state, [CreateSizedCall] + rendered.calls, rendered.result)
    else
      var released := ReleaseDevice(s);
      var rendered := Render(released.state, env.render);
      Step(rendered.state, released.calls + rendered.calls, rendered.result)
  }

  /** `self.render().unwrap()` and `self.resize_swapchain_bitmap().unwrap()` as replies. */
  function Unwrapped(r: Step): (h: HandlerStep)
    ensures h.state == r.state && h.calls == r.calls
    ensures h.reply.Panicked? <==> r.result.Err?
  {
    HandlerStep(r.state, r.calls, if r.result.Err? then Panicked(RenderFailed(r.result.error)) else Handled)
  }

  /** `message_handler`: the host's reaction to one window message. */
  function HandleMessage(s: HostState, m: Message): (r: HandlerStep)
    ensures Inv(s) ==> Inv(r.state)
    ensures m.id == WM_ACTIVATE ==> r == HandlerStep(s.(visible := true), [], Handled)
    ensures m.id == WM_USER && s.swapchain.Some? && m.env.presentTest.Ok? ==>
              r == HandlerStep(s.(occlusion := 0, visible := true), [], Handled)
    ensures m.id == WM_USER && s.swapchain.Some? && m.env.presentTest.Err? ==>
              r == HandlerStep(s, [], Handled)
    ensures m.id == WM_USER && s.swapchain.None? ==> r == HandlerStep(s, [], Panicked(NoSwapchain))
    ensures m.id == WM_SIZE && m.wparam == SIZE_MINIMIZED ==> r == HandlerStep(s, [], Handled)
    ensures m.id == WM_SIZE && m.wparam != SIZE_MINIMIZED ==> r == Unwrapped(Resize(s, m.env))
    ensures m.id == WM_PAINT || m.id == WM_DISPLAYCHANGE ==> r == Unwrapped(Render(s, m.env.render))
    ensures m.id == WM_DESTROY ==> r == HandlerStep(s, [], QuitPosted)
    ensures r.reply == DefaultProc <==>
              m.id !in {WM_PAINT, WM_SIZE, WM_DISPLAYCHANGE, WM_USER, WM_ACTIVATE, WM_DESTROY}
    ensures r.reply == DefaultProc ==> r.state == s && r.calls == []
  {
    if m.id == WM_PAINT then Unwrapped(Render(s, m.env.render))
    else if m.id == WM_SIZE then
      if m.wparam != SIZE_MINIMIZED then Unwrapped(Resize(s, m.env))
      else HandlerStep(s, [], Handled)
    else if m.id == WM_DISPLAYCHANGE then Unwrapped(Render(s, m.env.render))
    else if m.id == WM_USER then
      if s.swapchain.None? then HandlerStep(s, [], Panicked(NoSwapchain))
      else if m.env.presentTest.Ok? then HandlerStep(s.(occlusion := 0, visible := true), [], Handled)
      else HandlerStep(s, [], Handled)
    else if m.id == WM_ACTIVATE then HandlerStep(s.(visible := true), [], Handled)
    else if m.id == WM_DESTROY then HandlerStep(s, [], QuitPosted)
    else HandlerStep(s, [], DefaultProc)
  }

  // ---------------------------------------------------------------------
  // Scenarios over several steps.

  /** An environment in which every foreign call of `render` succeeds. */
  ghost predicate AllOk(env: RenderEnv) {
    && env.hardware.Ok? && env.surface.Ok? && env.createResources.Ok? && env.createSized.Ok?
    && env.draw.Ok? && env.endDraw.Ok? && env.present.Ok?
  }

  /**
   * Device loss: a present failing with anything but "occluded" releases
   * the context, the swapchain and both tiers, and the next successful
   * render creates the device tier and the sized tier again, once each.
   */
  lemma DeviceLossRebuildsOnce(s: HostState, lost: RenderEnv, next: RenderEnv)
    requires Inv(s) && s.target.Some?
    requires lost.draw.Ok? && lost.endDraw.Ok? && lost.present.Err? && !IsOccluded(lost.present)
    requires AllOk(next)
    ensures var a := Render(s, lost);
            && a.result.Ok? && a.state.target.None? && !a.state.deviceTier && !a.state.sizedTier
            && a.calls == ReleaseCalls
            && var b := Render(a.state, next);
               && b.result.Ok? && b.calls == [CreateResourcesCall, CreateSizedCall]
               && b.state.target.Some? && b.state.deviceTier && b.state.sizedTier
  {
  }

  /**
   * Occlusion: an occluded present keeps the surface, marks the host not visible and
   * stores the cookie; only a successful present test on `WM_USER` (or an
   * activation) makes it visible again, and it resets the cookie.
   */
  lemma OcclusionRoundTrip(s: HostState, env: RenderEnv, cookie: u32, user: Message)
    requires Inv(s) && s.target.Some?
    requires env.draw.Ok? && env.endDraw.Ok? && IsOccluded(env.present) && env.register == Ok(cookie)
    requires user.id == WM_USER && user.env.presentTest.Ok?
    ensures var a := Render(s, env);
            && a == Step(s.(visible := false, occlusion := cookie), [], Ok(()))
            && HandleMessage(a.state, user) == HandlerStep(s.(visible := true, occlusion := 0), [], Handled)
  {
  }

  /**
   * After a device loss the swapchain is gone, so a later `WM_USER`
   * (the occlusion notification registered earlier) unwraps `None`.
   */
  lemma OcclusionNoticeAfterDeviceLossPanics(s: HostState, lost: RenderEnv, user: Message)
    requires Inv(s) && s.target.Some?
    requires lost.draw.Ok? && lost.endDraw.Ok? && lost.present.Err? && !IsOccluded(lost.present)
    requires user.id == WM_USER
    ensures HandleMessage(Render(s, lost).state, user).reply == Panicked(NoSwapchain)
  {
  }
  /**
   * The message handler with an occlusion notice that cannot panic: when
   * the swapchain is gone there is nothing to test, so the notice is taken
   * as "visible again", and the next render rebuilds the surface. Every
   * other message is handled as written.
   */
  function HandleMessageCorrected(s: HostState, m: Message): (r: HandlerStep)
    ensures Inv(s) ==> Inv(r.state)
    ensures m.id == WM_USER ==> r.reply == Handled && r.calls == []
    ensures m.id == WM_USER && s.swapchain.None? ==> r.state == s.(occlusion := 0, visible := true)
    ensures m.id != WM_USER || s.swapchain.Some? ==> r == HandleMessage(s, m)
  {
    if m.id == WM_USER && s.swapchain.None? then HandlerStep(s.(occlusion := 0, visible := true), [], Handled)
    else HandleMessage(s, m)
  }

  /**
   * With the corrected handler, the occlusion notice after a device loss
   * makes the host visible again, and the next successful render rebuilds
   * the surface with both tiers.
   */
  lemma OcclusionNoticeAfterDeviceLossRecovers(s: HostState, lost: RenderEnv, user: Message, next: RenderEnv)
    requires Inv(s) && s.target.Some?
    requires lost.draw.Ok? && lost.endDraw.Ok? && lost.present.Err? && !IsOccluded(lost.present)
    requires user.id == WM_USER
    requires CreateDevice(next.hardware, next.warp).Ok? && next.surface.Ok? && next.createResources.Ok?
    requires next.createSized.Ok? && next.draw.Ok? && next.endDraw.Ok? && next.present.Ok?
    ensures var h := HandleMessageCorrected(Render(s, lost).state, user);
            && h.reply == Handled && h.state.visible && h.state.occlusion == 0
            && var r := Render(h.state, next);
            && r.result.Ok? && r.state.target.Some? && r.state.deviceTier && r.state.sizedTier
  {
    var lostState := Render(s, lost).state;
    assert lostState.target.None? && !lostState.deviceTier && !lostState.sizedTier;
  }
}
