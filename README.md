# backflip — a verified model of its overlay host, clock overlay, clipboard editor and key hook

backflip is a small Windows toolbox written in Rust. This project models,
in Dafny, the parts of it that carry logic of their own:

- **The overlay host** (`windows_direct_composition/src/lib.rs`). `OverlayHost` owns a window and a
  DirectComposition surface: a Direct2D device context (`target`), a DXGI
  swapchain, a composition visual and a composition target, a `visible` flag
  and an occlusion cookie. It builds the surface lazily in `render`. It draws
  its content and presents. An occluded present clears `visible`, which stops
  the run loop rendering (the window itself stays on screen), until Windows
  reports the window visible again (`WM_USER`). Any other present failure
  tears the device down; a later render rebuilds it. `resize_swapchain_bitmap`
  resizes the buffers. `run` renders continuously while `visible` is set and
  otherwise waits for messages. Module `Surface` gives the operations as pure
  functions over `HostState`, with the host invariant `Inv`. Class
  `OverlayHost.Host` holds the same fields and updates them in place. Its
  `Render`, `ResizeSwapchainBitmap`, `MessageHandler` and `ReleaseDevice` are
  proved to produce exactly the state, result and overlay calls of the
  matching `Surface` function. `Run` is proved equal to the reference function
  `OverlayHost.Turns`, whose properties are proved by `TurnsKeepPromises`:
  what it reads from the queue, what it dispatches and renders, and where it
  stops.
- **The content interface** (`windows_direct_composition/src/traits.rs`). `Direct2DOverlay` is what
  a pluggable visual offers the host. Class `OverlayContract.Overlay` tracks
  two resource tiers: device resources and sized resources. It also keeps a
  ghost log of the calls the host makes. Each operation takes the
  implementation's answer as an input.
- **The clock overlay** (`windows_direct_composition/examples/clock.rs`). It covers the time-to-angle
  arithmetic, the swing-in animation rule and the dial geometry. Class
  `Clock.ClockOverlay` holds the `brush`/`clock`/`shadow` slots that its
  lifecycle methods fill and clear and that `draw` unwraps.
- **The clipboard editor** (`backflip/src/main.rs`). It covers the D-key slash
  swap, built from three `str::replace` calls (module `BackflipText`). It
  also covers the session slot list (class `Backflip.App`). `new_session`
  appends a slot. Each frame of `update` edits, focuses and closes sessions,
  and closing a session empties its slot rather than removing it.
- **The key hook** (`src/keyhook.rs`). `hook_callback` turns a low-level
  keyboard event into a `HookMessage` (module `KeyHook`).

Foreign calls (COM, DXGI, Direct2D, DirectComposition, user32, the clipboard)
are never performed. Each one is represented by the outcome it reports,
which the caller supplies: `Status` values collected in `RenderEnv`,
`MessageEnv` and `ClockFrame` records, the message stream as a sequence of
`Fetch` values, and the swing value and the local time as plain inputs. A
Rust panic (`unwrap` on `None` or `Err`) that some input can reach is an
explicit outcome (`Reply.Panicked`, `RunResult.Aborted`,
`DrawOutcome.Panicked`). Two `unwrap`s are preconditions instead: the
swapchain in `present` and the context in `create_device_size_resources`.
Every caller reaches them only with the slot set, and the `WM_USER` arm,
where the swapchain can be missing, has the panic as its outcome.

The model follows the code as written:

- `release_device` releases the content's device tier **before** its sized
  tier. It drops the drawing context and the swapchain before both.
- `release_device` never clears `dcompvisual` or `dcomptarget`. The next
  build replaces them.
- Sized-resource creation errors are swallowed by
  `create_device_size_resources`.

## Model

| member | source | states |
|---|---|---|
| OverlayContract.Overlay.New | windows_direct_composition/src/traits.rs:34 | construction consumes the arguments and may fail; a new overlay holds neither tier and has had no calls |
| OverlayContract.Overlay.CreateResources | windows_direct_composition/src/traits.rs:35-39 | may fail; the device tier exists afterwards iff it existed or creation succeeded; the sized tier is untouched |
| OverlayContract.Overlay.ReleaseResources | windows_direct_composition/src/traits.rs:40 | drops the device tier whatever it reports, sized tier untouched (the Rust method takes no graphics object; no graphics argument is modelled) |
| OverlayContract.Overlay.CreateSizedResources | windows_direct_composition/src/traits.rs:41 | may fail; sized tier exists iff it existed or creation succeeded (the device context it receives in Rust is not modelled) |
| OverlayContract.Overlay.ReleaseSizedResources | windows_direct_composition/src/traits.rs:42 | drops the sized tier whatever it reports, device tier untouched |
| OverlayContract.Overlay.Draw | windows_direct_composition/src/traits.rs:43 | takes `&self`: reports the draw result and changes nothing (no modifies clause) |
| Surface.CreateDevice | windows_direct_composition/src/lib.rs:384-394 | a hardware device iff hardware creation succeeds; WARP only after `DXGI_ERROR_UNSUPPORTED`; any other error returned unchanged |
| Surface.Build | windows_direct_composition/src/lib.rs:100-139 | a device or surface set-up failure returns that error with the state unchanged and no overlay calls; a `create_resources` failure returns its error after storing the new visual and composition target, with no context or swapchain; otherwise the build succeeds whatever `create_sized_resources` answers (its error is ignored), storing context and swapchain on the new device, with the sized tier set iff it was or creation succeeded |
| Surface.ReleaseDevice | windows_direct_composition/src/lib.rs:164-173 | context and swapchain gone, both tiers released (device tier first), composition objects, visibility and cookie kept; restores the invariant |
| Surface.Render | windows_direct_composition/src/lib.rs:99-162 | preserves `Inv`; the render ends Ok exactly when the surface exists or is built, the draw and `EndDraw` succeed, and an occluded present's registration succeeds, so a device loss at present ends Ok whether the surface was reused or freshly built; an existing surface is reused (no overlay calls) or torn down, never rebuilt; a failed build leaves no surface; an occluded present clears `visible`, stores the registered cookie and keeps the surface; after any other present error the host has no surface and no tiers; visibility changes only through an occluded present |
| Surface.Resize | windows_direct_composition/src/lib.rs:186-206 | preserves `Inv`; without a context nothing happens; with one, a failed backbuffer bind returns its error and changes nothing; a successful resize asks for sized resources without releasing them, then state, calls and result are those of the following `Render`; a failed resize releases the device, then state, calls and result are those of `Render` on the released state |
| Surface.Unwrapped | windows_direct_composition/src/lib.rs:211-226 | an `unwrap` of a render result panics exactly when the render failed, keeping its state and calls |
| Surface.HandleMessage | windows_direct_composition/src/lib.rs:208-247 | preserves `Inv`; `WM_ACTIVATE` sets visible; `WM_USER` with no swapchain panics unwrapping it, with a successful present test resets the cookie and sets visible, otherwise changes nothing; minimized `WM_SIZE` changes nothing, any other `WM_SIZE` is `Resize` unwrapped; `WM_PAINT`/`WM_DISPLAYCHANGE` render (panicking on failure); `WM_DESTROY` posts quit; the default procedure answers exactly the other messages, changing nothing |
| Surface.DeviceLossRebuildsOnce | windows_direct_composition/src/lib.rs:99-173 | a non-occlusion present failure releases context, swapchain and both tiers; the next fully successful render recreates both tiers exactly once each |
| Surface.OcclusionRoundTrip | windows_direct_composition/src/lib.rs:149-234 | an occluded present hides the host with the cookie and keeps the surface; a successful `WM_USER` present test makes it visible with cookie 0 |
| Surface.OcclusionNoticeAfterDeviceLossPanics | windows_direct_composition/src/lib.rs:157-229 | after a device loss the swapchain is gone, so a later `WM_USER` panics unwrapping it |
| Surface.HandleMessageCorrected | windows_direct_composition/src/lib.rs:228-234 | never panics on `WM_USER`: with no swapchain the notice sets visible and resets the cookie; otherwise exactly `HandleMessage`; preserves `Inv` |
| Surface.OcclusionNoticeAfterDeviceLossRecovers | windows_direct_composition/src/lib.rs:149-234 | with the corrected handler, the notice after a device loss makes the host visible, and the next successful render rebuilds the surface and both tiers |
| OverlayHost.Host.Init | windows_direct_composition/src/lib.rs:83-96 | all four surface slots empty, not visible, cookie 0 |
| OverlayHost.Host.New | windows_direct_composition/src/lib.rs:68-97 | fails iff platform set-up or the overlay constructor fails (with that error); a new host satisfies the invariant with no surface, not visible and cookie 0 |
| OverlayHost.Host.Present | windows_direct_composition/src/lib.rs:175-177 | unwraps the swapchain (required present) and reports `Present`'s answer |
| OverlayHost.Host.ReleaseDeviceResources | windows_direct_composition/src/lib.rs:171-173 | releases the sized tier only, and nothing else changes |
| OverlayHost.Host.ReleaseDevice | windows_direct_composition/src/lib.rs:164-169 | the new state and the overlay calls are those of `Surface.ReleaseDevice` |
| OverlayHost.Host.CreateDeviceSizeResources | windows_direct_composition/src/lib.rs:179-184 | unwraps the context, asks for sized resources and answers Ok whatever the overlay said |
| OverlayHost.Host.Render | windows_direct_composition/src/lib.rs:99-162 | keeps `Valid`; state, result and overlay calls are those of `Surface.Render` |
| OverlayHost.Host.ResizeSwapchainBitmap | windows_direct_composition/src/lib.rs:186-206 | keeps `Valid`; state, result and overlay calls are those of `Surface.Resize` |
| OverlayHost.Host.MessageHandler | windows_direct_composition/src/lib.rs:208-247 | keeps `Valid`; state, reply and overlay calls are those of `Surface.HandleMessage` |
| OverlayHost.Host.Run | windows_direct_composition/src/lib.rs:294-319 | keeps `Valid`; result, final state and the overlay calls appended to the history are those of `Turns`, whose actions are the renders and dispatches the loop performs, and which satisfies `RunPromises` |
| OverlayHost.TurnsKeepPromises | windows_direct_composition/src/lib.rs:294-319 | the run loop reads the stream up to the first `WM_QUIT` and ends Ok exactly there (or at the end of the stream); each action starts in the state the previous one left; only turns that start visible render; the messages dispatched are exactly the queued ones before the quit, in order; every action but the last succeeds, and a failing render ends the run with its error (`Fatal`) and a panicking dispatch with its panic (`Aborted`) |
| OverlayHost.DrainKeepsPromises | windows_direct_composition/src/lib.rs:304-309 | the same promises for the `PeekMessageA` drain that follows a render |
| OverlayHost.AwaitKeepsPromises | windows_direct_composition/src/lib.rs:310-318 | the same promises for the `GetMessageA` wait of a turn that starts not visible |
| OverlayHost.Host.Dispatch | windows_direct_composition/src/lib.rs:308 | keeps `Valid`; the dispatch act starts in the old state and ends in the new one; the act went through iff the handler did not panic, and a panic is the run's `Aborted` result; its overlay calls are appended to the log |
| OverlayHost.Host.DrainEntry | windows_direct_composition/src/lib.rs:304-308 | a dequeued `WM_QUIT` stops the run with `Quit` after reading it; any other message is dispatched and either stops the run with the handler's panic or leaves the rest of `Drain` from the next entry |
| OverlayHost.Host.DrainQueue | windows_direct_composition/src/lib.rs:304-309 | keeps `Valid`; either stops the run with the outcome `Drain` gives, or consumes at least one entry and leaves the rest of `Turns` for the next turn |
| OverlayHost.Host.NextMessage | windows_direct_composition/src/lib.rs:311 | waits past empty polls only: every entry skipped is an empty poll, and it stops at the first queued message or at the end of the stream |
| OverlayHost.AwaitSkips | windows_direct_composition/src/lib.rs:310-311 | empty polls while waiting do not change the rest of the run |
| OverlayHost.Host.AwaitMessage | windows_direct_composition/src/lib.rs:310-318 | keeps `Valid`; either stops the run with the outcome `Await` gives, or dispatches one message and leaves the rest of `Turns` for the next turn |
| Clock.AnglesNow | windows_direct_composition/examples/clock.rs:53-65 | for a valid time each hand lies in the sector of its own unit (6° per second or minute, 30° per hour on a 12-hour dial), hence on the dial [0, 360) |
| Clock.Unwrap | windows_direct_composition/examples/clock.rs:113-122 | an angle is moved forward one turn exactly when below the stored one, after which it is at least the stored angle and less than a turn past it |
| Clock.SwingIn | windows_direct_composition/examples/clock.rs:111-127 | from swing 1 on the current angles unchanged; below 1 each unwrapped angle scaled by the swing |
| Clock.SwingInMonotone | windows_direct_composition/examples/clock.rs:111-127 | for a fixed time, a larger swing below 1 never turns a hand backwards |
| Clock.SwingStartsAtTwelve | windows_direct_composition/examples/clock.rs:111-127 | at swing 0 every hand points to twelve, whatever the stored angles |
| Clock.Radius | windows_direct_composition/examples/clock.rs:97 | never below 50; for sides of at least 200 it is half the smaller side less 50 |
| Clock.FaceFor | windows_direct_composition/examples/clock.rs:96-167 | hands at the given angles; the hour hand is the shortest and thickest, the second hand the thinnest; every hand is shorter than the radius |
| Clock.PixelExtent | windows_direct_composition/examples/clock.rs:72-73 | `f32 as u32`: truncation toward zero, saturating at 0 and at 2^32-1 |
| Clock.ClockBitmap | windows_direct_composition/examples/clock.rs:69-89 | a bitmap at the overlay's dpi whose pixel size is the target's size scaled by dpi/96 and truncated |
| Clock.ClockOverlay.Init | windows_direct_composition/examples/clock.rs:197-206 | stores the angles and dpi; all three slots empty |
| Clock.ClockOverlay.New | windows_direct_composition/examples/clock.rs:175-207 | fails iff set-up fails; otherwise the stored angles are those of the construction time and every slot is empty |
| Clock.ClockOverlay.CreateResources | windows_direct_composition/examples/clock.rs:209-216 | always Ok; the brush slot holds the brush or nothing; other slots untouched |
| Clock.ClockOverlay.CreateSizedResources | windows_direct_composition/examples/clock.rs:218-224 | a failed bitmap returns the error and changes nothing; otherwise the bitmap is stored with a shadow of it, or no shadow; the shadow always reads the current bitmap |
| Clock.ClockOverlay.ReleaseResources | windows_direct_composition/examples/clock.rs:226-229 | clears the brush only |
| Clock.ClockOverlay.ReleaseSizedResources | windows_direct_composition/examples/clock.rs:231-235 | clears bitmap and shadow only |
| Clock.ClockOverlay.DrawClock | windows_direct_composition/examples/clock.rs:91-171 | panics without a brush; a failed swing read is returned; otherwise the face drawn is `FaceFor` of `SwingIn` of the stored and current angles; the stored angles are never written |
| Clock.ClockOverlay.Draw | windows_direct_composition/examples/clock.rs:237-278 | panics without bitmap or shadow; animation-update and target errors returned in that order; otherwise the outcome of `DrawClock`, then a shadow-output error |
| BackflipText.ReverseSlashes | backflip/src/main.rs:168-174 | a text with no backslash, slash or placeholder is left unchanged |
| BackflipText.Replace | backflip/src/main.rs:168-174 | `str::replace`: a text without the pattern is returned unchanged |
| BackflipText.ParkSlashes | backflip/src/main.rs:168-172 | the first two replacements park each backslash as the placeholder and turn each slash into a backslash |
| BackflipText.UnparkSwaps | backflip/src/main.rs:173-174 | in a text without the placeholder, the last replacement turns the parked text into the slash swap |
| BackflipText.ReverseSlashesSwaps | backflip/src/main.rs:167-175 | without the placeholder in the text, D exchanges `\` and `/` and keeps every other character and the length |
| BackflipText.ReverseSlashesTwice | backflip/src/main.rs:167-175 | without the placeholder in the text, pressing D twice restores it |
| BackflipText.PlaceholderBecomesSlash | backflip/src/main.rs:168-174 | a placeholder already in the text, after a part that does not contain it, comes out as `/`; the part before it is swapped and the rest is processed on its own |
| BackflipText.Join | backflip/src/main.rs:227 | `join`: empty for no names, the name itself for one |
| BackflipText.SplitJoin | backflip/src/main.rs:227 | for a non-empty list of names none of which contains a comma, splitting the comma join at commas gives back the names |
| BackflipText.CommaNamesCollide | backflip/src/main.rs:227 | a name containing a comma is indistinguishable from two names |
| BackflipText.Decimal | backflip/src/main.rs:241-242 | never empty |
| BackflipText.DecimalInjective | backflip/src/main.rs:241-242 | different indices are formatted differently |
| Backflip.Title | backflip/src/main.rs:241-242 | the title is `backflip ` followed by the decimal index, which reads back as the index |
| Backflip.ViewportFor | backflip/src/main.rs:241-242 | the viewport id is hashed from `session-` followed by the decimal index, which reads back as the index |
| Backflip.NamesUnique | backflip/src/main.rs:241-242 | different slot indices get different titles and viewport ids |
| Backflip.OpenSessionsDistinct | backflip/src/main.rs:195-198 | in a numbered slot list no two open sessions share a title or viewport |
| Backflip.Capture | backflip/src/main.rs:224-230 | the clipboard text if readable, else the file names joined with commas, else nothing |
| Backflip.CaptureFilesRecoverable | backflip/src/main.rs:226-227 | a captured file list without commas in its names can be read back |
| Backflip.Opened | backflip/src/main.rs:238-246 | no capture leaves the slots unchanged; a capture appends exactly one session with that text, the title and viewport of the old length and a focus request; numbering is kept |
| Backflip.UpdateSlot | backflip/src/main.rs:138-199 | an empty slot stays empty; a session is closed by a close request, Escape or Enter; otherwise it keeps title and viewport, applies D to its text and no longer asks for focus |
| Backflip.UpdateSlots | backflip/src/main.rs:138-199 | same length; each slot updated with its own input |
| Backflip.FocusRequests | backflip/src/main.rs:190-193 | exactly the indices of sessions asking for focus, in increasing order |
| Backflip.Copies | backflip/src/main.rs:161-165 | at most one copied text per slot |
| Backflip.EnterSlots | backflip/src/main.rs:161-165 | exactly the indices of open sessions in which Enter was pressed, in increasing order |
| Backflip.CopiesFollowEnterSlots | backflip/src/main.rs:161-165 | one copied text per open session with Enter and no other, in slot order: the k-th copy is the text of the k-th such session |
| Backflip.CopiesCarryOldText | backflip/src/main.rs:161-175 | every copied text is the text of an open session with Enter, as it was before D of the same frame |
| Backflip.FocusSpent | backflip/src/main.rs:190-193 | after a frame no session asks for focus, so each is focused at most once |
| Backflip.UpdateKeepsNumbering | backflip/src/main.rs:195-198 | a frame empties closed slots without removing them, so every open session keeps the title of its index |
| Backflip.App.Init | backflip/src/main.rs:65 | the app starts with no slots |
| Backflip.App.NewSession | backflip/src/main.rs:218-248 | always Ok; the slots become `Opened` of the old slots; numbering kept |
| Backflip.App.ShowSession | backflip/src/main.rs:138-199 | one session's viewport for a frame: the slot becomes `UpdateSlot` of it, a focus command goes out iff the session asked for focus, and Enter copies the text it had before D |
| Backflip.App.ShowSessions | backflip/src/main.rs:138-199 | each slot, in order, is updated in place by its own input; the focus commands go to `FocusRequests` and the copies are `Copies` of the slots as they were |
| Backflip.App.Update | backflip/src/main.rs:132-199 | the hotkey opens a session first; then the slots become `UpdateSlots`, the focus commands go to `FocusRequests` and the copies are `Copies`; numbering kept |
| KeyHook.ClassifyAsWritten | src/keyhook.rs:71-92 | the data is the hook structure unchanged; never a system key; down exactly for `WM_KEYDOWN`, up for every other message |
| KeyHook.Classify | src/keyhook.rs:71-92 | the four-way classification the arms spell out: a message only for the four key messages, system for the `SYS` ones, down for the `DOWN` ones |
| KeyHook.PlainKeysAgree | src/keyhook.rs:71-81 | on plain key-down and key-up the code's classification is the intended one |
| KeyHook.SysKeyDownMisread | src/keyhook.rs:77-86 | `WM_SYSKEYDOWN` is reported as a plain key release instead of a system key press |
| KeyHook.HookCallback | src/keyhook.rs:63-101 | a message goes out iff the lock reads and a sender is installed, classified as written; the event is always forwarded with the same code, wParam and lParam |

## Left out

- COM, DXGI, Direct2D and DirectComposition calls are not performed. Each is the outcome it reports, supplied by the caller. The model does not say which failures Windows can actually produce.
- Whether `DXGI_STATUS_OCCLUDED` (a success code) reaches the host as an `Err` depends on windows-rs; the present outcome is an input and the host's comparison is modelled as written.
- The D3D12 debug layer in debug builds (`expect` on its creation) is not modelled; the model is the release build.
- Window-class registration, `CreateWindowExA`, `wndproc` and its pointer passing through `GWLP_USERDATA`, `BeginPaint`/`EndPaint` and `DefWindowProcA` are left out as unsafe FFI. `DefaultProc` stands for the default procedure's answer.
- `GetMessageA`, `PeekMessageA` and `DispatchMessageA` are not modelled; the queue is an input stream. A `WM_QUIT` posted by `WM_DESTROY` is whatever the stream delivers next.
- OverlayHost.Host.Run: the model stops when the stream ends (`Exhausted`); the real loop would wait for more messages.
- `UnregisterOcclusionStatus` and the swapchain's sizes, sync interval and flags are not modelled; they do not affect the host's fields.
- The results of `release_resources` and `release_sized_resources` are discarded by the host, so the model passes Ok for them.
- Clock.AnglesNow: angles are reals; `f32` rounding is not modelled.
- Clock.PixelExtent: `f32` rounding before the cast is not modelled. The NaN case is left out because a real cannot be NaN.
- The Windows Animation Manager, the easing transition, `get_time` and `GetLocalTime` are not modelled. The swing value and the local time are inputs.
- Drawing commands (transforms, ellipse, lines, clears, `DrawImage`) are not modelled. `Face` records what is drawn.
- The clock overlay is not connected to the host's tier flags. `create_resources` answers Ok even when the brush could not be made, so the host's device tier can be set while `brush` is empty.
- egui widgets, the text editor, the main window's name and age fields and the tray icon are left out as GUI plumbing.
- The S and A keys (serde_json encode and decode) are left out because they call a foreign library.
- The clipboard write on Enter is represented by the returned `copied` texts. Its `unwrap` panics are not modelled.
- The hotkey wakeup thread and its channel are represented by the `hotkey` flag of `Backflip.App.Update`.
- Only the Windows branch of `new_session` is modelled. The other branch reads text with arboard.
- `ViewportId::from_hash_of` is represented by the string it hashes; hash collisions are not modelled.
- `start_thread`, hook installation and the `KEY_SENDER` lock are left out. The lock read is the `SenderSlot` input, and the result of `send` is ignored as in the code.
- `src/main.rs` and `backflip-launcher/src/main.rs` are not part of this model; they hold thread, channel and event-loop plumbing.

## Findings

| source | as written | input that shows it | evidently intended | confidence | as-written member | corrected member |
|---|---|---|---|---|---|---|
| src/keyhook.rs:77-91 | only `WM_KEYDOWN` is imported, so the `WM_KEYUP` arm is a binding that matches every other message, and the `WM_SYSKEYDOWN`/`WM_SYSKEYUP` arms are unreachable | wParam = `WM_SYSKEYDOWN` (0x104) gives `Key { direction: Up, sys: false }` | `Key { direction: Down, sys: true }`, with the four key messages each mapped to their own arm | high, not executed | KeyHook.SysKeyDownMisread | KeyHook.Classify |
| windows_direct_composition/src/lib.rs:228-229 | the `WM_USER` arm calls `present`, which unwraps the swapchain; `release_device` (lib.rs:164-169) empties it after a device loss, while the occlusion registration (lib.rs:151-154) stays in force | an occluded present, then a `WM_PAINT` or `WM_SIZE` render whose present reports a device loss, then the registered `WM_USER` notice: the handler panics on `None` | the notice does not panic; with no swapchain to test, the host becomes visible again so the next render rebuilds the surface | medium, not executed | Surface.OcclusionNoticeAfterDeviceLossPanics | Surface.HandleMessageCorrected |
