/**
 * `OverlayHost`: the object that owns the window's surface fields and
 * updates them in place. `Valid()` is the host invariant `Inv`. The methods
 * that have a counterpart in module `Surface` (`Render`,
 * `ResizeSwapchainBitmap`, `MessageHandler`, `ReleaseDevice`) are proved to
 * do exactly what it computes, so the properties proved there hold of the
 * object. `Run` is proved equal to the reference function `Turns`, whose
 * properties are proved by `TurnsKeepPromises`. `Present` and
 * `CreateDeviceSizeResources` unwrap a slot that every caller has checked,
 * so that `unwrap` is their precondition.
 */
module OverlayHost {
  import opened Win32
  import opened OverlayContract
  import opened Surface

  /**
   * What one `PeekMessageA`/`GetMessageA` call finds: a queued message, or
   * (for `PeekMessageA`) an empty queue. `GetMessageA` waits past empty
   * queues for the next message.
   */
  datatype Fetch = Queued(msg: Message) | NothingQueued

  predicate IsQuit(f: Fetch) {
    f.Queued? && f.msg.id == WM_QUIT
  }

  /** How `run` ends. */
  datatype RunResult =
    | Quit                  // Ok(()): WM_QUIT was dequeued
    | Fatal(error: Error)   // Err(e): a render of the loop failed
    | Aborted(why: Panic)   // the message handler panicked
    | Exhausted             // the modelled message stream ended

  /** One thing `run` does to the host: render a frame, or dispatch a message. */
  datatype Act =
    | Rendered(before: HostState, env: RenderEnv)
    | Dispatched(before: HostState, msg: Message)

  /** The host's state after an act. */
  function After(a: Act): HostState {
    match a
    case Rendered(s, env) => Surface.Render(s, env).state
    case Dispatched(s, m) => HandleMessage(s, m).state
  }

  /** The overlay calls an act makes. */
  function ActCalls(a: Act): seq<OverlayCall> {
    match a
    case Rendered(s, env) => Surface.Render(s, env).calls
    case Dispatched(s, m) => HandleMessage(s, m).calls
  }

  /** The act went through: the render succeeded, or the handler did not panic. */
  predicate Succeeded(a: Act) {
    match a
    case Rendered(s, env) => Surface.Render(s, env).result.Ok?
    case Dispatched(s, m) => !HandleMessage(s, m).reply.Panicked?
  }

  /** The overlay calls of a log of acts, in order. */
  function LogCalls(acts: seq<Act>): seq<OverlayCall> {
    if |acts| == 0 then [] else ActCalls(acts[0]) + LogCalls(acts[1..])
  }

  /** The messages a log dispatches, in order. */
  function Dispatches(acts: seq<Act>): seq<Message> {
    if |acts| == 0 then []
    else (if acts[0].Dispatched? then [acts[0].msg] else []) + Dispatches(acts[1..])
  }

  /** The messages queued in `events[i..j]`, in order. */
  function QueuedMsgs(events: seq<Fetch>, i: nat, j: nat): seq<Message>
    requires j <= |events|
    decreases j - i
  {
    if i >= j then []
    else (if events[i].Queued? then [events[i].msg] else []) + QueuedMsgs(events, i + 1, j)
  }

  /** Each act starts where the previous one left the host, the first in `s`; the last leaves `final`. */
  ghost predicate Chained(s: HostState, acts: seq<Act>, final: HostState)
    decreases |acts|
  {
    if |acts| == 0 then s == final
    else acts[0].before == s && Chained(After(acts[0]), acts[1..], final)
  }

  /** How an act that did not go through ends the loop. */
  function Failure(a: Act): RunResult {
    match a
    case Rendered(s, env) =>
      var r := Surface.Render(s, env).result;
      if r.Err? then Fatal(r.error) else Quit
    case Dispatched(s, m) =>
      var h := HandleMessage(s, m).reply;
      if h.Panicked? then Aborted(h.why) else Quit
  }

  /**
   * How `run` ends from some point on: the result, the host's state, how
   * many entries of the stream were read, and what was done, in order.
   */
  datatype Outcome = Outcome(result: RunResult, state: HostState, consumed: nat, acts: seq<Act>)

  /** `o`, preceded by the act `a`. */
  function Then(a: Act, o: Outcome): Outcome {
    o.(acts := [a] + o.acts)
  }

  /** The loop stopped by the act `a`, which did not go through, after reading `consumed` entries. */
  function Stopped(a: Act, consumed: nat): Outcome {
    Outcome(Failure(a), After(a), consumed, [a])
  }

  /**
   * The loop ends Ok exactly at the first `WM_QUIT` read from
   * `events[pos..]`, and runs to the end of the stream when it ends neither
   * Ok nor by a failure.
   */
  ghost predicate ReadsToQuit(events: seq<Fetch>, pos: nat, o: Outcome) {
    && pos <= o.consumed <= |events|
    && (o.result == Quit <==> pos < o.consumed && IsQuit(events[o.consumed - 1]))
    && (forall i :: pos <= i < o.consumed - 1 ==> !IsQuit(events[i]))
    && (o.result == Exhausted ==> o.consumed == |events|)
  }

  /** Only a visible host renders. */
  ghost predicate RendersOnlyVisible(acts: seq<Act>) {
    forall k :: 0 <= k < |acts| && acts[k].Rendered? ==> acts[k].before.visible
  }

  /** The messages dispatched are the queued ones read, less the `WM_QUIT` that ends the loop. */
  ghost predicate DispatchesQueued(events: seq<Fetch>, pos: nat, o: Outcome)
    requires ReadsToQuit(events, pos, o)
  {
    Dispatches(o.acts) + (if o.result == Quit then [events[o.consumed - 1].msg] else [])
      == QueuedMsgs(events, pos, o.consumed)
  }

  /**
   * Every act but the last went through; the loop ends Fatal or Aborted
   * exactly when the last one did not, with that act's error or panic.
   */
  ghost predicate StopsAtFailure(o: Outcome) {
    && (forall k :: 0 <= k < |o.acts| - 1 ==> Succeeded(o.acts[k]))
    && ((o.result.Fatal? || o.result.Aborted?) <==> 0 < |o.acts| && !Succeeded(o.acts[|o.acts| - 1]))
    && (o.result.Fatal? || o.result.Aborted? ==> o.result == Failure(o.acts[|o.acts| - 1]))
  }

  /** What `run` promises from entry `pos` of the stream in state `s`. */
  ghost predicate RunPromises(s: HostState, events: seq<Fetch>, pos: nat, o: Outcome) {
    && ReadsToQuit(events, pos, o)
    && Chained(s, o.acts, o.state)
    && RendersOnlyVisible(o.acts)
    && DispatchesQueued(events, pos, o)
    && StopsAtFailure(o)
  }

  /** The end of the stream. */
  lemma EndExhausted(s: HostState, events: seq<Fetch>)
    ensures RunPromises(s, events, |events|, Outcome(Exhausted, s, |events|, []))
  {
  }

  /** A `WM_QUIT` read at `pos`. */
  lemma EndQuit(s: HostState, events: seq<Fetch>, pos: nat)
    requires pos < |events| && IsQuit(events[pos])
    ensures RunPromises(s, events, pos, Outcome(Quit, s, pos + 1, []))
  {
    assert QueuedMsgs(events, pos + 1, pos + 1) == [];
  }

  /** An act at `pos` that did not go through. */
  lemma EndFailure(s: HostState, events: seq<Fetch>, pos: nat, a: Act)
    requires pos < |events| && a.before == s && !Succeeded(a)
    requires a.Rendered? ==> s.visible
    requires a.Dispatched? ==> events[pos] == Queued(a.msg) && !IsQuit(events[pos])
    ensures var next := if a.Rendered? then pos else pos + 1;
            RunPromises(s, events, pos, Stopped(a, next))
  {
    var next := if a.Rendered? then pos else pos + 1;
    var o := Stopped(a, next);
    assert [a][1..] == [];
    assert Chained(After(a), [], o.state);
    assert Dispatches([a]) == (if a.Dispatched? then [a.msg] else []);
    assert QueuedMsgs(events, pos + 1, pos + 1) == [];
  }

  /** An entry at `pos` that the loop reads past without acting. */
  lemma Skip(s: HostState, events: seq<Fetch>, pos: nat, o: Outcome)
    requires pos < |events| && events[pos].NothingQueued?
    requires RunPromises(s, events, pos + 1, o)
    ensures RunPromises(s, events, pos, o)
  {
  }

  /** An act that went through, followed by the rest of the loop from `next`. */
  lemma Continue(s: HostState, events: seq<Fetch>, pos: nat, next: nat, a: Act, o: Outcome)
    requires pos < |events| && a.before == s && Succeeded(a)
    requires a.Rendered? ==> s.visible && next == pos
    requires a.Dispatched? ==> next == pos + 1 && events[pos] == Queued(a.msg) && !IsQuit(events[pos])
    requires RunPromises(After(a), events, next, o)
    ensures RunPromises(s, events, pos, Then(a, o))
  {
    ContinueReads(events, pos, next, a, o);
    ContinueChained(s, a, o);
    ContinueVisible(a, o.acts);
    ContinueDispatches(events, pos, next, a, o);
    ContinueStops(a, o);
  }

  lemma ContinueReads(events: seq<Fetch>, pos: nat, next: nat, a: Act, o: Outcome)
    requires pos < |events|
    requires a.Rendered? ==> next == pos
    requires a.Dispatched? ==> next == pos + 1 && !IsQuit(events[pos])
    requires ReadsToQuit(events, next, o)
    ensures ReadsToQuit(events, pos, Then(a, o))
  {
  }

  lemma ContinueChained(s: HostState, a: Act, o: Outcome)
    requires a.before == s && Chained(After(a), o.acts, o.state)
    ensures Chained(s, Then(a, o).acts, o.state)
  {
    var t := Then(a, o);
    assert t.acts[0] == a && t.acts[1..] == o.acts;
  }

  lemma ContinueVisible(a: Act, acts: seq<Act>)
    requires a.Rendered? ==> a.before.visible
    requires RendersOnlyVisible(acts)
    ensures RendersOnlyVisible([a] + acts)
  {
    forall k | 0 < k < |[a] + acts|
      ensures ([a] + acts)[k] == acts[k - 1]
    {
    }
  }

  lemma ContinueDispatches(events: seq<Fetch>, pos: nat, next: nat, a: Act, o: Outcome)
    requires pos < |events|
    requires a.Rendered? ==> next == pos
    requires a.Dispatched? ==> next == pos + 1 && events[pos] == Queued(a.msg) && !IsQuit(events[pos])
    requires ReadsToQuit(events, next, o) && DispatchesQueued(events, next, o)
    requires ReadsToQuit(events, pos, Then(a, o))
    ensures DispatchesQueued(events, pos, Then(a, o))
  {
    var t := Then(a, o);
    assert t.acts[0] == a && t.acts[1..] == o.acts;
    assert Dispatches(t.acts) == (if a.Dispatched? then [a.msg] else []) + Dispatches(o.acts);
  }

  lemma ContinueStops(a: Act, o: Outcome)
    requires Succeeded(a) && StopsAtFailure(o)
    ensures StopsAtFailure(Then(a, o))
  {
    var t := Then(a, o);
    forall k | 0 <= k < |t.acts| - 1
      ensures Succeeded(t.acts[k])
    {
      if k > 0 {
        assert t.acts[k] == o.acts[k - 1];
      }
    }
    if 0 < |o.acts| {
      assert t.acts[|t.acts| - 1] == o.acts[|o.acts| - 1];
    }
  }

  /**
   * `run`'s loop at the start of turn `turn`, with `events[pos..]` still to
   * come: a visible host renders `frame(turn)` and drains the queue; a
   * host that is not visible waits for one message.
   */
  function Turns(s: HostState, events: seq<Fetch>, pos: nat, turn: nat, frame: nat -> RenderEnv): Outcome
    requires pos <= |events|
    decreases |events| - pos, 1
  {
    if pos == |events| then Outcome(Exhausted, s, pos, [])
    else if s.visible then
      var act := Rendered(s, frame(turn));
      if !Succeeded(act) then Stopped(act, pos)
      else Then(act, Drain(After(act), events, pos, turn, frame))
    else Await(s, events, pos, turn, frame)
  }

  /** `PeekMessageA(PM_REMOVE)` in turn `turn`: dispatch queued messages until the queue is empty. */
  function Drain(s: HostState, events: seq<Fetch>, pos: nat, turn: nat, frame: nat -> RenderEnv): Outcome
    requires pos <= |events|
    decreases |events| - pos, 0
  {
    if pos == |events| then Outcome(Exhausted, s, pos, [])
    else if events[pos].NothingQueued? then Turns(s, events, pos + 1, turn + 1, frame)
    else if events[pos].msg.id == WM_QUIT then Outcome(Quit, s, pos + 1, [])
    else
      var act := Dispatched(s, events[pos].msg);
      if !Succeeded(act) then Stopped(act, pos + 1)
      else Then(act, Drain(After(act), events, pos + 1, turn, frame))
  }

  /** `GetMessageA` in turn `turn`: wait past empty polls for one message and dispatch it. */
  function Await(s: HostState, events: seq<Fetch>, pos: nat, turn: nat, frame: nat -> RenderEnv): Outcome
    requires pos <= |events|
    decreases |events| - pos, 0
  {
    if pos == |events| then Outcome(Exhausted, s, pos, [])
    else if events[pos].NothingQueued? then Await(s, events, pos + 1, turn, frame)
    else if events[pos].msg.id == WM_QUIT then Outcome(Quit, s, pos + 1, [])
    else
      var act := Dispatched(s, events[pos].msg);
      if !Succeeded(act) then Stopped(act, pos + 1)
      else Then(act, Turns(After(act), events, pos + 1, turn + 1, frame))
  }

  /** The loop keeps its promises from the start of any turn. */
  lemma {:induction false} TurnsKeepPromises(s: HostState, events: seq<Fetch>, pos: nat, turn: nat, frame: nat -> RenderEnv)
    requires pos <= |events|
    ensures RunPromises(s, events, pos, Turns(s, events, pos, turn, frame))
    decreases |events| - pos, 1
  {
    if pos == |events| {
      EndExhausted(s, events);
    } else if s.visible {
      var act := Rendered(s, frame(turn));
      if !Succeeded(act) {
        EndFailure(s, events, pos, act);
      } else {
        DrainKeepsPromises(After(act), events, pos, turn, frame);
        Continue(s, events, pos, pos, act, Drain(After(act), events, pos, turn, frame));
      }
    } else {
      AwaitKeepsPromises(s, events, pos, turn, frame);
    }
  }

  /** Draining the queue keeps the loop's promises. */
  lemma {:induction false} DrainKeepsPromises(s: HostState, events: seq<Fetch>, pos: nat, turn: nat, frame: nat -> RenderEnv)
    requires pos <= |events|
    ensures RunPromises(s, events, pos, Drain(s, events, pos, turn, frame))
    decreases |events| - pos, 0
  {
    if pos == |events| {
      EndExhausted(s, events);
    } else if events[pos].NothingQueued? {
      TurnsKeepPromises(s, events, pos + 1, turn + 1, frame);
      Skip(s, events, pos, Turns(s, events, pos + 1, turn + 1, frame));
    } else if events[pos].msg.id == WM_QUIT {
      EndQuit(s, events, pos);
    } else {
      var act := Dispatched(s, events[pos].msg);
      if !Succeeded(act) {
        EndFailure(s, events, pos, act);
      } else {
        DrainKeepsPromises(After(act), events, pos + 1, turn, frame);
        Continue(s, events, pos, pos + 1, act, Drain(After(act), events, pos + 1, turn, frame));
      }
    }
  }

  /** Waiting for a message keeps the loop's promises. */
  lemma {:induction false} AwaitKeepsPromises(s: HostState, events: seq<Fetch>, pos: nat, turn: nat, frame: nat -> RenderEnv)
    requires pos <= |events|
    ensures RunPromises(s, events, pos, Await(s, events, pos, turn, frame))
    decreases |events| - pos, 0
  {
    if pos == |events| {
      EndExhausted(s, events);
    } else if events[pos].NothingQueued? {
      AwaitKeepsPromises(s, events, pos + 1, turn, frame);
      Skip(s, events, pos, Await(s, events, pos + 1, turn, frame));
    } else if events[pos].msg.id == WM_QUIT {
      EndQuit(s, events, pos);
    } else {
      var act := Dispatched(s, events[pos].msg);
      if !Succeeded(act) {
        EndFailure(s, events, pos, act);
      } else {
        TurnsKeepPromises(After(act), events, pos + 1, turn + 1, frame);
        Continue(s, events, pos, pos + 1, act, Turns(After(act), events, pos + 1, turn + 1, frame));
      }
    }
  }

  /** A history that held the log's calls, extended by one more act's calls, holds the longer log's. */
  lemma HistoryGrows(h0: seq<OverlayCall>, done: seq<Act>, a: Act, before: seq<OverlayCall>, after: seq<OverlayCall>)
    requires before == h0 + LogCalls(done) && after == before + ActCalls(a)
    ensures after == h0 + LogCalls(done + [a])
  {
    LogCallsAppend(done, a);
    ConcatAssoc(h0, LogCalls(done), ActCalls(a));
  }

  lemma ConcatAssoc(x: seq<OverlayCall>, y: seq<OverlayCall>, z: seq<OverlayCall>)
    ensures (x + y) + z == x + (y + z)
  {
  }

  /** `full` is the log `done` so far followed by the outcome `rest` of the remaining loop. */
  ghost predicate Resumes(full: Outcome, done: seq<Act>, rest: Outcome) {
    && full.result == rest.result && full.state == rest.state && full.consumed == rest.consumed
    && full.acts == done + rest.acts
  }

  /** An act moves from the outcome still to come to the log so far. */
  lemma ResumeThen(full: Outcome, done: seq<Act>, a: Act, rest: Outcome)
    requires Resumes(full, done, Then(a, rest))
    ensures Resumes(full, done + [a], rest)
  {
    assert done + ([a] + rest.acts) == (done + [a]) + rest.acts;
  }

  /** The loop has ended with `o`: everything it did is in the log. */
  lemma ResumeEnd(full: Outcome, done: seq<Act>, o: Outcome)
    requires Resumes(full, done, o) && o.acts == []
    ensures full == Outcome(o.result, o.state, o.consumed, done)
  {
    assert done + [] == done;
  }

  /** The loop has been stopped by the act `a`, the last in the log. */
  lemma ResumeStopped(full: Outcome, done: seq<Act>, a: Act, consumed: nat)
    requires Resumes(full, done, Stopped(a, consumed))
    ensures full == Outcome(Failure(a), After(a), consumed, done + [a])
  {
  }

  /** A poll that finds the queue empty ends the drain and the turn. */
  lemma DrainEmpty(s: HostState, events: seq<Fetch>, pos: nat, turn: nat, frame: nat -> RenderEnv)
    requires pos < |events| && events[pos].NothingQueued?
    ensures Drain(s, events, pos, turn, frame) == Turns(s, events, pos + 1, turn + 1, frame)
  {
  }

  /** The stream ends during a drain. */
  lemma DrainExhausted(s: HostState, events: seq<Fetch>, turn: nat, frame: nat -> RenderEnv)
    ensures Drain(s, events, |events|, turn, frame) == Outcome(Exhausted, s, |events|, [])
  {
  }

  /** A dispatch at `pos` while draining the queue. */
  lemma DrainDispatch(s: HostState, events: seq<Fetch>, pos: nat, turn: nat, frame: nat -> RenderEnv)
    requires pos < |events| && events[pos].Queued? && events[pos].msg.id != WM_QUIT
    ensures var act := Dispatched(s, events[pos].msg);
            Drain(s, events, pos, turn, frame) ==
              if Succeeded(act) then Then(act, Drain(After(act), events, pos + 1, turn, frame))
              else Stopped(act, pos + 1)
  {
  }

  /** A dispatch at `pos` after waiting for a message. */
  lemma AwaitDispatch(s: HostState, events: seq<Fetch>, pos: nat, turn: nat, frame: nat -> RenderEnv)
    requires pos < |events| && events[pos].Queued? && events[pos].msg.id != WM_QUIT
    ensures var act := Dispatched(s, events[pos].msg);
            Await(s, events, pos, turn, frame) ==
              if Succeeded(act) then Then(act, Turns(After(act), events, pos + 1, turn + 1, frame))
              else Stopped(act, pos + 1)
  {
  }

  /** Empty polls while waiting change nothing about the rest of the loop. */
  lemma {:induction false} AwaitSkips(s: HostState, events: seq<Fetch>, pos0: nat, pos: nat, turn: nat,
                                      frame: nat -> RenderEnv)
    requires pos0 <= pos <= |events|
    requires forall k :: pos0 <= k < pos ==> events[k].NothingQueued?
    ensures Await(s, events, pos0, turn, frame) == Await(s, events, pos, turn, frame)
    decreases pos - pos0
  {
    if pos0 < pos {
      AwaitSkips(s, events, pos0 + 1, pos, turn, frame);
    }
  }

  /** The render that opens a visible turn. */
  lemma TurnRenders(s: HostState, events: seq<Fetch>, pos: nat, turn: nat, frame: nat -> RenderEnv)
    requires pos < |events| && s.visible
    ensures var act := Rendered(s, frame(turn));
            Turns(s, events, pos, turn, frame) ==
              if Succeeded(act) then Then(act, Drain(After(act), events, pos, turn, frame))
              else Stopped(act, pos)
  {
  }

  /** Appending an act to a log appends its calls. */
  lemma {:induction false} LogCallsAppend(acts: seq<Act>, a: Act)
    ensures LogCalls(acts + [a]) == LogCalls(acts) + ActCalls(a)
    decreases |acts|
  {
    if |acts| == 0 {
      assert acts + [a] == [a];
    } else {
      assert (acts + [a])[1..] == acts[1..] + [a];
      LogCallsAppend(acts[1..], a);
    }
  }

  class Host<A> {
    var target: Option<DeviceContext>
    var swapchain: Option<SwapChain>
    var dcompvisual: Option<Visual>
    var dcomptarget: Option<CompTarget>
    var visible: bool
    var occlusion: u32
    const overlay: Overlay<A>

    ghost function State(): HostState
      reads this, overlay
    {
      HostState(target, swapchain, dcompvisual, dcomptarget, visible, occlusion,
                overlay.deviceTier, overlay.sizedTier)
    }

    ghost predicate Valid()
      reads this, overlay
    {
      Inv(State())
    }

    constructor Init(overlay: Overlay<A>)
      requires !overlay.deviceTier && !overlay.sizedTier
      ensures this.overlay == overlay
      ensures State() == Initial && Valid()
    {
      this.overlay := overlay;
      target, swapchain, dcompvisual, dcomptarget := None, None, None, None;
      visible, occlusion := false, 0;
    }

    /**
     * `new(args)`: `platform` is the first failure among COM initialisation
     * and the two factories, `content` the overlay constructor's answer.
     * A new host has no surface, is not visible and holds no cookie.
     */
    static method New(args: A, platform: Status, content: Status) returns (r: Result<Host<A>>)
      ensures r.Ok? <==> platform.Ok? && content.Ok?
      ensures r.Err? ==> r.error == (if platform.Err? then platform.error else content.error)
      ensures r.Ok? ==> fresh(r.value) && fresh(r.value.overlay)
      ensures r.Ok? ==> r.value.Valid() && r.value.State() == Initial
      ensures r.Ok? ==> r.value.overlay.args == args && r.value.overlay.history == []
    {
      if platform.Err? {
        return Err(platform.error);
      }
      var overlay := Overlay.New(args, content);
      if overlay.Err? {
        return Err(overlay.error);
      }
      var host := new Host.Init(overlay.value);
      return Ok(host);
    }

    /** `present(sync, flags)`: unwraps the swapchain and reports what `Present` answered. */
    method Present(outcome: Status) returns (r: Status)
      requires swapchain.Some?
      ensures r == outcome
    {
      r := outcome;
    }

    /** `release_device_resources`: releases the overlay's sized tier. */
    method ReleaseDeviceResources()
      modifies overlay
      ensures State() == old(State()).(sizedTier := false)
      ensures overlay.history == old(overlay.history) + [ReleaseSizedCall]
    {
      // The overlay's result is discarded, so the value passed does not matter.
      var _ := overlay.ReleaseSizedResources(Ok(()));
    }

    /** `release_device`: see `Surface.ReleaseDevice`. */
    method ReleaseDevice()
      modifies this, overlay
      ensures State() == Surface.ReleaseDevice(old(State())).state
      ensures overlay.history == old(overlay.history) + Surface.ReleaseDevice(old(State())).calls
    {
      target := None;
      swapchain := None;
      var _ := overlay.ReleaseResources(Ok(()));
      ReleaseDeviceResources();
    }

    /**
     * `create_device_size_resources`: unwraps the device context, asks the
     * overlay for its sized resources and reports Ok whatever it answered.
     */
    method CreateDeviceSizeResources(outcome: Status) returns (r: Status)
      requires target.Some?
      modifies overlay
      ensures r == Ok(())
      ensures State() == old(State()).(sizedTier := old(overlay.sizedTier) || outcome.Ok?)
      ensures overlay.history == old(overlay.history) + [CreateSizedCall]
    {
      var _ := overlay.CreateSizedResources(outcome);
      r := Ok(());
    }

    /** `render`: see `Surface.Render`. */
    method Render(env: RenderEnv) returns (r: Status)
      requires Valid()
      modifies this, overlay
      ensures Valid()
      ensures State() == Surface.Render(old(State()), env).state
      ensures r == Surface.Render(old(State()), env).result
      ensures overlay.history == old(overlay.history) + Surface.Render(old(State()), env).calls
    {
      if target.None? {
        var device := CreateDevice(env.hardware, env.warp);
        if device.Err? {
          return Err(device.error);
        }
        if env.surface.Err? {
          return env.surface;
        }
        var chain := SwapChain(device.value);
        var visual := Visual(chain);
        dcompvisual := Some(visual);
        dcomptarget := Some(CompTarget(visual));
        var created := overlay.CreateResources(env.createResources);
        if created.Err? {
          return created;
        }
        target := Some(DeviceContext(device.value));
        swapchain := Some(chain);
        var _ := CreateDeviceSizeResources(env.createSized);
      }
      var drawn := overlay.Draw(env.draw);
      if drawn.Err? {
        return drawn;
      }
      if env.endDraw.Err? {
        return env.endDraw;
      }
      var presented := Present(env.present);
      if presented.Err? {
        if presented.error.code == DXGI_STATUS_OCCLUDED {
          match env.register
          case Err(e) =>
            return Err(e);
          case Ok(cookie) =>
            occlusion := cookie;
            visible := false;
        } else {
          ReleaseDevice();
        }
      }
      return Ok(());
    }

    /** `resize_swapchain_bitmap`: see `Surface.Resize`. */
    method ResizeSwapchainBitmap(env: MessageEnv) returns (r: Status)
      requires Valid()
      modifies this, overlay
      ensures Valid()
      ensures State() == Resize(old(State()), env).state
      ensures r == Resize(old(State()), env).result
      ensures overlay.history == old(overlay.history) + Resize(old(State()), env).calls
    {
      if target.Some? {
        ghost var h0 := overlay.history;
        ghost var first: seq<OverlayCall>;
        if env.resizeBuffers.Ok? {
          if env.bitmap.Err? {
            return env.bitmap;
          }
          var _ := CreateDeviceSizeResources(env.resizeSized);
          first := [CreateSizedCall];
        } else {
          ReleaseDevice();
          first := ReleaseCalls;
        }
        ghost var between := State();
        r := Render(env.render);
        ConcatAssoc(h0, first, Surface.Render(between, env.render).calls);
        if r.Err? {
          return r;
        }
      }
      return Ok(());
    }

    /** `message_handler`: see `Surface.HandleMessage`. */
    method MessageHandler(m: Message) returns (reply: Reply)
      requires Valid()
      modifies this, overlay
      ensures Valid()
      ensures State() == HandleMessage(old(State()), m).state
      ensures reply == HandleMessage(old(State()), m).reply
      ensures overlay.history == old(overlay.history) + HandleMessage(old(State()), m).calls
    {
      if m.id == WM_PAINT {
        var r := Render(m.env.render);
        reply := if r.Err? then Panicked(RenderFailed(r.error)) else Handled;
      } else if m.id == WM_SIZE {
        if m.wparam != SIZE_MINIMIZED {
          var r := ResizeSwapchainBitmap(m.env);
          reply := if r.Err? then Panicked(RenderFailed(r.error)) else Handled;
        } else {
          reply := Handled;
        }
      } else if m.id == WM_DISPLAYCHANGE {
        var r := Render(m.env.render);
        reply := if r.Err? then Panicked(RenderFailed(r.error)) else Handled;
      } else if m.id == WM_USER {
        if swapchain.None? {
          reply := Panicked(NoSwapchain);
        } else {
          var tested := Present(m.env.presentTest);
          if tested.Ok? {
            occlusion := 0;
            visible := true;
          }
          reply := Handled;
        }
      } else if m.id == WM_ACTIVATE {
        visible := true;
        reply := Handled;
      } else if m.id == WM_DESTROY {
        reply := QuitPosted;
      } else {
        reply := DefaultProc;
      }
    }

    /**
     * `run`'s message loop over the stream of what the queue yields, with
     * `frame(k)` the answers for the render of turn k: it does exactly what
     * `Turns` describes from the host's current state.
     */
    method Run(events: seq<Fetch>, frame: nat -> RenderEnv) returns (r: RunResult)
      requires Valid()
      modifies this, overlay
      ensures Valid()
      ensures RunPromises(old(State()), events, 0, Turns(old(State()), events, 0, 0, frame))
      ensures var o := Turns(old(State()), events, 0, 0, frame);
              && r == o.result && State() == o.state
              && overlay.history == old(overlay.history) + LogCalls(o.acts)
    {
      TurnsKeepPromises(State(), events, 0, 0, frame);
      ghost var full := Turns(State(), events, 0, 0, frame);
      ghost var h0 := overlay.history;
      ghost var done: seq<Act> := [];
      var pos := 0;
      var turn: nat := 0;
      while pos < |events|
        invariant Valid()
        invariant pos <= |events|
        invariant overlay.history == h0 + LogCalls(done)
        invariant Resumes(full, done, Turns(State(), events, pos, turn, frame))
        decreases |events| - pos
      {
        var stop: Option<RunResult>;
        if visible {
          ghost var act := Rendered(State(), frame(turn));
          ghost var history := overlay.history;
          TurnRenders(State(), events, pos, turn, frame);
          var rendered := Render(frame(turn));
          assert After(act) == State() && (Succeeded(act) <==> rendered.Ok?);
          HistoryGrows(h0, done, act, history, overlay.history);
          if rendered.Err? {
            ResumeStopped(full, done, act, pos);
            assert Failure(act) == Fatal(rendered.error);
            return Fatal(rendered.error);
          }
          ResumeThen(full, done, act, Drain(State(), events, pos, turn, frame));
          done := done + [act];
          pos, done, stop := DrainQueue(events, pos, turn, frame, full, done, h0);
        } else {
          pos, done, stop := AwaitMessage(events, pos, turn, frame, full, done, h0);
        }
        if stop.Some? {
          return stop.value;
        }
        turn := turn + 1;
      }
      ResumeEnd(full, done, Turns(State(), events, pos, turn, frame));
      return Exhausted;
    }

    /**
     * `DispatchMessageA`: hands one message to the window procedure, which
     * passes it to `message_handler`. The act is logged after the acts so
     * far.
     */
    method Dispatch(m: Message, ghost h0: seq<OverlayCall>, ghost done: seq<Act>)
      returns (reply: Reply, ghost act: Act)
      requires Valid() && overlay.history == h0 + LogCalls(done)
      modifies this, overlay
      ensures Valid() && act == Dispatched(old(State()), m) && State() == After(act)
      ensures Succeeded(act) <==> !reply.Panicked?
      ensures reply.Panicked? ==> Failure(act) == Aborted(reply.why)
      ensures overlay.history == h0 + LogCalls(done + [act])
    {
      act := Dispatched(State(), m);
      ghost var history := overlay.history;
      reply := MessageHandler(m);
      HistoryGrows(h0, done, act, history, overlay.history);
    }

    /**
     * One message the `PeekMessageA` loop removed from the queue: a
     * `WM_QUIT` ends the run, anything else is dispatched, and a panic ends
     * the run.
     */
    method DrainEntry(events: seq<Fetch>, pos: nat, turn: nat, frame: nat -> RenderEnv,
                      ghost full: Outcome, ghost done0: seq<Act>, ghost h0: seq<OverlayCall>)
      returns (ghost done: seq<Act>, stop: Option<RunResult>)
      requires Valid() && pos < |events| && events[pos].Queued?
      requires overlay.history == h0 + LogCalls(done0)
      requires Resumes(full, done0, Drain(State(), events, pos, turn, frame))
      modifies this, overlay
      ensures Valid()
      ensures overlay.history == h0 + LogCalls(done)
      ensures stop.Some? ==> full == Outcome(stop.value, State(), pos + 1, done)
      ensures stop.None? ==> Resumes(full, done, Drain(State(), events, pos + 1, turn, frame))
    {
      var m := events[pos].msg;
      if m.id == WM_QUIT {
        ResumeEnd(full, done0, Drain(State(), events, pos, turn, frame));
        return done0, Some(Quit);
      }
      DrainDispatch(State(), events, pos, turn, frame);
      var reply, act := Dispatch(m, h0, done0);
      if reply.Panicked? {
        ResumeStopped(full, done0, act, pos + 1);
        return done0 + [act], Some(Aborted(reply.why));
      }
      ResumeThen(full, done0, act, Drain(State(), events, pos + 1, turn, frame));
      return done0 + [act], None;
    }

    /**
     * The `PeekMessageA(PM_REMOVE)` loop of a visible turn: dispatches
     * queued messages until the queue is empty (reading past the empty
     * poll), and stops the run at a `WM_QUIT` or a panic.
     */
    method DrainQueue(events: seq<Fetch>, pos0: nat, turn: nat, frame: nat -> RenderEnv,
                      ghost full: Outcome, ghost done0: seq<Act>, ghost h0: seq<OverlayCall>)
      returns (pos: nat, ghost done: seq<Act>, stop: Option<RunResult>)
      requires Valid() && pos0 <= |events|
      requires overlay.history == h0 + LogCalls(done0)
      requires Resumes(full, done0, Drain(State(), events, pos0, turn, frame))
      modifies this, overlay
      ensures Valid() && pos0 <= pos <= |events|
      ensures overlay.history == h0 + LogCalls(done)
      ensures stop.Some? ==> full == Outcome(stop.value, State(), pos, done)
      ensures stop.None? ==> pos0 < pos && Resumes(full, done, Turns(State(), events, pos, turn + 1, frame))
    {
      pos, done := pos0, done0;
      while pos < |events| && events[pos].Queued?
        invariant Valid()
        invariant pos0 <= pos <= |events|
        invariant overlay.history == h0 + LogCalls(done)
        invariant Resumes(full, done, Drain(State(), events, pos, turn, frame))
        decreases |events| - pos
      {
        done, stop := DrainEntry(events, pos, turn, frame, full, done, h0);
        pos := pos + 1;
        if stop.Some? {
          return;
        }
      }
      if pos < |events| {
        // The PeekMessageA call that found nothing ends the turn.
        DrainEmpty(State(), events, pos, turn, frame);
        return pos + 1, done, None;
      }
      DrainExhausted(State(), events, turn, frame);
      ResumeEnd(full, done, Drain(State(), events, pos, turn, frame));
      return pos, done, Some(Exhausted);
    }

    /**
     * How far `GetMessageA` waits: past the empty polls from `pos0` to the
     * next queued message, or to the end of the stream.
     */
    static method NextMessage(events: seq<Fetch>, pos0: nat) returns (pos: nat)
      requires pos0 <= |events|
      ensures pos0 <= pos <= |events|
      ensures pos < |events| ==> events[pos].Queued?
      ensures forall k :: pos0 <= k < pos ==> events[k].NothingQueued?
    {
      pos := pos0;
      while pos < |events| && events[pos].NothingQueued?
        invariant pos0 <= pos <= |events|
        invariant forall k :: pos0 <= k < pos ==> events[k].NothingQueued?
        decreases |events| - pos
      {
        pos := pos + 1;
      }
    }

    /**
     * The `GetMessageA` call of a turn that starts not visible: waits past empty polls for
     * one message and dispatches it, and stops the run at a `WM_QUIT` or a
     * panic.
     */
    method AwaitMessage(events: seq<Fetch>, pos0: nat, turn: nat, frame: nat -> RenderEnv,
                        ghost full: Outcome, ghost done0: seq<Act>, ghost h0: seq<OverlayCall>)
      returns (pos: nat, ghost done: seq<Act>, stop: Option<RunResult>)
      requires Valid() && pos0 < |events| && !visible
      requires overlay.history == h0 + LogCalls(done0)
      requires Resumes(full, done0, Await(State(), events, pos0, turn, frame))
      modifies this, overlay
      ensures Valid() && pos0 <= pos <= |events|
      ensures overlay.history == h0 + LogCalls(done)
      ensures stop.Some? ==> full == Outcome(stop.value, State(), pos, done)
      ensures stop.None? ==> pos0 < pos && Resumes(full, done, Turns(State(), events, pos, turn + 1, frame))
    {
      done := done0;
      pos := NextMessage(events, pos0);
      AwaitSkips(State(), events, pos0, pos, turn, frame);
      if pos == |events| {
        ResumeEnd(full, done, Await(State(), events, pos, turn, frame));
        return pos, done, Some(Exhausted);
      }
      var m := events[pos].msg;
      if m.id == WM_QUIT {
        ResumeEnd(full, done, Await(State(), events, pos, turn, frame));
        return pos + 1, done, Some(Quit);
      }
      AwaitDispatch(State(), events, pos, turn, frame);
      var reply, act := Dispatch(m, h0, done);
      if reply.Panicked? {
        ResumeStopped(full, done, act, pos + 1);
        return pos + 1, done + [act], Some(Aborted(reply.why));
      }
      ResumeThen(full, done, act, Turns(State(), events, pos + 1, turn + 1, frame));
      return pos + 1, done + [act], None;
    }
  }
}
