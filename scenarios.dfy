/// Whole runs of the dispatch library and of the application, from a fresh
/// process state: the registry's one-dispatcher rule, the spawn/complete
/// round trip, the order of envelopes, the collapse of a burst of resizes,
/// and what happens to a frame computed before a resize.
module Scenarios {
  import opened Base
  import opened Sdl
  import opened Dispatch
  import SdlApp
  import MainApp

  /// Dispatching before any dispatcher is installed panics (under the read
  /// lock, which does not poison it); once the first guard is dropped,
  /// another dispatcher can be installed; installing a third while that one
  /// is current panics. That last panic happens under the write lock and
  /// poisons `CURRENTDISPATCHER`, so the run stops there.
  method RegistryLifecycle() returns (beforeAny: Outcome, first: Outcome, afterDrop: Outcome, second: Outcome)
    ensures beforeAny == Panicked(Dispatch.NoPump)
    ensures first == Done
    ensures afterDrop == Done
    ensures second == Panicked("Cannot have more than one main thread dispatcher systemwide.")
  {
    var host := new Host<int>();
    var rx;
    beforeAny, rx := host.Spawn(Named("u32"), Named("u32"), 10);
    first := host.MakeCurrent(Dispatcher(0));
    host.DropGuard();
    afterDrop := host.MakeCurrent(Dispatcher(1));
    second := host.MakeCurrent(Dispatcher(2));
  }

  /// A task `(u32, u32)` whose handler doubles its input: spawning 10 and
  /// letting the owner loop handle the one event delivers 20 to the
  /// receiver, and the envelope's sender is spent, so it cannot be
  /// completed again.
  method DoublingRoundTrip() returns (before: Poll<int>, received: Poll<int>, spent: bool)
    ensures before == Pending
    ensures received == Delivered(20)
    ensures spent
  {
    var host := new Host<int>();
    var tin, tout := Named("u32"), Named("u32");
    var o := host.RegisterTaskType(tin, tout);
    o := host.MakeCurrent(Dispatcher(0));
    var rx;
    o, rx := host.Spawn(tin, tout, 10);
    before := Receive(host.channels[rx]);
    var e := host.PollEvent();
    var task := HandleSdlEvent(tin, tout, e.value);
    o := host.Complete(task.value, task.value.input * 2, "20");
    received := Receive(host.channels[rx]);
    spent := !host.channels[task.value.slot].senderAlive;
  }

  /// Two tasks of one type spawned in order reach the owner loop in that
  /// order, each with its own channel.
  method SameSenderOrder() returns (firstInput: int, secondInput: int, distinctSlots: bool)
    ensures firstInput == 1 && secondInput == 2 && distinctSlots
  {
    var host := new Host<int>();
    var tin, tout := Named("u32"), Named("u32");
    var o := host.RegisterTaskType(tin, tout);
    o := host.MakeCurrent(Dispatcher(0));
    var rx1, rx2;
    o, rx1 := host.Spawn(tin, tout, 1);
    o, rx2 := host.Spawn(tin, tout, 2);
    var e1 := host.PollEvent();
    var e2 := host.PollEvent();
    var t1 := HandleSdlEvent(tin, tout, e1.value);
    var t2 := HandleSdlEvent(tin, tout, e2.value);
    firstInput, secondInput := t1.value.input, t2.value.input;
    distinctSlots := t1.value.slot != t2.value.slot;
  }

  /// A runner from `AppBuilder::build` still holds the event pump it
  /// created, so `run` panics taking its own: no type is registered and
  /// `start` is never called.
  method BuiltRunnerPanics() returns (calls: seq<SdlApp.AppCall>, end: SdlApp.RunEnd, registered: set<TypeTag>)
    ensures calls == [] && end == SdlApp.PumpTaken(SdlApp.PumpTakenPanic) && registered == {}
  {
    var builder := new SdlApp.AppBuilder("Mandelbrot");
    builder.WithDispatch();
    var config := builder.Build();
    var host := new Host<MainApp.Msg>();
    calls, end := SdlApp.Run(host, config, MainApp.Handlers, []);
    registered := host.registered;
  }

  /// A host on which the application's message types are registered and a
  /// dispatcher is installed. The scenarios install that dispatcher
  /// themselves: `AppRunner::run` registers the types but never calls
  /// `make_current`, so under `run` alone every `send` and `spawn` of the
  /// application would panic with `Dispatch.NoPump`.
  method AppHost() returns (host: Host<MainApp.Msg>)
    ensures fresh(host) && host.Valid()
    ensures host.current.Some? && host.queue == [] && host.channels == []
    ensures forall t :: t in MainApp.Handlers ==> t in host.registered
  {
    host := new Host<MainApp.Msg>();
    var o := SdlApp.RegisterDispatch(host, MainApp.Handlers);
    MainApp.HandlersRegister({});
    assert SdlApp.CleanPrefix(MainApp.Handlers, {}) == |MainApp.Handlers|;
    assert forall j :: 0 <= j < |MainApp.Handlers| ==> MainApp.Handlers[j] in host.registered;
    o := host.MakeCurrent(Dispatcher(0));
  }

  /// An application with a 2x2 window and a texture with row padding.
  method NewApp(host: Host<MainApp.Msg>) returns (app: MainApp.MainApp)
    ensures fresh(app) && fresh(app.texture) && fresh(app.texture.pixels)
    ensures app.Valid() && app.host == host && app.w == 2 && app.h == 2
    ensures app.mandelbrotTask.None? && app.resizeTimer.None? && app.launched == [] && app.tickers == []
    ensures app.sector == MainApp.Initial(2, 2)
  {
    var texture := new MainApp.Texture(2, 2, 8);
    app := new MainApp.MainApp(host, 2, 2, texture);
  }

  /// Three resizes in a row: the tickers of the first two are cancelled,
  /// the last one is live.
  method ThreeResizes() returns (host: Host<MainApp.Msg>, t1: MainApp.Ticker, t2: MainApp.Ticker, t3: MainApp.Ticker)
    ensures fresh(host) && host.Valid() && host.current.Some? && host.queue == []
    ensures MainApp.ResizeTextureType in host.registered
    ensures t1.cancellation.cancelled && t2.cancellation.cancelled && !t3.cancellation.cancelled && !t3.fired
    ensures fresh(t1) && fresh(t2) && fresh(t3)
    ensures t1.tag == t2.tag == t3.tag == MainApp.ResizeTextureType && t3.message == MainApp.ResizeTextureMsg
  {
    host := AppHost();
    var app := NewApp(host);
    app.Resized();
    t1 := app.resizeTimer.value;
    app.Resized();
    t2 := app.resizeTimer.value;
    app.Resized();
    t3 := app.resizeTimer.value;
  }

  /// Three resizes before the debounce delay elapses: every ticker's delay
  /// then elapses, and only the last one sends `ResizeTexture`, once.
  method ResizeBurst() returns (sent: seq<HostEvent<MainApp.Msg>>, timersCancelled: nat)
    ensures sent == [BareEvent(MainApp.ResizeTextureType, MainApp.ResizeTextureMsg)]
    ensures timersCancelled == 2
  {
    var host, t1, t2, t3 := ThreeResizes();
    var o1 := t1.Elapse(host);
    var o2 := t2.Elapse(host);
    var o3 := t3.Elapse(host);
    sent := host.queue;
    timersCancelled := (if t1.cancellation.cancelled then 1 else 0) + (if t2.cancellation.cancelled then 1 else 0) +
                       (if t3.cancellation.cancelled then 1 else 0);
  }

  /// A settled resize, then a redraw: `resize_texture` sends `Redraw`, and
  /// handling it supervises one computation, in flight, for the fitted
  /// sector.
  method SettleThenRedraw() returns (supervised: bool, inFlight: bool, sector: MainApp.Sector)
    ensures supervised && inFlight
    ensures sector == MainApp.FittedTo(MainApp.Initial(2, 2), 3, 2)
  {
    var host := AppHost();
    var app := NewApp(host);
    var o := app.ResizeTexture(Ok((3, 2)));
    var e := host.PollEvent();
    assert e.value == BareEvent(MainApp.RedrawType, MainApp.RedrawMsg);
    app.Redraw();
    var task := app.mandelbrotTask.value.task;
    supervised := app.mandelbrotTask.Some?;
    inFlight := MainApp.InFlight(task.phase);
    sector := task.sector;
  }

  /// A redraw whose computation finishes and queues its frame.
  method FrameQueued() returns (host: Host<MainApp.Msg>, app: MainApp.MainApp, worker: MainApp.WorkerTask)
    ensures fresh(host) && fresh(app) && host.Valid() && app.Valid() && app.host == host
    ensures app.w == 2 && app.h == 2 && app.mandelbrotTask.Some? && app.mandelbrotTask.value.task == worker
    ensures fresh(worker) && fresh(worker.token) && app.mandelbrotTask.value.token == worker.token
    ensures app.resizeTimer.None?
    ensures worker.phase == MainApp.AwaitingReply(0)
    ensures host.channels == [NewChannel()]
    ensures host.queue == [EnvelopeEvent(MainApp.MandelbrotReadyType, MainApp.TaskResultType,
                                         MainApp.MandelbrotReadyMsg(MainApp.ComputedFor(MainApp.Initial(2, 2))), 0)]
  {
    host := AppHost();
    app := NewApp(host);
    app.Redraw();
    worker := app.mandelbrotTask.value.task;
    assert app.launched == [worker];
    worker.ComputeDone(host, true);
  }

  /// The queued frame is taken off the event queue and handed to
  /// `mandelbrot_ready`, with a fresh texture and a rendering that succeeds.
  method DeliverFrame(host: Host<MainApp.Msg>, app: MainApp.MainApp) returns (shown: MainApp.MandelbrotSet, outcome: Outcome)
    requires host.Valid() && app.Valid() && app.host == host && app.w == 2 && app.h == 2
    requires |host.channels| == 1 && host.channels[0].senderAlive
    requires host.queue == [EnvelopeEvent(MainApp.MandelbrotReadyType, MainApp.TaskResultType,
                                          MainApp.MandelbrotReadyMsg(MainApp.ComputedFor(MainApp.Initial(2, 2))), 0)]
    modifies app`texture, app`mandelbrotSet, host`queue, host`channels
    ensures host.Valid() && app.Valid()
    ensures shown == MainApp.ComputedFor(MainApp.Initial(2, 2))
    ensures host.channels == [Fulfil(old(host.channels[0]), MainApp.TaskResult(Ok(())))]
    ensures outcome == Done <==> old(host.channels[0].receiverAlive)
    ensures outcome.Panicked? ==> outcome == Panicked(UnwrapPanic("Ok(())"))
  {
    var e := host.PollEvent();
    var envelope := HandleSdlEvent(MainApp.MandelbrotReadyType, MainApp.TaskResultType, e.value);
    var texture := new MainApp.Texture(2, 2, 8);
    var tk := MainApp.Toolkit(Ok((2, 2)), Ok(texture), [(0, 0, 0), (1, 1, 1), (2, 2, 2), (3, 3, 3)], None, Ok(()));
    outcome := app.MandelbrotReady(envelope.value, tk);
    shown := app.mandelbrotSet;
  }

  /// A computation that finishes before anything supersedes it: its frame
  /// reaches the texture and the task receives `Ok(())`. This runs the
  /// handlers in sequence. `AppRunner::run` as written never handles the
  /// frame, because it returns after the dispatch that started the redraw.
  method FreshFrame() returns (shown: MainApp.MandelbrotSet, outcome: Outcome, taskPhase: MainApp.Phase)
    ensures shown == MainApp.ComputedFor(MainApp.Initial(2, 2))
    ensures outcome == Done
    ensures taskPhase == MainApp.Finished(Ok(()))
  {
    var host, app, worker := FrameQueued();
    shown, outcome := DeliverFrame(host, app);
    worker.PollReply(host);
    taskPhase := worker.phase;
  }

  /// A redraw whose computation finishes and queues its frame, followed by
  /// a resize before that frame is handled.
  method FrameQueuedThenResize() returns (host: Host<MainApp.Msg>, app: MainApp.MainApp, worker: MainApp.WorkerTask)
    ensures fresh(host) && fresh(app) && host.Valid() && app.host == host
    ensures app.Valid() && app.w == 2 && app.h == 2
    ensures worker.token.cancelled && worker.phase == MainApp.Aborted
    ensures host.channels == [Channel(None, true, false)]
    ensures host.queue == [EnvelopeEvent(MainApp.MandelbrotReadyType, MainApp.TaskResultType,
                                         MainApp.MandelbrotReadyMsg(MainApp.ComputedFor(MainApp.Initial(2, 2))), 0)]
  {
    host, app, worker := FrameQueued();
    app.Resized();
  }

  /// A computation whose envelope is already queued when a resize aborts
  /// its task, in the interleaving where the runtime has dropped the aborted
  /// task (and with it the receiver) before the envelope is handled: handed
  /// to `mandelbrot_ready`, the stale frame is still shown, and `complete`
  /// then panics, unable to send `Ok(())`. This is a fact about the handlers
  /// called in sequence; `AppRunner::run` as written returns after its first
  /// handled dispatch and never handles such an envelope.
  method StaleFrameAfterResize() returns (shown: MainApp.MandelbrotSet, outcome: Outcome, tokenCancelled: bool)
    ensures tokenCancelled
    ensures shown == MainApp.ComputedFor(MainApp.Initial(2, 2))
    ensures outcome == Panicked("called `Result::unwrap()` on an `Err` value: Ok(())")
  {
    var host, app, worker := FrameQueuedThenResize();
    tokenCancelled := worker.token.cancelled;
    shown, outcome := DeliverFrame(host, app);
  }
}
