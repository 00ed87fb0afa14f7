/// The Mandelbrot viewer application (`MainApp`): the supervision of the
/// background computation, the debounce timer of window resizes, the mouse
/// selection gesture, and the dispatch handlers that replace and refill the
/// streaming texture. Floating-point geometry, the toolkit's texture and
/// canvas, and the set's colouring are outside the model: what they yield
/// is passed in.
module MainApp {
  import opened Base
  import opened Sdl
  import opened Dispatch
  import SdlApp
  import TextureCopy

  /// `sdl2::rect::Point`.
  datatype Point = Point(x: int, y: int)

  /// The rectangle `selection_from_center_with_ratio(center, corner, w / h)`
  /// yields; its float arithmetic is not modelled, so it is named by its
  /// inputs.
  datatype Rect = Selection(center: Point, corner: Point, w: nat, h: nat)

  /// `mandelbrot::Sector`: the region of the plane on view, named by how it
  /// was reached (its float arithmetic is not modelled).
  datatype Sector = Initial(w: nat, h: nat) | ZoomedTo(from: Sector, selection: Rect) | FittedTo(from: Sector, w: nat, h: nat)

  /// `MandelbrotSetWithHistogram`: the default (empty) set, or the set
  /// computed for a sector.
  datatype MandelbrotSet = NoSet | ComputedFor(sector: Sector)

  /// The values that travel through the SDL queue and the one-shot channels.
  datatype Msg =
    | ResizeTextureMsg
    | RedrawMsg
    | MandelbrotReadyMsg(mandelbrotset: MandelbrotSet)
    | PaletteChangedMsg(paletteLoadResult: Result<seq<Rgb>, string>)
    | TaskResult(result: Result<(), string>)

  const ResizeTextureType: TypeTag := Named("ResizeTexture")
  const RedrawType: TypeTag := Named("Redraw")
  const MandelbrotReadyType: TypeTag := Named("MandelbrotReady")
  const TaskResultType: TypeTag := Named("Result<(), String>")
  const MandelbrotTaskType: TypeTag := PumpTaskOf(MandelbrotReadyType, TaskResultType)
  const PaletteChangedType: TypeTag := Named("PaletteChanged")

  /// The message types of `dispatch_handlers!`, in declaration order:
  /// `resize_texture`, `redraw`, `mandelbrot_ready`, `palette_changed`.
  const Handlers: seq<TypeTag> := [ResizeTextureType, RedrawType, MandelbrotTaskType, PaletteChangedType]

  /// `register_dispatch` for the application succeeds exactly when none of
  /// its four message types was registered before.
  lemma HandlersRegister(reg: set<TypeTag>)
    ensures SdlApp.RegistrationOutcome(Handlers, reg) == Done <==> forall t :: t in Handlers ==> t !in reg
  {
    SdlApp.CleanPrefixAll(Handlers, reg);
    if forall t :: t in Handlers ==> t !in reg {
      assert forall i :: 0 <= i < |Handlers| ==> Handlers[i] !in reg;
    } else {
      var t :| t in Handlers && t in reg;
      var i :| 0 <= i < |Handlers| && Handlers[i] == t;
    }
  }

  /// Each message type reaches its own handler.
  lemma HandlersRoute()
    ensures SdlApp.FirstHandler(Handlers, ResizeTextureType) == Some(0)
    ensures SdlApp.FirstHandler(Handlers, RedrawType) == Some(1)
    ensures SdlApp.FirstHandler(Handlers, MandelbrotTaskType) == Some(2)
    ensures SdlApp.FirstHandler(Handlers, PaletteChangedType) == Some(3)
  {
  }

  /// `tokio_util::sync::CancellationToken`: once cancelled, it stays so.
  class CancellationToken {
    var cancelled: bool

    constructor ()
      ensures !cancelled
    {
      cancelled := false;
    }

    method Cancel()
      modifies this
      ensures cancelled
    {
      cancelled := true;
    }
  }

  /// `salty_broth::time::Ticker::once(delay, f)`, where `f` sends one
  /// message on the pump: a timer task that runs `f` once when the delay
  /// elapses, unless the ticker's token was cancelled first. Dropping the
  /// ticker cancels its token.
  class Ticker {
    const delayMs: nat
    const tag: TypeTag
    const message: Msg
    const cancellation: CancellationToken
    var fired: bool

    constructor Once(delayMs: nat, tag: TypeTag, message: Msg)
      ensures this.delayMs == delayMs && this.tag == tag && this.message == message
      ensures fresh(cancellation) && !cancellation.cancelled && !fired
    {
      this.delayMs, this.tag, this.message := delayMs, tag, message;
      cancellation := new CancellationToken();
      fired := false;
    }

    /// `Drop for Ticker`.
    method Drop()
      modifies cancellation
      ensures cancellation.cancelled
    {
      cancellation.Cancel();
    }

    /// The delay elapsing: a ticker neither cancelled nor already fired
    /// sends its message (and `send` may panic); otherwise nothing happens.
    method Elapse(host: Host<Msg>) returns (o: Outcome)
      requires host.Valid() && !tag.PumpTaskOf?
      modifies this`fired, host`queue
      ensures host.Valid()
      ensures old(cancellation.cancelled || fired) ==> o == Done && fired == old(fired) && host.queue == old(host.queue)
      ensures !old(cancellation.cancelled || fired) ==> fired
      ensures !old(cancellation.cancelled || fired) && host.current.Some? && tag in host.registered ==>
                o == Done && host.queue == old(host.queue) + [BareEvent(tag, message)]
      ensures !old(cancellation.cancelled || fired) && host.current.None? ==>
                o == Panicked(NoPump) && host.queue == old(host.queue)
      ensures !old(cancellation.cancelled || fired) && host.current.Some? && tag !in host.registered ==>
                o == Panicked(PushRefused) && host.queue == old(host.queue)
    {
      if cancellation.cancelled || fired {
        return Done;
      }
      fired := true;
      o := host.Send(tag, message);
    }
  }

  /// Where the background task `redraw` spawns stands: computing the set,
  /// waiting on the reply of `mandelbrot_ready` (on channel `rx`), done with
  /// a result, panicked, or aborted through its join handle.
  datatype Phase = Computing | AwaitingReply(rx: nat) | Finished(result: Result<(), string>) | TaskPanicked(message: string) | Aborted

  /// What the task makes of the reply it awaited: `map_err(|_| "Task
  /// canceled")??` turns a canceled channel into that error and passes the
  /// handler's own result on. `None` while the reply is pending. Since the
  /// model never drops a sender unsent while its receiver is alive, the
  /// `Canceled` arm is never taken by a modelled run.
  function ReplyResult(p: Poll<Msg>): (r: Option<Result<(), string>>)
    requires p.Delivered? ==> p.value.TaskResult?
    ensures r.None? <==> p.Pending?
    ensures p.Canceled? ==> r == Some(Err("Task canceled"))
    ensures p.Delivered? ==> r == Some(p.value.result)
  {
    match p
    case Pending => None
    case Canceled => Some(Err("Task canceled"))
    case Delivered(m) => Some(m.result)
  }

  /// The task `redraw` spawns and the join handle that controls it: it
  /// computes the set for `sector` under `token`, hands it to the main
  /// thread through `spawn::<MandelbrotReady, Result<(), String>>`, and
  /// awaits the reply.
  class WorkerTask {
    const sector: Sector
    const token: CancellationToken
    var phase: Phase

    constructor (sector: Sector, token: CancellationToken)
      ensures this.sector == sector && this.token == token && phase == Computing
    {
      this.sector, this.token := sector, token;
      phase := Computing;
    }

    /// `sector.compute(20000, token)` has returned: `Some` (`completed`)
    /// spawns `MandelbrotReady` with the set for `sector` and awaits the
    /// reply; `None` (a cancelled computation) ends the task with `Ok(())`
    /// and submits nothing.
    method ComputeDone(host: Host<Msg>, completed: bool)
      requires phase == Computing && host.Valid()
      modifies this`phase, host`queue, host`channels
      ensures host.Valid()
      ensures !completed ==> phase == Finished(Ok(())) && host.queue == old(host.queue) && host.channels == old(host.channels)
      ensures completed && host.current.Some? && MandelbrotTaskType in host.registered ==>
                && phase == AwaitingReply(|old(host.channels)|)
                && host.channels == old(host.channels) + [NewChannel()]
                && host.queue == old(host.queue) +
                     [EnvelopeEvent(MandelbrotReadyType, TaskResultType, MandelbrotReadyMsg(ComputedFor(sector)), |old(host.channels)|)]
      ensures completed && host.current.None? ==>
                phase == TaskPanicked(NoPump) && host.queue == old(host.queue) && host.channels == old(host.channels)
      ensures completed && host.current.Some? && MandelbrotTaskType !in host.registered ==>
                phase == TaskPanicked(PushRefused) && host.queue == old(host.queue) && host.channels == old(host.channels)
    {
      if !completed {
        phase := Finished(Ok(()));
        return;
      }
      var o, rx := host.Spawn(MandelbrotReadyType, TaskResultType, MandelbrotReadyMsg(ComputedFor(sector)));
      if o.Panicked? {
        phase := TaskPanicked(o.message);
      } else {
        phase := AwaitingReply(rx);
      }
    }

    /// The awaited reply is polled: the task finishes with `ReplyResult`
    /// once the channel is no longer pending.
    method PollReply(host: Host<Msg>)
      requires phase.AwaitingReply? && phase.rx < |host.channels|
      requires Receive(host.channels[phase.rx]).Delivered? ==> Receive(host.channels[phase.rx]).value.TaskResult?
      modifies this`phase
      ensures var r := ReplyResult(Receive(host.channels[old(phase).rx]));
              if r.None? then phase == old(phase) else phase == Finished(r.value)
    {
      var r := ReplyResult(Receive(host.channels[phase.rx]));
      if r.Some? {
        phase := Finished(r.value);
      }
    }

    /// `JoinHandle::abort`: a task still computing or awaiting is dropped
    /// (dropping the receiver it awaited on); a settled task is left alone.
    method Abort(host: Host<Msg>)
      requires host.Valid() && (phase.AwaitingReply? ==> phase.rx < |host.channels|)
      modifies this`phase, host`channels
      ensures host.Valid()
      ensures InFlight(old(phase)) ==> phase == Aborted
      ensures !InFlight(old(phase)) ==> phase == old(phase)
      ensures old(phase).AwaitingReply? ==>
                host.channels == old(host.channels)[old(phase).rx := old(host.channels[phase.rx]).(receiverAlive := false)]
      ensures !old(phase).AwaitingReply? ==> host.channels == old(host.channels)
    {
      if phase.AwaitingReply? {
        host.DropReceiver(phase.rx);
      }
      if InFlight(phase) {
        phase := Aborted;
      }
    }
  }

  /// Whether a task can still do something: compute, or act on a reply.
  predicate InFlight(p: Phase)
  {
    p.Computing? || p.AwaitingReply?
  }

  /// A task that can no longer act and whose token has been cancelled.
  ghost predicate Settled(t: WorkerTask)
    reads t, t.token
  {
    t.token.cancelled && !InFlight(t.phase)
  }

  /// The supervised task and its token, as `mandelbrot_task` holds them.
  datatype Supervised = Supervised(task: WorkerTask, token: CancellationToken)

  /// A streaming RGB24 texture: `pitch` bytes per row, locked as a single
  /// buffer of `pitch * h` bytes.
  class Texture {
    const w: nat
    const h: nat
    const pitch: nat
    const pixels: array<byte>

    predicate Valid()
    {
      3 * w <= pitch && pixels.Length == pitch * h
    }

    constructor (w: nat, h: nat, pitch: nat)
      requires 3 * w <= pitch
      ensures this.w == w && this.h == h && this.pitch == pitch
      ensures Valid() && fresh(pixels)
    {
      this.w, this.h, this.pitch := w, h, pitch;
      pixels := new byte[pitch * h];
    }
  }

  /// What the toolkit calls made by a handler yield: the canvas output size,
  /// the texture `create_texture_streaming` returns, the image
  /// `get_image_from_palette` produces for the set and palette in place,
  /// the error (if any) of locking the texture, and the result of `render`.
  datatype Toolkit = Toolkit(outputSize: Result<(u32, u32), string>, created: Result<Texture, string>,
                             image: seq<Rgb>, lockError: Option<string>, rendered: Result<(), string>)

  /// The result the closure of `mandelbrot_ready` hands to `complete`: the
  /// first error of texture creation, texture locking and rendering, in
  /// that order, and `Ok(())` when there is none.
  function ReadyResult(createError: Option<string>, lockError: Option<string>, rendered: Result<(), string>): (r: Result<(), string>)
    ensures r.Ok? <==> createError.None? && lockError.None? && rendered.Ok?
    ensures createError.Some? ==> r == Err(createError.value)
    ensures createError.None? && lockError.Some? ==> r == Err(lockError.value)
    ensures createError.None? && lockError.None? ==> r == rendered
  {
    if createError.Some? then Err(createError.value)
    else if lockError.Some? then Err(lockError.value)
    else rendered
  }

  /// The `Debug` rendering of the `Result<(), String>` a handler replies
  /// with, which `unwrap` prints when the reply cannot be sent.
  function DebugResult(r: Result<(), string>): string
  {
    match r
    case Ok(_) => "Ok(())"
    case Err(e) => "Err(" + DebugString(e) + ")"
  }

  /// `MainApp`: the application state the handlers update. The ghost
  /// `launched` and `tickers` record every task `redraw` started and every
  /// ticker `resized` started, oldest first.
  class MainApp {
    const host: Host<Msg>
    var resizeTimer: Option<Ticker>
    var mandelbrotTask: Option<Supervised>
    var texture: Texture
    var w: u32
    var h: u32
    var selectionCenter: Option<Point>
    var selection: Option<Rect>
    var palette: seq<Rgb>
    var sector: Sector
    var mandelbrotSet: MandelbrotSet
    ghost var launched: seq<WorkerTask>
    ghost var tickers: seq<Ticker>

    /// The texture matches its byte buffer, the task slot and the timer
    /// slot keep their histories, and a held task awaits an existing channel.
    ghost predicate Valid()
      reads this, host,
            set t | t in launched, set t | t in launched :: t.token,
            set k | k in tickers :: k.cancellation
    {
      texture.Valid() && Supervising() && AwaitsKnownChannel()
    }

    /// Supervision: `mandelbrot_task` holds the most recent task and its own
    /// token, and every other task ever started is settled with its token
    /// cancelled, so at most one task is in flight. Debounce: the timer slot
    /// holds the most recent ticker and every earlier one is cancelled.
    ghost predicate Supervising()
      reads this,
            set t | t in launched, set t | t in launched :: t.token,
            set k | k in tickers :: k.cancellation
    {
      && (mandelbrotTask.Some? ==>
            && launched != []
            && mandelbrotTask.value.task == launched[|launched| - 1]
            && mandelbrotTask.value.token == mandelbrotTask.value.task.token)
      && (forall i :: 0 <= i < |launched| - (if mandelbrotTask.Some? then 1 else 0) ==> Settled(launched[i]))
      && (resizeTimer.None? <==> tickers == [])
      && (resizeTimer.Some? ==> resizeTimer.value == tickers[|tickers| - 1])
      && (forall i :: 0 <= i < |tickers| - 1 ==> tickers[i].cancellation.cancelled)
    }

    /// A held task waiting for its reply waits on a channel the host has.
    ghost predicate AwaitsKnownChannel()
      reads this, host, if mandelbrotTask.Some? then {mandelbrotTask.value.task} else {}
    {
      mandelbrotTask.Some? && mandelbrotTask.value.task.phase.AwaitingReply? ==>
        mandelbrotTask.value.task.phase.rx < |host.channels|
    }

    /// The objects the supervised task slot lets a handler change.
    function Held(): set<object>
      reads this
    {
      if mandelbrotTask.Some? then {mandelbrotTask.value.task, mandelbrotTask.value.token} else {}
    }

    /// The object dropping the current ticker changes.
    function Timer(): set<object>
      reads this
    {
      if resizeTimer.Some? then {resizeTimer.value.cancellation} else {}
    }

    /// `MainApp::try_from` after the canvas calls: a `w * h` texture, the
    /// black-and-white palette, the initial sector, no task, no timer and
    /// no selection.
    constructor (host: Host<Msg>, w: u32, h: u32, texture: Texture)
      requires texture.Valid() && texture.w == w as nat && texture.h == h as nat
      ensures Valid()
      ensures this.host == host && this.w == w && this.h == h && this.texture == texture
      ensures resizeTimer.None? && mandelbrotTask.None? && selectionCenter.None? && selection.None?
      ensures palette == [(0, 0, 0), (255, 255, 255)] && sector == Initial(w, h) && mandelbrotSet == NoSet
      ensures launched == [] && tickers == []
    {
      this.host, this.w, this.h, this.texture := host, w, h, texture;
      resizeTimer, mandelbrotTask := None, None;
      selectionCenter, selection := None, None;
      palette := [(0, 0, 0), (255, 255, 255)];
      sector := Initial(w, h);
      mandelbrotSet := NoSet;
      launched, tickers := [], [];
    }

    /// `if let Some((task, token)) = self.mandelbrot_task.take() {
    /// token.cancel(); task.abort(); }`, shared by `resized` and `redraw`:
    /// afterwards no task is held and every task ever started is settled.
    method CancelHeld()
      requires Valid() && host.Valid()
      modifies this`mandelbrotTask, Held(), host`channels
      ensures Valid() && host.Valid()
      ensures mandelbrotTask.None?
      ensures forall i :: 0 <= i < |launched| ==> Settled(launched[i])
      ensures old(mandelbrotTask).Some? ==>
                old(mandelbrotTask).value.token.cancelled &&
                (InFlight(old(mandelbrotTask.value.task.phase)) ==> old(mandelbrotTask).value.task.phase == Aborted)
      ensures old(mandelbrotTask).None? || !old(mandelbrotTask.value.task.phase).AwaitingReply? ==>
                host.channels == old(host.channels)
      ensures old(mandelbrotTask).Some? && old(mandelbrotTask.value.task.phase).AwaitingReply? ==>
                host.channels == old(host.channels)[old(mandelbrotTask.value.task.phase).rx :=
                  old(host.channels[mandelbrotTask.value.task.phase.rx]).(receiverAlive := false)]
    {
      if mandelbrotTask.Some? {
        var Supervised(task, token) := mandelbrotTask.value;
        mandelbrotTask := None;
        token.Cancel();
        task.Abort(host);
      }
    }

    /// `resized`: cancels and drops the supervised task, and replaces the
    /// resize timer with a fresh one-second ticker whose only effect is
    /// sending `ResizeTexture`; the ticker it replaces is dropped, hence
    /// cancelled.
    method Resized()
      requires Valid() && host.Valid()
      modifies this, Held(), Timer(), host`channels
      ensures Valid() && host.Valid()
      ensures mandelbrotTask.None? && launched == old(launched)
      ensures forall i :: 0 <= i < |launched| ==> Settled(launched[i])
      ensures old(mandelbrotTask).Some? ==>
                old(mandelbrotTask).value.token.cancelled &&
                (InFlight(old(mandelbrotTask.value.task.phase)) ==> old(mandelbrotTask).value.task.phase == Aborted)
      ensures old(mandelbrotTask).None? || !old(mandelbrotTask.value.task.phase).AwaitingReply? ==>
                host.channels == old(host.channels)
      ensures old(mandelbrotTask).Some? && old(mandelbrotTask.value.task.phase).AwaitingReply? ==>
                host.channels == old(host.channels)[old(mandelbrotTask.value.task.phase).rx :=
                  old(host.channels[mandelbrotTask.value.task.phase.rx]).(receiverAlive := false)]
      ensures resizeTimer.Some? && fresh(resizeTimer.value) && fresh(resizeTimer.value.cancellation)
      ensures tickers == old(tickers) + [resizeTimer.value]
      ensures resizeTimer.value.delayMs == 1000 && !resizeTimer.value.cancellation.cancelled && !resizeTimer.value.fired
      ensures resizeTimer.value.tag == ResizeTextureType && resizeTimer.value.message == ResizeTextureMsg
      ensures old(resizeTimer).Some? ==> old(resizeTimer).value.cancellation.cancelled
      ensures w == old(w) && h == old(h) && sector == old(sector) && palette == old(palette)
      ensures selectionCenter == old(selectionCenter) && selection == old(selection)
      ensures texture == old(texture) && mandelbrotSet == old(mandelbrotSet)
    {
      CancelHeld();
      ReplaceTimer();
    }

    /// The debounce half of `resized`, once no task is held: a fresh
    /// one-second ticker sending `ResizeTexture` takes the timer slot, and
    /// the ticker it replaces is dropped.
    method ReplaceTimer()
      requires Valid() && mandelbrotTask.None?
      modifies this`resizeTimer, this`tickers, Timer()
      ensures Valid()
      ensures forall i :: 0 <= i < |launched| ==> Settled(launched[i])
      ensures resizeTimer.Some? && fresh(resizeTimer.value) && fresh(resizeTimer.value.cancellation)
      ensures tickers == old(tickers) + [resizeTimer.value]
      ensures resizeTimer.value.delayMs == 1000 && !resizeTimer.value.cancellation.cancelled && !resizeTimer.value.fired
      ensures resizeTimer.value.tag == ResizeTextureType && resizeTimer.value.message == ResizeTextureMsg
      ensures old(resizeTimer).Some? ==> old(resizeTimer).value.cancellation.cancelled
    {
      var ticker := new Ticker.Once(1000, ResizeTextureType, ResizeTextureMsg);
      if resizeTimer.Some? {
        resizeTimer.value.Drop();
      }
      resizeTimer := Some(ticker);
      tickers := tickers + [ticker];
    }

    /// `sdl_event`, its mouse arms: a left press anchors the selection, a
    /// motion while anchored redraws the selection rectangle, and a left
    /// release, when anchored, zooms the sector to the selection (with the
    /// release's `y` flipped to `h - y`) and sends `Redraw`; the release
    /// then clears the gesture whatever came before. Every other event
    /// changes nothing here.
    method SdlEvent(e: HostEvent<Msg>) returns (o: Outcome)
      requires Valid()
      requires host.Valid()
      modifies this`selectionCenter, this`selection, this`sector, host`queue
      ensures Valid()
      ensures host.Valid()
      ensures e.MouseButtonDown? && e.button == Left ==>
                o == Done && selectionCenter == Some(Point(e.x, e.y)) && selection == old(selection) &&
                sector == old(sector) && host.queue == old(host.queue)
      ensures e.MouseMotion? ==>
                && o == Done && selectionCenter == old(selectionCenter) && sector == old(sector)
                && host.queue == old(host.queue)
                && selection == (if old(selectionCenter).Some?
                                 then Some(Selection(old(selectionCenter).value, Point(e.x, e.y), w as nat, h as nat))
                                 else old(selection))
      ensures e.MouseButtonUp? && e.button == Left && old(selectionCenter).None? ==>
                o == Done && selectionCenter.None? && selection.None? && sector == old(sector) && host.queue == old(host.queue)
      ensures e.MouseButtonUp? && e.button == Left && old(selectionCenter).Some? ==>
                && sector == ZoomedTo(old(sector), Selection(old(selectionCenter).value, Point(e.x, h as int - e.y), w as nat, h as nat))
                && (host.current.Some? && RedrawType in host.registered ==>
                      o == Done && host.queue == old(host.queue) + [BareEvent(RedrawType, RedrawMsg)])
                && (host.current.None? ==> o == Panicked(NoPump) && host.queue == old(host.queue))
                && (host.current.Some? && RedrawType !in host.registered ==> o == Panicked(PushRefused) && host.queue == old(host.queue))
                && (o == Done ==> selectionCenter.None? && selection.None?)
      ensures !((e.MouseButtonDown? || e.MouseButtonUp?) && e.button == Left) && !e.MouseMotion? ==>
                o == Done && selectionCenter == old(selectionCenter) && selection == old(selection) &&
                sector == old(sector) && host.queue == old(host.queue)
    {
      o := Done;
      match e {
        case MouseButtonDown(Left, x, y) =>
          selectionCenter := Some(Point(x, y));
        case MouseMotion(x, y) =>
          if selectionCenter.Some? {
            selection := Some(Selection(selectionCenter.value, Point(x, y), w as nat, h as nat));
          }
        case MouseButtonUp(Left, x, y) =>
          o := EndSelection(x, y);
        case _ =>
      }
    }

    /// The left-release arm of `sdl_event`: when anchored, zooms the sector
    /// to the selection with `y` flipped to `h - y` and sends `Redraw` (a
    /// panic of `send` ends the handler there); then clears the gesture.
    method EndSelection(x: int, y: int) returns (o: Outcome)
      requires Valid() && host.Valid()
      modifies this`selectionCenter, this`selection, this`sector, host`queue
      ensures Valid() && host.Valid()
      ensures old(selectionCenter).None? ==>
                o == Done && selectionCenter.None? && selection.None? && sector == old(sector) && host.queue == old(host.queue)
      ensures old(selectionCenter).Some? ==>
                && sector == ZoomedTo(old(sector), Selection(old(selectionCenter).value, Point(x, h as int - y), w as nat, h as nat))
                && (host.current.Some? && RedrawType in host.registered ==>
                      o == Done && host.queue == old(host.queue) + [BareEvent(RedrawType, RedrawMsg)])
                && (host.current.None? ==> o == Panicked(NoPump) && host.queue == old(host.queue))
                && (host.current.Some? && RedrawType !in host.registered ==> o == Panicked(PushRefused) && host.queue == old(host.queue))
                && (o == Done ==> selectionCenter.None? && selection.None?)
    {
      o := Done;
      if selectionCenter.Some? {
        var sel := Selection(selectionCenter.value, Point(x, h as int - y), w as nat, h as nat);
        sector := ZoomedTo(sector, sel);
        o := RequestRedraw();
        if o.Panicked? {
          return;
        }
      }
      selectionCenter := None;
      selection := None;
    }

    /// `send::<Redraw>` from a handler.
    method RequestRedraw() returns (o: Outcome)
      requires Valid() && host.Valid()
      modifies host`queue
      ensures Valid() && host.Valid()
      ensures host.current.Some? && RedrawType in host.registered ==>
                o == Done && host.queue == old(host.queue) + [BareEvent(RedrawType, RedrawMsg)]
      ensures host.current.None? ==> o == Panicked(NoPump) && host.queue == old(host.queue)
      ensures host.current.Some? && RedrawType !in host.registered ==> o == Panicked(PushRefused) && host.queue == old(host.queue)
    {
      o := host.Send(RedrawType, RedrawMsg);
    }

    /// `resize_texture`: on a readable output size, takes it as the new
    /// size, fits the sector to it and sends `Redraw`; an error reading the
    /// size returns before any of that.
    method ResizeTexture(outputSize: Result<(u32, u32), string>) returns (o: Outcome)
      requires Valid()
      requires host.Valid()
      modifies this`w, this`h, this`sector, host`queue
      ensures Valid()
      ensures host.Valid()
      ensures outputSize.Err? ==>
                o == Done && w == old(w) && h == old(h) && sector == old(sector) && host.queue == old(host.queue)
      ensures outputSize.Ok? ==>
                (w, h) == outputSize.value && sector == FittedTo(old(sector), w as nat, h as nat)
      ensures outputSize.Ok? && host.current.Some? && RedrawType in host.registered ==>
                o == Done && host.queue == old(host.queue) + [BareEvent(RedrawType, RedrawMsg)]
      ensures outputSize.Ok? && host.current.None? ==> o == Panicked(NoPump) && host.queue == old(host.queue)
      ensures outputSize.Ok? && host.current.Some? && RedrawType !in host.registered ==>
                o == Panicked(PushRefused) && host.queue == old(host.queue)
    {
      o := Done;
      if outputSize.Err? {
        return;
      }
      w, h := outputSize.value.0, outputSize.value.1;
      sector := FittedTo(sector, w as nat, h as nat);
      o := RequestRedraw();
    }

    /// `redraw`: cancels and drops the supervised task, then supervises
    /// exactly one fresh task, computing the current sector under a fresh,
    /// uncancelled token of its own.
    method Redraw()
      requires Valid() && host.Valid()
      modifies this, Held(), host`channels
      ensures Valid() && host.Valid()
      ensures old(mandelbrotTask).Some? ==>
                old(mandelbrotTask).value.token.cancelled &&
                (InFlight(old(mandelbrotTask.value.task.phase)) ==> old(mandelbrotTask).value.task.phase == Aborted)
      ensures mandelbrotTask.Some?
      ensures var Supervised(task, token) := mandelbrotTask.value;
              && fresh(task) && fresh(token) && task.token == token && !token.cancelled
              && task.phase == Computing && task.sector == sector
              && launched == old(launched) + [task]
      ensures forall i :: 0 <= i < |launched| - 1 ==> Settled(launched[i])
      ensures old(mandelbrotTask).None? || !old(mandelbrotTask.value.task.phase).AwaitingReply? ==>
                host.channels == old(host.channels)
      ensures old(mandelbrotTask).Some? && old(mandelbrotTask.value.task.phase).AwaitingReply? ==>
                host.channels == old(host.channels)[old(mandelbrotTask.value.task.phase).rx :=
                  old(host.channels[mandelbrotTask.value.task.phase.rx]).(receiverAlive := false)]
      ensures w == old(w) && h == old(h) && sector == old(sector) && palette == old(palette)
      ensures selectionCenter == old(selectionCenter) && selection == old(selection)
      ensures texture == old(texture) && mandelbrotSet == old(mandelbrotSet) && resizeTimer == old(resizeTimer)
    {
      CancelHeld();
      Launch();
    }

    /// The launching half of `redraw`, once no task is held: supervises a
    /// fresh task computing the current sector under a fresh, uncancelled
    /// token of its own.
    method Launch()
      requires Valid() && mandelbrotTask.None?
      modifies this`mandelbrotTask, this`launched
      ensures Valid()
      ensures mandelbrotTask.Some?
      ensures var Supervised(task, token) := mandelbrotTask.value;
              && fresh(task) && fresh(token) && task.token == token && !token.cancelled
              && task.phase == Computing && task.sector == sector
              && launched == old(launched) + [task]
      ensures forall i :: 0 <= i < |launched| - 1 ==> Settled(launched[i])
    {
      var cancellationToken := new CancellationToken();
      var task := new WorkerTask(sector, cancellationToken);
      mandelbrotTask := Some(Supervised(task, cancellationToken));
      launched := launched + [task];
    }

    /// `update_texture`: locks the texture and copies the image into it,
    /// row by row. A lock error is returned; an image or buffer too small
    /// for the `w * h` copy makes the first access out of range panic.
    method UpdateTexture(image: seq<Rgb>, lockError: Option<string>) returns (o: Outcome, r: Result<(), string>)
      requires Valid()
      modifies texture.pixels
      ensures Valid()
      ensures lockError.Some? ==> o == Done && r == Err(lockError.value) && texture.pixels[..] == old(texture.pixels[..])
      ensures lockError.None? && !TextureCopy.CopyFits(texture.pixels.Length, |image|, texture.pitch, w as nat, h as nat) ==>
                && TextureCopy.CopyFault(texture.pixels.Length, |image|, texture.pitch, w as nat, h as nat).Some?
                && var (len, index) := TextureCopy.CopyFault(texture.pixels.Length, |image|, texture.pitch, w as nat, h as nat).value;
                   o == Panicked(IndexPanic(len, index))
      ensures lockError.None? && TextureCopy.CopyFits(texture.pixels.Length, |image|, texture.pitch, w as nat, h as nat) ==>
                && o == Done && r == Ok(())
                && (w as nat) * (h as nat) <= |image|
                && (3 * w as nat <= texture.pitch ==>
                      texture.pixels[..] == TextureCopy.Copied(old(texture.pixels[..]), image, texture.pitch, w as nat, h as nat))
                && TextureCopy.LastRowHolds(texture.pixels[..], image, texture.pitch, w as nat, h as nat)
                && TextureCopy.TailUnchanged(texture.pixels[..], old(texture.pixels[..]), texture.pitch, w as nat, h as nat)
    {
      r := Ok(());
      if lockError.Some? {
        return Done, Err(lockError.value);
      }
      var fault := TextureCopy.CopyFault(texture.pixels.Length, |image|, texture.pitch, w as nat, h as nat);
      if fault.Some? {
        return Panicked(IndexPanic(fault.value.0, fault.value.1)), r;
      }
      TextureCopy.CopyImage(texture.pixels, texture.pitch, w as nat, h as nat, image);
      o := Done;
    }

    /// The closure of `mandelbrot_ready`: replaces the texture by a fresh
    /// `w * h` one, takes the set from the envelope, refills the texture and
    /// renders, and yields the first error met or `Ok(())`. A creation
    /// error leaves the texture and the set as they were.
    method ShowFrame(set_: MandelbrotSet, tk: Toolkit) returns (o: Outcome, result: Result<(), string>)
      requires Valid()
      requires tk.created.Ok? ==> tk.created.value.Valid() && tk.created.value.w == w as nat && tk.created.value.h == h as nat
      modifies this`texture, this`mandelbrotSet, if tk.created.Ok? then {tk.created.value.pixels} else {}
      ensures Valid()
      ensures tk.created.Err? ==> texture == old(texture) && mandelbrotSet == old(mandelbrotSet)
      ensures tk.created.Ok? ==> texture == tk.created.value && mandelbrotSet == set_
      ensures (tk.created.Err? || tk.lockError.Some? || Area(tk.created.value) == 0 || Area(tk.created.value) <= |tk.image|) ==>
                o == Done && result == ReadyResult(if tk.created.Err? then Some(tk.created.error) else None, tk.lockError, tk.rendered)
      ensures tk.created.Ok? && tk.lockError.None? && 0 < Area(tk.created.value) && |tk.image| < Area(tk.created.value) ==>
                o == Panicked(IndexPanic(|tk.image|, |tk.image|))
      ensures tk.created.Ok? && tk.lockError.None? && Area(tk.created.value) <= |tk.image| ==>
                var t := tk.created.value;
                t.pixels[..] == TextureCopy.Copied(old(t.pixels[..]), tk.image, t.pitch, t.w, t.h)
    {
      o := Done;
      if tk.created.Err? {
        return Done, Err(tk.created.error);
      }
      texture := tk.created.value;
      mandelbrotSet := set_;
      TextureFits(texture, w as nat, h as nat, |tk.image|);
      if tk.lockError.None? && 0 < Area(texture) && |tk.image| < Area(texture) {
        TextureCopy.ShortImageFault(texture.pitch, texture.w, texture.h, |tk.image|);
      }
      var r;
      o, r := UpdateTexture(tk.image, tk.lockError);
      result := if r.Err? then r else tk.rendered;
    }

    /// `mandelbrot_ready`: shows the frame the envelope carries and
    /// completes the envelope, once, with what showing it yielded.
    method MandelbrotReady(task: PumpTask<Msg>, tk: Toolkit) returns (o: Outcome)
      requires Valid()
      requires host.Valid() && task.input.MandelbrotReadyMsg?
      requires task.slot < |host.channels| && host.channels[task.slot].senderAlive
      requires tk.created.Ok? ==> tk.created.value.Valid() && tk.created.value.w == w as nat && tk.created.value.h == h as nat
      modifies this`texture, this`mandelbrotSet, host`channels, if tk.created.Ok? then {tk.created.value.pixels} else {}
      ensures Valid()
      ensures host.Valid()
      ensures tk.created.Err? ==> texture == old(texture) && mandelbrotSet == old(mandelbrotSet)
      ensures tk.created.Ok? ==> texture == tk.created.value && mandelbrotSet == task.input.mandelbrotset
      ensures (tk.created.Err? || tk.lockError.Some? || Area(tk.created.value) == 0 || Area(tk.created.value) <= |tk.image|) ==>
                && var result := ReadyResult(if tk.created.Err? then Some(tk.created.error) else None, tk.lockError, tk.rendered);
                && host.channels == old(host.channels)[task.slot := Fulfil(old(host.channels[task.slot]), TaskResult(result))]
                && (o == Done <==> old(host.channels[task.slot]).receiverAlive)
                && (o.Panicked? ==> o == Panicked(UnwrapPanic(DebugResult(result))))
      ensures tk.created.Ok? && tk.lockError.None? && 0 < Area(tk.created.value) && |tk.image| < Area(tk.created.value) ==>
                o == Panicked(IndexPanic(|tk.image|, |tk.image|)) && host.channels == old(host.channels)
      ensures tk.created.Ok? && tk.lockError.None? && Area(tk.created.value) <= |tk.image| ==>
                var t := tk.created.value;
                t.pixels[..] == TextureCopy.Copied(old(t.pixels[..]), tk.image, t.pitch, t.w, t.h)
    {
      var result;
      o, result := ShowFrame(task.input.mandelbrotset, tk);
      if o.Panicked? {
        return;
      }
      o := host.Complete(task, TaskResult(result), DebugResult(result));
    }

    /// `palette_changed`: `unwrap`s the loaded palette, panicking on a load
    /// error, then refills the texture from it, ignoring the result (a
    /// panic of the copy still propagates) and rendering.
    method PaletteChanged(msg: Msg, image: seq<Rgb>, lockError: Option<string>) returns (o: Outcome)
      requires Valid()
      requires msg.PaletteChangedMsg? && texture.Valid()
      modifies this`palette, texture.pixels
      ensures Valid()
      ensures msg.paletteLoadResult.Err? ==>
                o == Panicked(UnwrapPanic(DebugString(msg.paletteLoadResult.error))) &&
                palette == old(palette) && texture.pixels[..] == old(texture.pixels[..])
      ensures msg.paletteLoadResult.Ok? ==> palette == msg.paletteLoadResult.value
      ensures msg.paletteLoadResult.Ok? && lockError.None? &&
              TextureCopy.CopyFits(texture.pixels.Length, |image|, texture.pitch, w as nat, h as nat) ==>
                && o == Done
                && (3 * w as nat <= texture.pitch ==>
                      texture.pixels[..] == TextureCopy.Copied(old(texture.pixels[..]), image, texture.pitch, w as nat, h as nat))
                && TextureCopy.LastRowHolds(texture.pixels[..], image, texture.pitch, w as nat, h as nat)
                && TextureCopy.TailUnchanged(texture.pixels[..], old(texture.pixels[..]), texture.pitch, w as nat, h as nat)
      ensures msg.paletteLoadResult.Ok? && lockError.None? &&
              !TextureCopy.CopyFits(texture.pixels.Length, |image|, texture.pitch, w as nat, h as nat) ==>
                && TextureCopy.CopyFault(texture.pixels.Length, |image|, texture.pitch, w as nat, h as nat).Some?
                && var (len, index) := TextureCopy.CopyFault(texture.pixels.Length, |image|, texture.pitch, w as nat, h as nat).value;
                   o == Panicked(IndexPanic(len, index))
      ensures msg.paletteLoadResult.Ok? && lockError.Some? ==> o == Done && texture.pixels[..] == old(texture.pixels[..])
    {
      if msg.paletteLoadResult.Err? {
        return Panicked(UnwrapPanic(DebugString(msg.paletteLoadResult.error)));
      }
      palette := msg.paletteLoadResult.value;
      var ignored;
      o, ignored := UpdateTexture(image, lockError);
    }
  }

  /// The number of pixels of a texture.
  function Area(t: Texture): nat
  {
    t.w * t.h
  }

  /// A freshly created `w * h` texture fits the copy exactly when the image
  /// has `w * h` pixels (or the texture is empty).
  lemma TextureFits(t: Texture, w: nat, h: nat, imageLen: nat)
    requires t.Valid() && t.w == w && t.h == h
    ensures TextureCopy.CopyFits(t.pixels.Length, imageLen, t.pitch, w, h) <==> w * h == 0 || w * h <= imageLen
  {
    if w > 0 && h > 0 {
      assert t.pitch * h == t.pitch * (h - 1) + t.pitch;
    }
  }
}
