# mandelbrot-rs: the SDL dispatch bridge and the application driving it

This project models, in Dafny, the core of mandelbrot-rs, an SDL2 Mandelbrot set explorer. Its parts:

- `sdl-dispatch` lets background tasks hand work to the SDL main thread. `spawn` pushes a task envelope as an SDL user event and returns a one-shot receiver. `send` pushes a bare value. The main thread recognises envelopes with `handle_sdl_event` and answers them with `complete`. A process-wide slot holds at most one installed dispatcher.
- `salty-broth` provides the `dispatch_handlers!` macro, the `AppRunner` event loop and the `AppBuilder`.
- `MainApp` is the application. It debounces resizes with a one-shot timer, supervises one background computation at a time, and copies each finished frame into a streaming RGB24 texture.
- `mandelbrot::bounded` is the escape-time iteration.

Files:

- `base.dfy`: `Option`, `Result`, and `Outcome`. `Outcome` is `Done` or `Panicked(message)`; a panic is a value here. It also has the byte, `u32` and RGB types.
- `sdl.dfy`: SDL events over an abstract user-event payload. A `TypeTag` stands for a registered Rust type: a named message type, or `SdlPumpTask<TIn, TOut>`.
- `dispatch.dfy`: the `Host` class. It holds the process state the library works on: the `CURRENTDISPATCHER` slot, the SDL user-event queue, the set of registered custom-event types, and the one-shot channels. Each channel records its value and whether its sender and receiver are still alive. `Host`'s methods are the library's operations. The pure functions give the receiver's view (`Receive`), what sending does (`Fulfil`), and envelope recognition (`HandleSdlEvent`).
- `sdl_app.dfy`: handler routing (`handle_dispatch`) and registration (`register_dispatch`). It has one pump batch of the run loop (`PostPumpState`) and the run loop itself. The loop consumes a sequence of pump rounds and is specified by `LoopSpec`, the trace of `App` calls it makes and how it ends. It also has the builder.
- `mandelbrot.dfy`: `bounded` over the reals, specified by `EscapeTime`, the first-crossing definition of the escape index.
- `texture.dfy`: the nested copy loop of `update_texture` on an `array<byte>` with a row pitch. It is specified by `Copied`, which gives the byte image of the frame.
- `mainapp.dfy`: the `MainApp` class and its handlers. The timer, the cancellation token and the spawned computation are classes. A ghost history of launched tasks and created timers states the supervision invariant (`MainApp.Valid`):
  - only the last launched task may still be held;
  - every earlier task is cancelled and no longer in flight;
  - every timer but the last is cancelled.
- `scenarios.dfy`: whole runs from a fresh process state.

Side effects that the toolkit decides are inputs of the handlers that need them. These are the canvas output size, texture creation, the palette image, the texture lock and `render`. Timers firing and background tasks progressing are explicit method calls (`Ticker.Elapse`, `WorkerTask.ComputeDone`, `WorkerTask.PollReply`), so every interleaving is a sequence of calls.

Behaviours of the code that the model keeps:

- `SdlPumpTask::complete` unwraps the result of `oneshot::Sender::send`. Completing a task whose receiver was dropped therefore panics on the main thread, with the `unwrap` message followed by the `Debug` rendering of the value handed back. `Dispatch.Host.Complete` panics in that case.
- `AppBuilder::build` takes SDL's event pump and keeps it in the runner, and `AppRunner::run` starts by taking it again with `unwrap`. SDL hands out one pump at a time, so a runner from `build` panics there, before it registers anything or calls `start`. The panic is `unwrap`'s message followed by the `Debug` rendering of SDL's refusal (`SdlApp.PumpTakenPanic`). `Scenarios.BuiltRunnerPanics` shows this run.
- `AppRunner::run` registers the dispatch types but never calls `make_current`. The runner keeps its `SdlDispatcher` inside its `AppSystem`, and nothing installs it. So under `run` alone, each of these would panic with "Cannot dispatch without a currently running event pump." (`Dispatch.NoPump`): the timer's `send::<ResizeTexture>`, the `send::<Redraw>` of `resize_texture` and `sdl_event`, and the worker's `spawn`. The handler contracts state that panic for a host with no dispatcher. `Scenarios.AppHost` installs a dispatcher itself, so that the scenarios can follow the handlers past their sends.
- The run loop returns from `run` as soon as a dispatch handler reports that it handled an event. This skips the rest of the batch, the quit and resize flags, and `stop`.
- `redraw` cancels the previous computation, but does not take back an envelope that is already queued. Handed to `mandelbrot_ready`, such an envelope still shows the stale frame, and `complete` can panic. This happens when the runtime has dropped the aborted task, and with it the receiver, before the envelope is handled. `Scenarios.StaleFrameAfterResize` shows this with the handlers called in sequence. `AppRunner::run` as written never gets there: `redraw` only runs from a handled dispatch, after which `run` returns, and `run` already panics taking the event pump.

## Model

| member | source | states |
|---|---|---|
| Dispatch.Host.constructor | libs/sdl-dispatch/src/lib.rs:63 | The process starts with no current dispatcher, an empty queue, no registered types and no channels |
| Dispatch.Host.MakeCurrent | libs/sdl-dispatch/src/lib.rs:58-80 | Installs the dispatcher when the slot is empty; otherwise panics with "Cannot have more than one main thread dispatcher systemwide." and leaves the slot unchanged |
| Dispatch.Host.DropGuard | libs/sdl-dispatch/src/lib.rs:83-88 | Dropping the guard empties the slot, whatever it held |
| Dispatch.Host.RegisterCustomEvent | libs/salty-broth/src/sdl_app.rs:49 | Registering a new type adds it. Registering a type twice changes nothing and panics with `expect`'s message: "Types already registered", ": ", then the `Debug` rendering of SDL's error |
| Dispatch.Host.RegisterTaskType | libs/sdl-dispatch/src/lib.rs:125-127 | Registers `SdlPumpTask<TIn, TOut>` once; a second registration panics with the same `expect` message |
| Dispatch.Host.DispatcherSpawn | libs/sdl-dispatch/src/lib.rs:41-51 | For a registered task type: a new live channel is appended and an envelope naming it, carrying the input, is appended to the queue. For an unregistered one: panics with "Can't push on SDL pump", ": " and the `Debug` rendering of SDL's error, and changes neither queue nor channels |
| Dispatch.Host.DispatcherSend | libs/sdl-dispatch/src/lib.rs:53-56 | For a registered type, exactly the bare value is appended to the queue; otherwise it panics with the same `expect` message as `DispatcherSpawn` and the queue is unchanged |
| Dispatch.Host.Spawn | libs/sdl-dispatch/src/lib.rs:91-101 | With no current dispatcher: panics with "Cannot dispatch without a currently running event pump." and changes nothing. Otherwise it behaves as `DispatcherSpawn` |
| Dispatch.Host.Send | libs/sdl-dispatch/src/lib.rs:103-113 | Same no-dispatcher panic; otherwise behaves as `DispatcherSend` |
| Dispatch.Host.PollEvent | libs/salty-broth/src/sdl_app.rs:127-135 | Events leave the queue in FIFO order; an empty queue yields nothing |
| Dispatch.Host.Complete | libs/sdl-dispatch/src/lib.rs:27-29 | Consumes the envelope's sender. The value reaches the receiver exactly when the receiver is alive, and the call returns normally exactly then. Otherwise it panics with the `unwrap` message ending in the `Debug` rendering of the returned value |
| Base.UnwrapPanic | libs/sdl-dispatch/src/lib.rs:28 | The `unwrap` panic message ends with the `Debug` rendering of the error value |
| Base.ExpectPanic | libs/sdl-dispatch/src/lib.rs:49 | The `expect` panic message is the given message, ": ", then the `Debug` rendering of the error |
| Base.IndexPanic | src/mainapp.rs:286-289 | The slice indexing panic message starts with "index out of bounds: the len is " |
| Base.DecimalRoundTrip | src/mainapp.rs:286-289 | The decimal digits written for a length or index read back as that number |
| Base.DebugString | src/mainapp.rs:267 | A string's `Debug` rendering is the string between double quotes |
| Dispatch.Fulfil | libs/sdl-dispatch/src/lib.rs:27-29 | After a send the sender is gone and the receiver's liveness is unchanged. A live receiver then observes `Delivered(v)`; a dead one leaves the stored value as it was |
| Dispatch.Host.DropReceiver | libs/sdl-dispatch/src/lib.rs:91-101 | Dropping the returned receiver marks only that channel's receiver dead |
| Dispatch.HandleSdlEvent | libs/sdl-dispatch/src/lib.rs:115-123 | Non-user events and user events of another type yield `None` |
| Dispatch.SpawnedEnvelopeRecognised | libs/sdl-dispatch/src/lib.rs:41-51 | The envelope `spawn::<TIn, TOut>` pushes is recognised by `handle_sdl_event` for that type pair and no other, with `input()` equal to the spawned input |
| Dispatch.SentValueNotATask | libs/sdl-dispatch/src/lib.rs:117-123 | A value pushed by `send` is never taken for a task envelope |
| SdlApp.FirstHandler | libs/salty-broth/src/sdl_app.rs:38-44 | The handler picked is the first whose type matches the event's type; there is none exactly when no handler has that type |
| SdlApp.HandleDispatch | libs/salty-broth/src/sdl_app.rs:34-45 | Non-user events invoke nothing; a user event invokes exactly `FirstHandler` of its type |
| SdlApp.CleanPrefixAll | libs/salty-broth/src/sdl_app.rs:47-51 | All handler types register without a panic if and only if they are pairwise distinct and none was registered before |
| SdlApp.RegisterDispatch | libs/salty-broth/src/sdl_app.rs:47-51 | Registers the handler types in order up to the first one already registered, where it panics with `expect`'s full message ("Types already registered", ": ", SDL's error); the registered set is the old one plus that prefix |
| SdlApp.FirstDispatched | libs/salty-broth/src/sdl_app.rs:135-138 | Finds the first event of a batch that a handler claims, or reports that no event is claimed |
| SdlApp.PumpBatch | libs/salty-broth/src/sdl_app.rs:125-153 | One batch yields `BatchSpec`. A claimed user event ends the batch at once. Otherwise the quit flag is raised by a quit or Escape key-down, and the resize flag by a resized or size-changed window event |
| SdlApp.RunLoop | libs/salty-broth/src/sdl_app.rs:124-162 | The sequence of `resized` calls and the way the loop ends equal `LoopSpec` over the pump rounds |
| SdlApp.Run | libs/salty-broth/src/sdl_app.rs:108-165 | When the runner already holds the event pump, taking it again panics with `unwrap`'s message and the `Debug` rendering of SDL's pump-alive refusal, before any registration or call. Otherwise it registers the handlers only with dispatch enabled, and the whole call trace (start, resizes, stop) and ending equal `RunSpec` |
| SdlApp.LoopCallCounts | libs/salty-broth/src/sdl_app.rs:124-162 | The loop never calls `start` or `stop`, and calls `resized` at most once per pump round |
| SdlApp.RunCallCounts | libs/salty-broth/src/sdl_app.rs:118-164 | When registration succeeds, `start` is called exactly once. `stop` is called once if the loop ends by quitting and never if it returns from a dispatch. A panicking registration never calls `start`. `resized` is called at most once per round |
| SdlApp.BurstCollapses | libs/salty-broth/src/sdl_app.rs:159-161 | Any number of resize events in one batch without quit or dispatch yield a single `resized` call |
| SdlApp.QuitHasPriority | libs/salty-broth/src/sdl_app.rs:155-157 | A batch with a quit event ends the loop before `resized`, even when the batch also holds resizes |
| SdlApp.DispatchReturnsAtOnce | libs/salty-broth/src/sdl_app.rs:136-138 | A claimed user event in the first batch returns from `run` after `start`, without `resized` or `stop` |
| SdlApp.AppBuilder.constructor | libs/salty-broth/src/sdl_app.rs:178-187 | A new builder has an 800x600 window and every flag off |
| SdlApp.AppBuilder.WindowSize | libs/salty-broth/src/sdl_app.rs:189-192 | Sets the window size only |
| SdlApp.AppBuilder.WithTokio | libs/salty-broth/src/sdl_app.rs:194-197 | Sets the tokio flag only |
| SdlApp.AppBuilder.WithDispatch | libs/salty-broth/src/sdl_app.rs:199-202 | Sets the dispatch flag only |
| SdlApp.AppBuilder.PassiveEventLoop | libs/salty-broth/src/sdl_app.rs:204-207 | Sets the passive flag only |
| SdlApp.AppBuilder.WithEgui | libs/salty-broth/src/sdl_app.rs:209-212 | Sets the egui flag only |
| SdlApp.AppBuilder.Build | libs/salty-broth/src/sdl_app.rs:214-243 | The runner carries over the tokio, dispatch and passive flags and holds the event pump |
| Mandelbrot.Bounded | src/mandelbrot.rs:14-30 | Returns `EscapeTime`. If inside, the count is `maxiter` and no iterate from 1 to `maxiter` reaches modulus squared 4. Otherwise the count is the first iterate that does |
| Mandelbrot.EscapeTimeFirstCrossing | src/mandelbrot.rs:18-29 | The escape index is at most `maxiter` and is the first crossing of modulus squared 4; "inside" means no crossing up to `maxiter` |
| Mandelbrot.EscapeTimeEdgeCases | src/mandelbrot.rs:16-18 | With `maxiter` 0 the answer is `(true, 0)`; the origin never escapes |
| TextureCopy.CopiedPixel | src/mainapp.rs:282-290 | In `Copied`, pixel (x, y) occupies bytes `pitch*y + 3x .. +2` and holds `image[w*y + x]`'s components |
| TextureCopy.CopiedPadding | src/mainapp.rs:281-292 | Every byte of `Copied` outside the pixel bytes keeps its old value |
| TextureCopy.CopyRow | src/mainapp.rs:283-291 | The inner loop writes row y's pixels and nothing else |
| TextureCopy.FirstFault | src/mainapp.rs:281-290 | Scanning pixels in loop order, the first access out of range indexes at or past the length of the image or of the buffer |
| TextureCopy.NoFaultFrom | src/mainapp.rs:281-290 | The scan from pixel `k` finds no fault exactly when every access from pixel `k` on is in range |
| TextureCopy.AllInRangeIffFits | src/mainapp.rs:281-290 | Every access of a non-empty copy is in range exactly when the last row fits in the buffer and the image covers `w*h` pixels |
| TextureCopy.CopyFault | src/mainapp.rs:281-290 | The copy has a faulting access exactly when it does not fit, and that access indexes at or past a length |
| TextureCopy.ShortImageFault | src/mainapp.rs:281-290 | With rows `3w` bytes apart in a `pitch*h` buffer, a short image makes the copy fault reading the image at its own length |
| TextureCopy.CopyImage | src/mainapp.rs:281-295 | When the copy fits, the image covers `w*h` pixels. With `3w <= pitch` the buffer equals `Copied` of the old buffer. For any pitch, the last row holds its pixels and every byte after it is unchanged |
| MainApp.HandlersRegister | src/mainapp.rs:201-272 | The four handler types register without a panic exactly when none of them was registered before |
| MainApp.HandlersRoute | src/mainapp.rs:201-272 | Each handler's message type routes to that handler and only to it |
| MainApp.Ticker.Once | libs/salty-broth/src/time.rs:36-49 | A new timer has its delay and message, an uncancelled fresh token, and has not fired |
| MainApp.Ticker.Elapse | libs/salty-broth/src/time.rs:40-45 | When the delay elapses, a cancelled or already-fired timer does nothing. Otherwise it fires once and `send`s its message. That appends exactly the message when a dispatcher is installed and the type registered. With no dispatcher it panics with "Cannot dispatch without a currently running event pump.", and with an unregistered type with the "Can't push on SDL pump" `expect` message; the queue is then unchanged |
| MainApp.Ticker.Drop | libs/salty-broth/src/time.rs:52-56 | Dropping a timer cancels its token |
| MainApp.ReplyResult | src/mainapp.rs:233-237 | A canceled reply becomes `Err("Task canceled")`, a delivered one passes the handler's result through, and a pending one has no result yet |
| MainApp.WorkerTask.ComputeDone | src/mainapp.rs:228-240 | A cancelled computation finishes with `Ok(())` and submits nothing. A completed one spawns `MandelbrotReady` with the set for its own sector and awaits the new channel. With no dispatcher the task panics with "Cannot dispatch without a currently running event pump.", and with the task type unregistered with the "Can't push on SDL pump" `expect` message; nothing is queued then |
| MainApp.WorkerTask.PollReply | src/mainapp.rs:233-240 | The task finishes with `ReplyResult` once its channel stops pending |
| MainApp.WorkerTask.Abort | src/mainapp.rs:102-105 | An in-flight task becomes aborted and drops the receiver it awaited; a settled task is untouched |
| MainApp.ReadyResult | src/mainapp.rs:246-262 | `mandelbrot_ready` replies `Ok` exactly when texture creation, the lock and `render` all succeed; otherwise it replies with the first error in that order |
| MainApp.MainApp.constructor | src/mainapp.rs:53-77 | No timer, no task, no selection, a black-and-white palette, the initial sector for the window size, an empty set; the supervision invariant holds |
| MainApp.MainApp.CancelHeld | src/mainapp.rs:102-105 | The held task is taken, its token cancelled and the task aborted, and afterwards every launched task is settled |
| MainApp.MainApp.Resized | src/mainapp.rs:101-119 | Cancels the held task and replaces the timer with a fresh uncancelled 1000 ms one that sends `ResizeTexture`. Dropping the old timer cancels it, and no other field changes |
| MainApp.MainApp.ReplaceTimer | src/mainapp.rs:107-119 | With no task held, a fresh uncancelled 1000 ms timer sending `ResizeTexture` becomes the last timer, the old one is cancelled, every launched task stays settled and the invariant holds |
| MainApp.MainApp.SdlEvent | src/mainapp.rs:155-188 | Left down records the selection centre. Motion updates the selection only while a centre exists. Left up with a centre zooms the sector with y flipped to `h - y` and sends `Redraw`, then clears the selection; a failed send panics with the no-dispatcher or the unregistered-type message, as `RequestRedraw` states. Any other event changes nothing. The supervision invariant is kept |
| MainApp.MainApp.EndSelection | src/mainapp.rs:170-186 | Without a centre the gesture is cleared and nothing is sent. With one, the sector is zoomed to the selection with y flipped, `Redraw` is sent, or the send panics with the no-dispatcher or the unregistered-type message, and the gesture is cleared unless it panicked |
| MainApp.MainApp.RequestRedraw | src/mainapp.rs:178 | Appends exactly the bare `Redraw` to the queue when a dispatcher is installed and the type registered. With no dispatcher it panics with "Cannot dispatch without a currently running event pump."; with the type unregistered it panics with the "Can't push on SDL pump" `expect` message. The queue is then unchanged, and the invariant holds |
| MainApp.MainApp.ResizeTexture | src/mainapp.rs:204-215 | When the output size is known, it adopts the size, fits the sector to it and sends `Redraw`, with the same two panics as `RequestRedraw`; an output-size error is swallowed with nothing changed |
| MainApp.MainApp.Redraw | src/mainapp.rs:217-243 | Cancels and aborts the previous task. Holds exactly one fresh, uncancelled task for the current sector under its own token, appended to the launch history. Every earlier task is settled |
| MainApp.MainApp.Launch | src/mainapp.rs:223-242 | With no task held, a fresh uncancelled task for the current sector under its own token becomes the held task and the last launched one; every earlier task is settled |
| MainApp.MainApp.UpdateTexture | src/mainapp.rs:275-298 | A lock error is returned with the texture untouched. A copy that does not fit panics with the indexing message for its first access out of range. Otherwise the result is `Ok(())`; with `3w <= pitch` the texture equals `Copied` of the old bytes, and for any pitch the last row holds its pixels and every byte after it is unchanged |
| MainApp.MainApp.ShowFrame | src/mainapp.rs:246-262 | A creation error leaves texture and set as they were. Otherwise the new texture and the task's set are adopted and the frame is copied into it. The closure yields `ReadyResult`, unless the image is short, when the copy panics with "index out of bounds: the len is N but the index is N" for the image's length N |
| MainApp.MainApp.MandelbrotReady | src/mainapp.rs:245-265 | The new texture and the task's set are adopted and the frame is copied. The envelope is completed with `ReadyResult`, which returns normally exactly when the receiver is alive and otherwise panics with the `unwrap` message ending in the result's `Debug` rendering. A short image panics in the copy with the image's length as length and index, before anything is sent |
| MainApp.MainApp.PaletteChanged | src/mainapp.rs:267-271 | A palette load error panics with the `unwrap` message and changes nothing. Otherwise it adopts the palette and redraws the texture as `UpdateTexture` does, ignoring the lock result: `Copied` when `3w <= pitch`, the last row and the unchanged tail for any pitch, and the indexing panic of the first access out of range when the copy does not fit |
| MainApp.TextureFits | src/mainapp.rs:281-292 | For a texture of the window's size, the copy fits exactly when the window is empty or the image covers `w*h` pixels |
| Scenarios.RegistryLifecycle | libs/sdl-dispatch/src/lib.rs:58-113 | Dispatching before a dispatcher exists panics without poisoning the lock. The first dispatcher installs, and after its guard is dropped another one installs. Installing a third while that one is current panics, and the run ends there |
| Scenarios.BuiltRunnerPanics | libs/salty-broth/src/sdl_app.rs:110 | A runner built by `AppBuilder::build` with dispatch enabled panics taking the event pump, with the `unwrap` message of SDL's pump-alive refusal: no `App` call is made and no type is registered |
| Scenarios.DoublingRoundTrip | libs/sdl-dispatch/src/lib.rs:27-51 | A doubling task spawned with 10 is pending until handled, then delivers 20, and its sender is spent |
| Scenarios.SameSenderOrder | libs/sdl-dispatch/src/lib.rs:41-51 | Two spawns from one sender arrive in order with distinct channels |
| Scenarios.ResizeBurst | src/mainapp.rs:101-119 | Three resizes inside the debounce window send `ResizeTexture` exactly once, and the two earlier timers are cancelled |
| Scenarios.SettleThenRedraw | src/mainapp.rs:204-243 | A settled resize sends `Redraw`, which supervises one in-flight task for the fitted sector |
| Scenarios.FreshFrame | src/mainapp.rs:217-265 | A computation that is not superseded shows its set and its task ends with `Ok(())` |
| Scenarios.StaleFrameAfterResize | src/mainapp.rs:245-265 | A frame queued before a resize is still shown after the task is cancelled, and its completion panics with the `unwrap` message |

## Left out

- Lock poisoning of `CURRENTDISPATCHER` is not modelled. Every lock is taken with `unwrap`, and only a panic under the write lock (the `make_current` refusal) poisons it, so every later access would panic too. The model keeps no state after such a panic, and `Scenarios.RegistryLifecycle` ends at it.
- Exhaustion of SDL user-event numbers and a full SDL queue are not modelled. The only push failure modelled is an unregistered type, which is what `push_custom_event` reports.
- Floating point is left out. This covers the sector's zoom and fit, `selection_from_center_with_ratio`, the scale computed in `try_from`, and `sector.compute`. Sectors and selections are symbolic (`Initial`, `ZoomedTo`, `FittedTo`), so the model says which operation produced them but not the numbers. `bounded` is modelled over exact reals, not over `f32`/`f64`.
- `get_image_from_palette` is not part of this model. The frame image is an input of `UpdateTexture`.
- `render` and the other SDL canvas calls are inputs: `render`'s result is a parameter where `mandelbrot_ready` uses it, and it is dropped where the code ignores it.
- Texture creation and `destroy` through `raw_create_texture` are not modelled. A created texture is an input, and the replaced texture is simply dropped.
- The `KeyUp P` arm is left out: it opens a file dialog and reads a GIMP palette in a background task. Its effect on the main thread is the `PaletteChanged` message, which `PaletteChanged` models.
- `Drop for MainApp`, `start` and `stop` touch only the canvas and texture, so they have no modelled state.
- `Ticker::looping` is not used by the core, so it is not modelled.
- `libs/pumptasks`, `src/sdl_app.rs`, `src/main.rs` and `src/mathutils.rs` are not part of this model.
- `MainApp.MainApp.SdlEvent`: `self.h as i32 - y` is modelled on unbounded integers. The 32-bit wrap-around for heights above `i32::MAX` is not modelled.
- The sdl2 crate is not part of this model. Its three refusals, a type registered twice, a type never registered and a second live event pump, are the error texts `Sdl.DuplicateTypeError`, `Sdl.UnregisteredTypeError` and `Sdl.PumpAliveError` that `expect` and `unwrap` render into their panics.
- A `oneshot` sender dropped without sending is not modelled: every envelope is completed with `complete`, which sends. A live receiver therefore never observes `Canceled`, and `MainApp.ReplyResult`'s `Err("Task canceled")` arm is not reached by any modelled run.
- `Base.DebugString`: the string is quoted without the escaping Rust's `Debug` formatting applies to quotes, backslashes and control characters.
- `MainApp.MainApp.UpdateTexture`: when the copy does not fit, the bytes written before the out-of-bounds panic are not stated. The panic ends the main thread either way.
- `TextureCopy.CopyImage`: when `3w > pitch`, consecutive rows overlap. Only the last row and the unchanged tail are stated, not the overwritten earlier rows.
- `MainApp.MainApp.UpdateTexture`: when `3w > pitch` (a texture whose row pitch is smaller than the window's width, as after `resize_texture` then `palette_changed`), only the last row and the unchanged tail are stated, as for `CopyImage`.
- `AppRunner::run` never calls `MainApp::sdl_event`, because it is not part of the `App` trait. `SdlEvent` is modelled as the handler it is written as, and the run loop does not invoke it.
- Concurrency is not modelled. The tokio runtime, timer threads and background tasks are steps called explicitly. Interleavings are sequences of those calls, not simultaneous executions.
- `with_tokio` and `with_egui` have no effect in `run`, so they are only carried as flags.
