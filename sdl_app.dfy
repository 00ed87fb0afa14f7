/// The owner event loop of `salty-broth`: the handler routing generated by
/// `dispatch_handlers!`, the batch-and-flags loop of `AppRunner::run`, and the
/// `AppBuilder` that configures it. An application is seen through the calls
/// the loop makes on it (`start`, `resized`, a dispatch handler, `stop`).
module SdlApp {
  import opened Base
  import opened Sdl
  import Dispatch

  /// `Event::Quit`, or a key press of Escape.
  predicate IsQuit<D>(e: Event<D>)
  {
    e.Quit? || (e.KeyDown? && e.keycode == Some(Escape))
  }

  /// A window `Resized` or `SizeChanged` event.
  predicate IsResize<D>(e: Event<D>)
  {
    e.Window? && (e.winEvent.Resized? || e.winEvent.SizeChanged?)
  }

  /// The first handler, in declaration order, declared for `tag`.
  function FirstHandler(handlers: seq<TypeTag>, tag: TypeTag): (k: Option<nat>)
    ensures k.Some? ==> k.value < |handlers| && handlers[k.value] == tag &&
                        forall j :: 0 <= j < k.value ==> handlers[j] != tag
    ensures k.None? <==> tag !in handlers
  {
    if handlers == [] then None
    else if handlers[0] == tag then Some(0)
    else match FirstHandler(handlers[1..], tag)
      case Some(k) => Some(k + 1)
      case None => None
  }

  /// `handle_dispatch`, as `dispatch_handlers!` expands it: `false` for
  /// anything but a user event; otherwise the declared types are tried in
  /// order and the first that matches has its handler invoked, once. The
  /// result names that handler; `None` stands for `false`.
  method HandleDispatch<D>(handlers: seq<TypeTag>, e: Event<D>) returns (invoked: Option<nat>)
    ensures !e.User? ==> invoked.None?
    ensures e.User? ==> invoked == FirstHandler(handlers, e.tag)
  {
    if !e.User? {
      return None;
    }
    var i := 0;
    while i < |handlers|
      invariant 0 <= i <= |handlers|
      invariant forall j :: 0 <= j < i ==> handlers[j] != e.tag
    {
      if handlers[i] == e.tag {
        return Some(i);
      }
      i := i + 1;
    }
    return None;
  }

  /// How many of `tags`, registered in order on top of `reg`, register
  /// before the first one that is already registered.
  function CleanPrefix(tags: seq<TypeTag>, reg: set<TypeTag>): (n: nat)
    ensures n <= |tags|
  {
    if tags == [] || tags[0] in reg then 0 else 1 + CleanPrefix(tags[1..], reg + {tags[0]})
  }

  /// All declared types register exactly when they are pairwise distinct
  /// and none was registered before.
  lemma {:induction false} CleanPrefixAll(tags: seq<TypeTag>, reg: set<TypeTag>)
    ensures CleanPrefix(tags, reg) == |tags| <==>
            (forall i, j :: 0 <= i < j < |tags| ==> tags[i] != tags[j]) &&
            (forall i :: 0 <= i < |tags| ==> tags[i] !in reg)
  {
    if tags != [] {
      CleanPrefixAll(tags[1..], reg + {tags[0]});
      assert forall i :: 1 <= i < |tags| ==> tags[i] == tags[1..][i - 1];
    }
  }

  /// `register_dispatch`: registers every declared type in order; the first
  /// one already registered makes `expect` panic, after the ones before it
  /// have been registered.
  method RegisterDispatch<V>(host: Dispatch.Host<V>, handlers: seq<TypeTag>) returns (o: Outcome)
    modifies host`registered
    ensures var n := CleanPrefix(handlers, old(host.registered));
            && host.registered == old(host.registered) + (set j | 0 <= j < n :: handlers[j])
            && (o == Done <==> n == |handlers|)
            && (o.Panicked? ==> o == Panicked(Dispatch.RegisteredTwice))
  {
    ghost var reg0 := host.registered;
    var i := 0;
    o := Done;
    while i < |handlers|
      invariant o == Done
      invariant 0 <= i <= CleanPrefix(handlers, reg0)
      invariant host.registered == reg0 + (set j | 0 <= j < i :: handlers[j])
      invariant CleanPrefix(handlers, reg0) == i + CleanPrefix(handlers[i..], host.registered)
    {
      assert handlers[i..][1..] == handlers[i + 1..];
      o := host.RegisterCustomEvent(handlers[i]);
      if o.Panicked? {
        return;
      }
      assert (set j | 0 <= j < i + 1 :: handlers[j]) == (set j | 0 <= j < i :: handlers[j]) + {handlers[i]};
      i := i + 1;
    }
    assert handlers[i..] == [];
  }

  /// Whether the loop hands `e` to the application's dispatch handler.
  predicate Dispatched<D>(handlers: seq<TypeTag>, e: Event<D>)
  {
    e.User? && e.tag in handlers
  }

  /// The position of the first event of the batch that is dispatched.
  function FirstDispatched<D>(handlers: seq<TypeTag>, batch: seq<Event<D>>): (k: Option<nat>)
    ensures k.Some? ==> k.value < |batch| && Dispatched(handlers, batch[k.value]) &&
                        forall j :: 0 <= j < k.value ==> !Dispatched(handlers, batch[j])
    ensures k.None? ==> forall j :: 0 <= j < |batch| ==> !Dispatched(handlers, batch[j])
  {
    if batch == [] then None
    else if Dispatched(handlers, batch[0]) then Some(0)
    else match FirstDispatched(handlers, batch[1..])
      case Some(k) => Some(k + 1)
      case None => None
  }

  /// `PostPumpState`: what a batch revealed.
  datatype PostPumpState = PostPumpState(resized: bool, quit: bool)

  /// How draining one batch ends: a dispatched event makes `run` return at
  /// once, otherwise the flags are handed on.
  datatype BatchResult = DispatchedAt(at: nat, handler: nat) | Pumped(state: PostPumpState)

  ghost predicate AnyQuit<D>(batch: seq<Event<D>>)
  {
    exists j :: 0 <= j < |batch| && IsQuit(batch[j])
  }

  ghost predicate AnyResize<D>(batch: seq<Event<D>>)
  {
    exists j :: 0 <= j < |batch| && IsResize(batch[j])
  }

  /// What draining `batch` does: stop at the first dispatched event, or set
  /// `quit` iff some event asks to quit and `resized` iff some event is a
  /// resize.
  ghost function BatchSpec<D>(handlers: seq<TypeTag>, batch: seq<Event<D>>): BatchResult
  {
    match FirstDispatched(handlers, batch)
    case Some(k) => DispatchedAt(k, FirstHandler(handlers, batch[k].tag).value)
    case None => Pumped(PostPumpState(AnyResize(batch), AnyQuit(batch)))
  }

  /// The `for event in iterator` loop of `run`.
  method PumpBatch<D>(handlers: seq<TypeTag>, batch: seq<Event<D>>) returns (r: BatchResult)
    ensures r == BatchSpec(handlers, batch)
  {
    var state := PostPumpState(false, false);
    var i := 0;
    while i < |batch|
      invariant 0 <= i <= |batch|
      invariant forall j :: 0 <= j < i ==> !Dispatched(handlers, batch[j])
      invariant state.quit <==> exists j :: 0 <= j < i && IsQuit(batch[j])
      invariant state.resized <==> exists j :: 0 <= j < i && IsResize(batch[j])
    {
      var event := batch[i];
      if event.User? {
        var handled := HandleDispatch(handlers, event);
        if handled.Some? {
          return DispatchedAt(i, handled.value);
        }
      }
      if IsQuit(event) {
        state := state.(quit := true);
      } else if IsResize(event) {
        state := state.(resized := true);
      }
      i := i + 1;
    }
    return Pumped(state);
  }

  /// What the pump yields on one iteration: the event `wait_event` blocks
  /// for (used only in passive mode) and the events `poll_iter` then gives.
  datatype Round<D> = Round(waited: Event<D>, polled: seq<Event<D>>)

  /// The batch of one iteration.
  function Batch<D>(passive: bool, round: Round<D>): seq<Event<D>>
  {
    if passive then [round.waited] + round.polled else round.polled
  }

  /// The calls `run` makes on the application.
  datatype AppCall = CallStart | CallResized | CallHandler(handler: nat) | CallStop

  /// How `run` ends: it returned right after a dispatched event, it broke
  /// out on quit (and called `stop`), registration panicked, taking the
  /// event pump panicked (with `message`) because the runner still holds
  /// one, or the pump has produced no more rounds yet (the loop is still
  /// running).
  datatype RunEnd = DispatchReturned | QuitStopped | RegisterPanicked(message: string) | PumpTaken(message: string) | StillRunning

  /// The panic of `event_pump().unwrap()` while another pump is alive.
  const PumpTakenPanic := UnwrapPanic(DebugString(PumpAliveError))

  /// The calls the `'running` loop makes over the given rounds, and how it
  /// ends.
  ghost function LoopSpec<D>(passive: bool, handlers: seq<TypeTag>, rounds: seq<Round<D>>): (seq<AppCall>, RunEnd)
    decreases |rounds|
  {
    if rounds == [] then ([], StillRunning)
    else match BatchSpec(handlers, Batch(passive, rounds[0]))
      case DispatchedAt(_, hd) => ([CallHandler(hd)], DispatchReturned)
      case Pumped(s) =>
        if s.quit then ([], QuitStopped)
        else
          var rest := LoopSpec(passive, handlers, rounds[1..]);
          ((if s.resized then [CallResized] else []) + rest.0, rest.1)
  }

  /// The calls `run` makes, given how `register_dispatch` ended.
  ghost function RunSpec<D>(registration: Outcome, passive: bool, handlers: seq<TypeTag>, rounds: seq<Round<D>>): (seq<AppCall>, RunEnd)
  {
    if registration.Panicked? then ([], RegisterPanicked(registration.message))
    else
      var (calls, end) := LoopSpec(passive, handlers, rounds);
      ([CallStart] + calls + (if end == QuitStopped then [CallStop] else []), end)
  }

  /// The `'running` loop of `run`.
  method RunLoop<D>(passive: bool, handlers: seq<TypeTag>, rounds: seq<Round<D>>) returns (calls: seq<AppCall>, end: RunEnd)
    ensures (calls, end) == LoopSpec(passive, handlers, rounds)
  {
    calls := [];
    var r := 0;
    assert rounds[r..] == rounds;
    assert LoopSpec(passive, handlers, rounds).0 == calls + LoopSpec(passive, handlers, rounds).0;
    while r < |rounds|
      invariant 0 <= r <= |rounds|
      invariant LoopSpec(passive, handlers, rounds) ==
                (calls + LoopSpec(passive, handlers, rounds[r..]).0, LoopSpec(passive, handlers, rounds[r..]).1)
    {
      assert rounds[r..][1..] == rounds[r + 1..];
      ghost var rest := LoopSpec(passive, handlers, rounds[r + 1..]);
      var batch := if passive then [rounds[r].waited] + rounds[r].polled else rounds[r].polled;
      assert batch == Batch(passive, rounds[r..][0]);
      var result := PumpBatch(handlers, batch);
      match result {
        case DispatchedAt(_, hd) =>
          return calls + [CallHandler(hd)], DispatchReturned;
        case Pumped(postpumpstate) =>
          if postpumpstate.quit {
            assert calls + [] == calls;
            return calls, QuitStopped;
          }
          if postpumpstate.resized {
            assert calls + ([CallResized] + rest.0) == (calls + [CallResized]) + rest.0;
            calls := calls + [CallResized];
          } else {
            assert [] + rest.0 == rest.0;
          }
      }
      r := r + 1;
    }
    assert calls + [] == calls;
    return calls, StillRunning;
  }

  /// The flags `AppBuilder::build` hands to the runner, and whether the
  /// runner keeps an `EventPump` of its own alive (SDL allows one at a time).
  datatype RunnerConfig = RunnerConfig(withTokio: bool, withDispatch: bool, passive: bool, holdsPump: bool)

  /// Whether `register_dispatch` succeeds on top of `reg`.
  function RegistrationOutcome(handlers: seq<TypeTag>, reg: set<TypeTag>): Outcome
  {
    if CleanPrefix(handlers, reg) == |handlers| then Done else Panicked(Dispatch.RegisteredTwice)
  }

  /// `AppRunner::run`: takes an event pump, `unwrap`ping the refusal SDL
  /// gives while the runner still holds the pump `build` created; then
  /// registers the dispatch types when `with_dispatch` is set, calls
  /// `start` once, runs the loop, and calls `stop` once after the loop
  /// breaks on quit.
  method Run<V>(host: Dispatch.Host<V>, config: RunnerConfig, handlers: seq<TypeTag>,
                rounds: seq<Round<Dispatch.Payload<V>>>) returns (calls: seq<AppCall>, end: RunEnd)
    modifies host`registered
    ensures config.holdsPump ==> calls == [] && end == PumpTaken(PumpTakenPanic) && host.registered == old(host.registered)
    ensures !config.withDispatch ==> host.registered == old(host.registered)
    ensures !config.holdsPump && config.withDispatch ==>
              host.registered == old(host.registered) +
                (set j | 0 <= j < CleanPrefix(handlers, old(host.registered)) :: handlers[j])
    ensures !config.holdsPump ==>
            (calls, end) ==
            RunSpec(if config.withDispatch then RegistrationOutcome(handlers, old(host.registered)) else Done,
                    config.passive, handlers, rounds)
  {
    if config.holdsPump {
      return [], PumpTaken(PumpTakenPanic);
    }
    if config.withDispatch {
      var o := RegisterDispatch(host, handlers);
      if o.Panicked? {
        return [], RegisterPanicked(o.message);
      }
    }
    calls := [CallStart];
    var loopCalls;
    loopCalls, end := RunLoop(config.passive, handlers, rounds);
    calls := calls + loopCalls;
    if end == QuitStopped {
      calls := calls + [CallStop];
    } else {
      assert calls + [] == calls;
    }
  }

  function Count(calls: seq<AppCall>, c: AppCall): nat
  {
    if calls == [] then 0 else (if calls[0] == c then 1 else 0) + Count(calls[1..], c)
  }

  lemma {:induction false} CountAppend(a: seq<AppCall>, b: seq<AppCall>, c: AppCall)
    ensures Count(a + b, c) == Count(a, c) + Count(b, c)
  {
    if a == [] {
      assert a + b == b;
    } else {
      assert (a + b)[1..] == a[1..] + b;
      CountAppend(a[1..], b, c);
    }
  }

  /// The loop itself never calls `start` or `stop`, and calls `resized` at
  /// most once per round, however many resize events the round holds.
  lemma {:induction false} LoopCallCounts<D>(passive: bool, handlers: seq<TypeTag>, rounds: seq<Round<D>>)
    ensures Count(LoopSpec(passive, handlers, rounds).0, CallStop) == 0
    ensures Count(LoopSpec(passive, handlers, rounds).0, CallStart) == 0
    ensures Count(LoopSpec(passive, handlers, rounds).0, CallResized) <= |rounds|
    decreases |rounds|
  {
    if rounds != [] {
      match BatchSpec(handlers, Batch(passive, rounds[0]))
      case DispatchedAt(_, hd) =>
      case Pumped(s) =>
        if !s.quit {
          LoopCallCounts(passive, handlers, rounds[1..]);
          var rest := LoopSpec(passive, handlers, rounds[1..]);
          var head: seq<AppCall> := if s.resized then [CallResized] else [];
          CountAppend(head, rest.0, CallStop);
          CountAppend(head, rest.0, CallStart);
          CountAppend(head, rest.0, CallResized);
        }
    }
  }

  /// `start` is called exactly once when registration succeeds, `stop`
  /// exactly once when the loop broke on quit and never otherwise, and
  /// `resized` at most once per round.
  lemma RunCallCounts<D>(registration: Outcome, passive: bool, handlers: seq<TypeTag>, rounds: seq<Round<D>>)
    ensures var (calls, end) := RunSpec(registration, passive, handlers, rounds);
            && Count(calls, CallStop) == (if end == QuitStopped then 1 else 0)
            && Count(calls, CallStart) == (if registration == Done then 1 else 0)
            && Count(calls, CallResized) <= |rounds|
            && (registration == Done ==> calls[0] == CallStart)
  {
    if registration.Done? {
      var (loopCalls, end) := LoopSpec(passive, handlers, rounds);
      LoopCallCounts(passive, handlers, rounds);
      var tail: seq<AppCall> := if end == QuitStopped then [CallStop] else [];
      CountAppend([CallStart], loopCalls, CallStop);
      CountAppend([CallStart] + loopCalls, tail, CallStop);
      CountAppend([CallStart], loopCalls, CallStart);
      CountAppend([CallStart] + loopCalls, tail, CallStart);
      CountAppend([CallStart], loopCalls, CallResized);
      CountAppend([CallStart] + loopCalls, tail, CallResized);
    }
  }

  /// A batch with any number of resize events and no quit or dispatched
  /// event leads to exactly one `resized` call before the next round.
  lemma BurstCollapses<D>(passive: bool, handlers: seq<TypeTag>, rounds: seq<Round<D>>, k: nat)
    requires rounds != [] && k < |Batch(passive, rounds[0])| && IsResize(Batch(passive, rounds[0])[k])
    requires forall j :: 0 <= j < |Batch(passive, rounds[0])| ==>
               !IsQuit(Batch(passive, rounds[0])[j]) && !Dispatched(handlers, Batch(passive, rounds[0])[j])
    ensures LoopSpec(passive, handlers, rounds) ==
            ([CallResized] + LoopSpec(passive, handlers, rounds[1..]).0, LoopSpec(passive, handlers, rounds[1..]).1)
  {
  }

  /// Quit has priority: a batch that asks to quit and has no dispatched
  /// event ends the loop before `resized`, whatever else it or later rounds
  /// hold.
  lemma QuitHasPriority<D>(passive: bool, handlers: seq<TypeTag>, rounds: seq<Round<D>>, k: nat)
    requires rounds != [] && k < |Batch(passive, rounds[0])| && IsQuit(Batch(passive, rounds[0])[k])
    requires forall j :: 0 <= j < |Batch(passive, rounds[0])| ==> !Dispatched(handlers, Batch(passive, rounds[0])[j])
    ensures LoopSpec(passive, handlers, rounds) == ([], QuitStopped)
  {
  }

  /// A dispatched event makes `run` return straight after its handler: the
  /// rest of the batch and every later round are ignored and `stop` is not
  /// called.
  lemma DispatchReturnsAtOnce<D>(registration: Outcome, passive: bool, handlers: seq<TypeTag>, rounds: seq<Round<D>>, k: nat)
    requires registration == Done
    requires rounds != [] && k < |Batch(passive, rounds[0])| && Dispatched(handlers, Batch(passive, rounds[0])[k])
    requires forall j :: 0 <= j < k ==> !Dispatched(handlers, Batch(passive, rounds[0])[j])
    ensures FirstHandler(handlers, Batch(passive, rounds[0])[k].tag).Some?
    ensures RunSpec(registration, passive, handlers, rounds) ==
            ([CallStart, CallHandler(FirstHandler(handlers, Batch(passive, rounds[0])[k].tag).value)], DispatchReturned)
  {
    var batch := Batch(passive, rounds[0]);
    var f := FirstDispatched(handlers, batch);
    var hd := FirstHandler(handlers, batch[k].tag).value;
    assert f == Some(k);
    assert LoopSpec(passive, handlers, rounds) == ([CallHandler(hd)], DispatchReturned);
    assert [CallStart] + [CallHandler(hd)] + [] == [CallStart, CallHandler(hd)];
  }

  /// `AppBuilder`: a field-setting builder.
  class AppBuilder {
    var title: string
    var windowSize: (u32, u32)
    var withTokio: bool
    var withDispatch: bool
    var withEgui: bool
    var passive: bool

    /// `AppBuilder::new`: an 800x600 window with every flag off.
    constructor (title: string)
      ensures this.title == title && windowSize == (800, 600)
      ensures !withTokio && !withDispatch && !withEgui && !passive
    {
      this.title := title;
      windowSize := (800, 600);
      withTokio, withDispatch, withEgui, passive := false, false, false, false;
    }

    method WindowSize(w: u32, h: u32)
      modifies this`windowSize
      ensures windowSize == (w, h)
    {
      windowSize := (w, h);
    }

    method WithTokio()
      modifies this`withTokio
      ensures withTokio
    {
      withTokio := true;
    }

    method WithDispatch()
      modifies this`withDispatch
      ensures withDispatch
    {
      withDispatch := true;
    }

    method PassiveEventLoop()
      modifies this`passive
      ensures passive
    {
      passive := true;
    }

    method WithEgui()
      modifies this`withEgui
      ensures withEgui
    {
      withEgui := true;
    }

    /// `build`: the runner takes over the three loop flags (`with_egui` is
    /// not passed on) and the event pump it creates.
    method Build() returns (config: RunnerConfig)
      ensures config.withTokio == withTokio && config.withDispatch == withDispatch && config.passive == passive
      ensures config.holdsPump
    {
      config := RunnerConfig(withTokio, withDispatch, passive, true);
    }
  }
}
