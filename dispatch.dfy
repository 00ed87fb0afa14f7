/// The ambient-dispatcher registry and the task envelope of the
/// `sdl-dispatch` library: a process-wide slot holding the current
/// dispatcher, the SDL event queue it pushes onto, the set of custom event
/// types registered with SDL, and the one-shot channels that carry results
/// back. Locks and channels are plain sequential state here.
module Dispatch {
  import opened Base
  import opened Sdl

  /// `SdlDispatcher`: a handle on SDL's event sender. Every dispatcher of
  /// the process pushes onto the same SDL queue.
  datatype Dispatcher = Dispatcher(sender: nat)

  /// The panic of `expect("Types already registered")` on SDL's refusal of a
  /// second registration of a type.
  const RegisteredTwice := ExpectPanic("Types already registered", DebugString(DuplicateTypeError))

  /// The panic of `expect("Can't push on SDL pump")` on SDL's refusal to push
  /// a type that was never registered.
  const PushRefused := ExpectPanic("Can't push on SDL pump", DebugString(UnregisteredTypeError))

  /// The panic of the free `spawn` and `send` when no dispatcher is installed.
  const NoPump := "Cannot dispatch without a currently running event pump."

  /// `SdlPumpTask<TIn, TOut>`: the input and the sending half of a one-shot
  /// channel, named by the channel's index in `Host.channels`.
  datatype PumpTask<V> = PumpTask(input: V, slot: nat)

  /// What a user event carries: a bare value (`send`) or an envelope (`spawn`).
  datatype Payload<V> = Bare(value: V) | Envelope(task: PumpTask<V>)

  type HostEvent<V> = Event<Payload<V>>

  /// A `futures::channel::oneshot` channel: the value sent (if any) and
  /// whether each half is still alive. Sending consumes the sender.
  datatype Channel<V> = Channel(value: Option<V>, senderAlive: bool, receiverAlive: bool)

  /// What the receiving half observes when it is polled.
  datatype Poll<V> = Pending | Delivered(value: V) | Canceled

  function NewChannel<V>(): Channel<V>
  {
    Channel(None, true, true)
  }

  /// The receiver's view: the value once sent, `Canceled` once the sender is
  /// gone without sending, otherwise still pending. The only way the model's
  /// operations spend a sender is `complete`, which sends; a sender that
  /// finds its receiver dropped stores nothing, but then nobody polls. So a
  /// live receiver never observes `Canceled` here.
  function Receive<V>(c: Channel<V>): Poll<V>
  {
    if c.value.Some? then Delivered(c.value.value)
    else if !c.senderAlive then Canceled
    else Pending
  }

  /// `oneshot::Sender::send`: consumes the sender; the value is stored only
  /// while the receiver is alive (otherwise `send` returns it as an error).
  function Fulfil<V>(c: Channel<V>, v: V): (r: Channel<V>)
    requires c.senderAlive
    ensures !r.senderAlive && r.receiverAlive == c.receiverAlive
    ensures c.receiverAlive ==> Receive(r) == Delivered(v)
    ensures !c.receiverAlive ==> r.value == c.value
  {
    if c.receiverAlive then Channel(Some(v), false, true) else c.(senderAlive := false)
  }

  /// The user event `spawn::<TIn, TOut>` pushes.
  function EnvelopeEvent<V>(tin: TypeTag, tout: TypeTag, input: V, slot: nat): HostEvent<V>
  {
    User(PumpTaskOf(tin, tout), Envelope(PumpTask(input, slot)))
  }

  /// The user event `send::<TIn>` pushes.
  function BareEvent<V>(tag: TypeTag, value: V): HostEvent<V>
  {
    User(tag, Bare(value))
  }

  /// `handle_sdl_event::<TIn, TOut>`: the envelope carried by `e` when `e` is
  /// a user event of type `SdlPumpTask<TIn, TOut>`, and `None` otherwise.
  function HandleSdlEvent<V>(tin: TypeTag, tout: TypeTag, e: HostEvent<V>): (r: Option<PumpTask<V>>)
    ensures !e.User? ==> r.None?
    ensures e.User? && e.tag != PumpTaskOf(tin, tout) ==> r.None?
  {
    if !e.User? then None
    else if e.tag == PumpTaskOf(tin, tout) && e.data.Envelope? then Some(e.data.task)
    else None
  }

  /// The envelope `spawn::<TIn, TOut>` pushes is recognised by
  /// `handle_sdl_event` for the same type pair, with `input()` equal to the
  /// input given to `spawn`, and by no other pair.
  lemma SpawnedEnvelopeRecognised<V>(tin: TypeTag, tout: TypeTag, input: V, slot: nat, tin': TypeTag, tout': TypeTag)
    ensures HandleSdlEvent(tin', tout', EnvelopeEvent(tin, tout, input, slot)) ==
            if tin' == tin && tout' == tout then Some(PumpTask(input, slot)) else None
    ensures (tin' == tin && tout' == tout) ==> HandleSdlEvent(tin', tout', EnvelopeEvent(tin, tout, input, slot)).value.input == input
  {
  }

  /// A value pushed by `send` is never taken for a task envelope.
  lemma SentValueNotATask<V>(tag: TypeTag, value: V, tin: TypeTag, tout: TypeTag)
    ensures HandleSdlEvent(tin, tout, BareEvent(tag, value)).None?
  {
  }

  /// A user event is well formed when its payload kind agrees with its tag
  /// (a `SdlPumpTask` type carries an envelope, any other type a bare value)
  /// and its envelope names an existing channel.
  ghost predicate EventValid<V>(e: HostEvent<V>, channelCount: nat)
  {
    e.User? ==> (e.tag.PumpTaskOf? <==> e.data.Envelope?) &&
                (e.data.Envelope? ==> e.data.task.slot < channelCount)
  }

  /// The process-wide state the library touches: the `CURRENTDISPATCHER`
  /// slot, SDL's event queue (FIFO), the custom event types registered with
  /// SDL, and the one-shot channels created by `spawn`.
  class Host<V> {
    var current: Option<Dispatcher>
    var queue: seq<HostEvent<V>>
    var registered: set<TypeTag>
    var channels: seq<Channel<V>>

    ghost predicate Valid()
      reads this
    {
      forall i :: 0 <= i < |queue| ==> EventValid(queue[i], |channels|)
    }

    /// The process starts with no dispatcher, an empty queue, no registered
    /// types and no channels.
    constructor ()
      ensures Valid()
      ensures current == None && queue == [] && registered == {} && channels == []
    {
      current, queue, registered, channels := None, [], {}, [];
    }

    /// `SdlDispatcher::make_current` (through `DispatcherGuard::new`):
    /// installs `d` when the slot is empty and hands back the guard; panics,
    /// leaving the installed dispatcher in place, when the slot is occupied.
    method MakeCurrent(d: Dispatcher) returns (o: Outcome)
      modifies this`current
      ensures old(current).None? ==> o == Done && current == Some(d)
      ensures old(current).Some? ==> o == Panicked("Cannot have more than one main thread dispatcher systemwide.") && current == old(current)
    {
      match current {
        case None =>
          current := Some(d);
          o := Done;
        case Some(_) =>
          o := Panicked("Cannot have more than one main thread dispatcher systemwide.");
      }
    }

    /// `Drop for DispatcherGuard`: empties the slot, whatever it held.
    method DropGuard()
      modifies this`current
      ensures current == None
    {
      current := None;
    }

    /// SDL's `register_custom_event` followed by `expect("Types already
    /// registered")`: a type can be registered once; a second registration
    /// panics and registers nothing.
    method RegisterCustomEvent(tag: TypeTag) returns (o: Outcome)
      modifies this`registered
      ensures tag !in old(registered) ==> o == Done && registered == old(registered) + {tag}
      ensures tag in old(registered) ==> o == Panicked(RegisteredTwice) && registered == old(registered)
    {
      if tag in registered {
        o := Panicked(RegisteredTwice);
      } else {
        registered := registered + {tag};
        o := Done;
      }
    }

    /// `register_task_type::<TIn, TOut>`: registers `SdlPumpTask<TIn, TOut>`.
    method RegisterTaskType(tin: TypeTag, tout: TypeTag) returns (o: Outcome)
      modifies this`registered
      ensures PumpTaskOf(tin, tout) !in old(registered) ==> o == Done && registered == old(registered) + {PumpTaskOf(tin, tout)}
      ensures PumpTaskOf(tin, tout) in old(registered) ==> o == Panicked(RegisteredTwice) && registered == old(registered)
    {
      o := RegisterCustomEvent(PumpTaskOf(tin, tout));
    }

    /// `SdlDispatcher::spawn::<TIn, TOut>`: creates a one-shot channel, pushes
    /// one envelope holding `input` and the channel's sender, and returns the
    /// receiver. SDL refuses to push an unregistered type, and `expect` turns
    /// that into a panic.
    method DispatcherSpawn(tin: TypeTag, tout: TypeTag, input: V) returns (o: Outcome, rx: nat)
      requires Valid()
      modifies this`queue, this`channels
      ensures Valid()
      ensures PumpTaskOf(tin, tout) in registered ==>
                && o == Done && rx == |old(channels)|
                && channels == old(channels) + [NewChannel()]
                && queue == old(queue) + [EnvelopeEvent(tin, tout, input, rx)]
      ensures PumpTaskOf(tin, tout) !in registered ==>
                o == Panicked(PushRefused) && queue == old(queue) && channels == old(channels)
    {
      if PumpTaskOf(tin, tout) in registered {
        rx := |channels|;
        channels := channels + [NewChannel()];
        queue := queue + [EnvelopeEvent(tin, tout, input, rx)];
        o := Done;
      } else {
        rx := 0;
        o := Panicked(PushRefused);
      }
    }

    /// `SdlDispatcher::send::<TIn>`: pushes one user event carrying `value`
    /// and no channel; panics when the type is not registered. (Pushing an
    /// envelope type is what `spawn` does.)
    method DispatcherSend(tag: TypeTag, value: V) returns (o: Outcome)
      requires Valid() && !tag.PumpTaskOf?
      modifies this`queue
      ensures Valid()
      ensures tag in registered ==> o == Done && queue == old(queue) + [BareEvent(tag, value)]
      ensures tag !in registered ==> o == Panicked(PushRefused) && queue == old(queue)
    {
      if tag in registered {
        queue := queue + [BareEvent(tag, value)];
        o := Done;
      } else {
        o := Panicked(PushRefused);
      }
    }

    /// The free `spawn::<TIn, TOut>`: panics when no dispatcher is installed,
    /// otherwise does what the installed dispatcher's `spawn` does.
    method Spawn(tin: TypeTag, tout: TypeTag, input: V) returns (o: Outcome, rx: nat)
      requires Valid()
      modifies this`queue, this`channels
      ensures Valid()
      ensures current.None? ==>
                o == Panicked(NoPump) &&
                queue == old(queue) && channels == old(channels)
      ensures current.Some? && PumpTaskOf(tin, tout) in registered ==>
                && o == Done && rx == |old(channels)|
                && channels == old(channels) + [NewChannel()]
                && queue == old(queue) + [EnvelopeEvent(tin, tout, input, rx)]
      ensures current.Some? && PumpTaskOf(tin, tout) !in registered ==>
                o == Panicked(PushRefused) && queue == old(queue) && channels == old(channels)
    {
      match current {
        case Some(_) =>
          o, rx := DispatcherSpawn(tin, tout, input);
        case None =>
          rx := 0;
          o := Panicked(NoPump);
      }
    }

    /// The free `send::<TIn>`: panics when no dispatcher is installed,
    /// otherwise does what the installed dispatcher's `send` does.
    method Send(tag: TypeTag, value: V) returns (o: Outcome)
      requires Valid() && !tag.PumpTaskOf?
      modifies this`queue
      ensures Valid()
      ensures current.None? ==> o == Panicked(NoPump) && queue == old(queue)
      ensures current.Some? && tag in registered ==> o == Done && queue == old(queue) + [BareEvent(tag, value)]
      ensures current.Some? && tag !in registered ==> o == Panicked(PushRefused) && queue == old(queue)
    {
      match current {
        case Some(_) =>
          o := DispatcherSend(tag, value);
        case None =>
          o := Panicked(NoPump);
      }
    }

    /// SDL's `poll_event`: takes the oldest pending event, if any.
    method PollEvent() returns (e: Option<HostEvent<V>>)
      requires Valid()
      modifies this`queue
      ensures Valid()
      ensures old(queue) == [] ==> e.None? && queue == []
      ensures old(queue) != [] ==> e == Some(old(queue)[0]) && queue == old(queue)[1..]
    {
      if queue == [] {
        e := None;
      } else {
        e := Some(queue[0]);
        queue := queue[1..];
      }
    }

    /// `SdlPumpTask::complete`: consumes the envelope and sends `result` on
    /// its channel. The envelope must still be owned, which is what makes a
    /// second completion of the same slot impossible; `unwrap` panics when
    /// the receiver is already gone, printing `shown`, the `Debug`
    /// rendering of the `result` that `send` hands back.
    method Complete(task: PumpTask<V>, result: V, shown: string) returns (o: Outcome)
      requires Valid() && task.slot < |channels| && channels[task.slot].senderAlive
      modifies this`channels
      ensures Valid()
      ensures channels == old(channels)[task.slot := Fulfil(old(channels[task.slot]), result)]
      ensures o == Done <==> old(channels[task.slot].receiverAlive)
      ensures o.Panicked? ==> o.message == UnwrapPanic(shown)
    {
      var c := channels[task.slot];
      channels := channels[task.slot := Fulfil(c, result)];
      if c.receiverAlive {
        o := Done;
      } else {
        o := Panicked(UnwrapPanic(shown));
      }
    }

    /// Dropping a `oneshot::Receiver`.
    method DropReceiver(rx: nat)
      requires Valid() && rx < |channels|
      modifies this`channels
      ensures Valid()
      ensures channels == old(channels)[rx := old(channels[rx]).(receiverAlive := false)]
    {
      channels := channels[rx := channels[rx].(receiverAlive := false)];
    }
  }
}
