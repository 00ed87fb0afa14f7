/// The part of SDL's event system the core relies on: the events the owner
/// loop and the application look at, and the type tags under which custom
/// (user) events are registered and recognised.
module Sdl {
  import opened Base

  /// The Rust type a custom event was registered for. `SdlPumpTask<TIn, TOut>`
  /// is its own type, distinct from `TIn` and from every other pair.
  datatype TypeTag = Named(name: string) | PumpTaskOf(input: TypeTag, output: TypeTag)

  /// The error the sdl2 crate's `register_custom_event` returns for a type
  /// registered before.
  const DuplicateTypeError := "The same event type can not be registered twice!"

  /// The error the sdl2 crate's `push_custom_event` returns for a type that
  /// was never registered.
  const UnregisteredTypeError := "Type is not registered as a custom event type!"

  /// The error the sdl2 crate's `event_pump` returns while another
  /// `EventPump` is still alive.
  const PumpAliveError := "an `EventPump` instance is already alive - there can only be one `EventPump` in use at a time."

  datatype Keycode = Escape | P | OtherKey(code: int)

  datatype MouseButton = Left | Middle | Right | X1 | X2

  datatype WindowEvent = Resized(width: int, height: int) | SizeChanged(width: int, height: int) | OtherWindowEvent

  /// An SDL event; a user event carries the tag of its registered type and a
  /// payload of type `D`.
  datatype Event<D> =
    | Quit
    | KeyDown(keycode: Option<Keycode>)
    | KeyUp(keycode: Option<Keycode>)
    | Window(winEvent: WindowEvent)
    | MouseButtonDown(button: MouseButton, x: int, y: int)
    | MouseButtonUp(button: MouseButton, x: int, y: int)
    | MouseMotion(x: int, y: int)
    | User(tag: TypeTag, data: D)
    | OtherEvent
}
