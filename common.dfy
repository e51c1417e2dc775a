/** Values shared by every part of the ClipZen model. */
module Common {

  /** Swift's optional: `nil` or a wrapped value. */
  datatype Option<T> = None | Some(value: T) {
    /** Swift's `??` operator. */
    function GetOr(default: T): T {
      match this
      case Some(v) => v
      case None => default
    }
  }

  /** One byte of a `Data` value. */
  newtype Byte = x: int | 0 <= x < 256

  /** Foundation's `Data`. */
  type Bytes = seq<Byte>

  /** A `UUID`; only its identity matters to the model. */
  type Uuid = nat
}

/** The parts of an AppKit `NSEvent` that the key handlers look at. */
module Events {

  /** The members of `NSEvent.ModifierFlags` that a key event can carry. */
  datatype ModifierFlag = Command | Option | Control | Shift | CapsLock | Function | NumericPad | Help

  /** The four flags a shortcut is made of. */
  const ShortcutModifiers: set<ModifierFlag> := {Command, Option, Control, Shift}

  datatype EventType = KeyDown | FlagsChanged

  datatype KeyEvent = KeyEvent(eventType: EventType, keyCode: nat, modifierFlags: set<ModifierFlag>)
}
