/** The engine-neutral input vocabulary: devices, keys and key actions, the
    (device, key, action) triple that addresses a dispatch slot, and the event
    variant that carries an input event through the dispatcher.

    Each enum keeps the ordinal its C++ counterpart has, because the dispatcher
    indexes its table by those ordinals. */
module InputEvents {

  // The `*_COUNT` sentinels that size the dispatch table.
  const INPUT_DEVICE_COUNT: nat := 3
  const KEY_COUNT: nat := 32
  const KEY_ACTION_COUNT: nat := 4

  datatype Device = Unknown | Keyboard | Mouse

  datatype Key =
    | Unknown
    | MouseLeft | MouseRight | MouseMiddle | Mouse
    | KeyA | KeyB | KeyC | KeyD | KeyE | KeyF | KeyG | KeyH | KeyI | KeyJ
    | KeyK | KeyL | KeyM | KeyN | KeyO | KeyP | KeyQ | KeyR | KeyS | KeyT
    | KeyU | KeyV | KeyW | KeyX | KeyY | KeyZ
    | KeySpace

  datatype KeyAction = Unknown | Pressed | Released | Moved

  /** The dispatch key of an input event. */
  datatype InputEventType = InputEventType(device: Device, key: Key, action: KeyAction)

  /** The payload of an input event. Keyboard and mouse-button events carry an
      empty payload; cursor motion carries the absolute cursor position the
      platform reported. */
  datatype EventContext = NoContext | CursorContext(x: real, y: real)

  datatype InputEvent = InputEvent(eventType: InputEventType, context: EventContext)

  /** The event variants the dispatcher knows; input is the only category. */
  datatype Event = Input(input: InputEvent)

  /** The event-type variants, parallel to `Event`. */
  datatype EventType = InputType(input: InputEventType)

  /** The event type an event is dispatched under. */
  function TypeOf(e: Event): EventType {
    match e
    case Input(ie) => InputType(ie.eventType)
  }

  function DeviceOrdinal(d: Device): (n: nat)
    ensures n < INPUT_DEVICE_COUNT
  {
    match d
    case Unknown => 0
    case Keyboard => 1
    case Mouse => 2
  }

  function KeyOrdinal(k: Key): (n: nat)
    ensures n < KEY_COUNT
  {
    match k
    case Unknown => 0
    case MouseLeft => 1
    case MouseRight => 2
    case MouseMiddle => 3
    case Mouse => 4
    case KeyA => 5
    case KeyB => 6
    case KeyC => 7
    case KeyD => 8
    case KeyE => 9
    case KeyF => 10
    case KeyG => 11
    case KeyH => 12
    case KeyI => 13
    case KeyJ => 14
    case KeyK => 15
    case KeyL => 16
    case KeyM => 17
    case KeyN => 18
    case KeyO => 19
    case KeyP => 20
    case KeyQ => 21
    case KeyR => 22
    case KeyS => 23
    case KeyT => 24
    case KeyU => 25
    case KeyV => 26
    case KeyW => 27
    case KeyX => 28
    case KeyY => 29
    case KeyZ => 30
    case KeySpace => 31
  }

  function ActionOrdinal(a: KeyAction): (n: nat)
    ensures n < KEY_ACTION_COUNT
  {
    match a
    case Unknown => 0
    case Pressed => 1
    case Released => 2
    case Moved => 3
  }

  /** The key whose ordinal is `n`, for reading ordinals back as keys. */
  function KeyOfOrdinal(n: nat): Key
    requires n < KEY_COUNT
  {
    if n == 0 then Key.Unknown
    else if n == 1 then MouseLeft
    else if n == 2 then MouseRight
    else if n == 3 then MouseMiddle
    else if n == 4 then Key.Mouse
    else if n == 5 then KeyA
    else if n == 6 then KeyB
    else if n == 7 then KeyC
    else if n == 8 then KeyD
    else if n == 9 then KeyE
    else if n == 10 then KeyF
    else if n == 11 then KeyG
    else if n == 12 then KeyH
    else if n == 13 then KeyI
    else if n == 14 then KeyJ
    else if n == 15 then KeyK
    else if n == 16 then KeyL
    else if n == 17 then KeyM
    else if n == 18 then KeyN
    else if n == 19 then KeyO
    else if n == 20 then KeyP
    else if n == 21 then KeyQ
    else if n == 22 then KeyR
    else if n == 23 then KeyS
    else if n == 24 then KeyT
    else if n == 25 then KeyU
    else if n == 26 then KeyV
    else if n == 27 then KeyW
    else if n == 28 then KeyX
    else if n == 29 then KeyY
    else if n == 30 then KeyZ
    else KeySpace
  }

  /** Distinct keys have distinct ordinals: `KeyOfOrdinal` undoes `KeyOrdinal`. */
  lemma {:induction false} KeyOrdinalInjective(k: Key)
    ensures KeyOfOrdinal(KeyOrdinal(k)) == k
  {
    match k
    case Unknown =>
    case MouseLeft =>
    case MouseRight =>
    case MouseMiddle =>
    case Mouse =>
    case KeyA =>
    case KeyB =>
    case KeyC =>
    case KeyD =>
    case KeyE =>
    case KeyF =>
    case KeyG =>
    case KeyH =>
    case KeyI =>
    case KeyJ =>
    case KeyK =>
    case KeyL =>
    case KeyM =>
    case KeyN =>
    case KeyO =>
    case KeyP =>
    case KeyQ =>
    case KeyR =>
    case KeyS =>
    case KeyT =>
    case KeyU =>
    case KeyV =>
    case KeyW =>
    case KeyX =>
    case KeyY =>
    case KeyZ =>
    case KeySpace =>
  }

  /** The ordinal triple of an event type, the index into the dispatch table.
      It always lies within the table's dimensions, and distinct event types
      address distinct slots. */
  lemma SlotIndexInjective(t: InputEventType, u: InputEventType)
    ensures DeviceOrdinal(t.device) < INPUT_DEVICE_COUNT
    ensures KeyOrdinal(t.key) < KEY_COUNT
    ensures ActionOrdinal(t.action) < KEY_ACTION_COUNT
    ensures t != u ==>
      (DeviceOrdinal(t.device), KeyOrdinal(t.key), ActionOrdinal(t.action)) !=
      (DeviceOrdinal(u.device), KeyOrdinal(u.key), ActionOrdinal(u.action))
  {
    if t.key != u.key {
      KeyOrdinalInjective(t.key);
      KeyOrdinalInjective(u.key);
    }
  }
}
