/** The input translator: it maps GLFW's integer key, mouse-button and action
    codes to the engine's enums, builds one typed input event per platform
    callback and raises it through the dispatcher. `Init` and `Deinit` move
    it between its unbound and bound states. */
module InputEngine {
  import opened Wrappers
  import opened InputEvents
  import opened EventDispatch

  // GLFW 3 action codes.
  const GLFW_RELEASE: int := 0
  const GLFW_PRESS: int := 1
  const GLFW_REPEAT: int := 2

  // GLFW 3 mouse-button codes.
  const GLFW_MOUSE_BUTTON_LEFT: int := 0
  const GLFW_MOUSE_BUTTON_RIGHT: int := 1
  const GLFW_MOUSE_BUTTON_MIDDLE: int := 2

  // GLFW 3 key codes (printable keys are their ASCII codes).
  const GLFW_KEY_SPACE: int := 32
  const GLFW_KEY_A: int := 65
  const GLFW_KEY_B: int := 66
  const GLFW_KEY_C: int := 67
  const GLFW_KEY_D: int := 68
  const GLFW_KEY_E: int := 69
  const GLFW_KEY_F: int := 70
  const GLFW_KEY_G: int := 71
  const GLFW_KEY_H: int := 72
  const GLFW_KEY_I: int := 73
  const GLFW_KEY_J: int := 74
  const GLFW_KEY_K: int := 75
  const GLFW_KEY_L: int := 76
  const GLFW_KEY_M: int := 77
  const GLFW_KEY_N: int := 78
  const GLFW_KEY_O: int := 79
  const GLFW_KEY_P: int := 80
  const GLFW_KEY_Q: int := 81
  const GLFW_KEY_R: int := 82
  const GLFW_KEY_S: int := 83
  const GLFW_KEY_T: int := 84
  const GLFW_KEY_U: int := 85
  const GLFW_KEY_V: int := 86
  const GLFW_KEY_W: int := 87
  const GLFW_KEY_X: int := 88
  const GLFW_KEY_Y: int := 89
  const GLFW_KEY_Z: int := 90

  /** The platform codes the translation table names: the letters, the space
      bar and the three mouse buttons. */
  predicate IsTranslatedCode(code: int) {
    (GLFW_KEY_A <= code <= GLFW_KEY_Z) ||
    code == GLFW_KEY_SPACE ||
    (GLFW_MOUSE_BUTTON_LEFT <= code <= GLFW_MOUSE_BUTTON_MIDDLE)
  }

  /** GLFW key or mouse-button code to engine key; every code not in the
      table becomes `Key.Unknown`, never an error, and `Key.Mouse` is never
      produced. */
  function TranslateGLFWKey(key: int): (k: Key)
    ensures k != Key.Mouse
    ensures k == Key.Unknown <==> !IsTranslatedCode(key)
  {
    if key == GLFW_KEY_A then KeyA
    else if key == GLFW_KEY_B then KeyB
    else if key == GLFW_KEY_C then KeyC
    else if key == GLFW_KEY_D then KeyD
    else if key == GLFW_KEY_E then KeyE
    else if key == GLFW_KEY_F then KeyF
    else if key == GLFW_KEY_G then KeyG
    else if key == GLFW_KEY_H then KeyH
    else if key == GLFW_KEY_I then KeyI
    else if key == GLFW_KEY_J then KeyJ
    else if key == GLFW_KEY_K then KeyK
    else if key == GLFW_KEY_L then KeyL
    else if key == GLFW_KEY_M then KeyM
    else if key == GLFW_KEY_N then KeyN
    else if key == GLFW_KEY_O then KeyO
    else if key == GLFW_KEY_P then KeyP
    else if key == GLFW_KEY_Q then KeyQ
    else if key == GLFW_KEY_R then KeyR
    else if key == GLFW_KEY_S then KeyS
    else if key == GLFW_KEY_T then KeyT
    else if key == GLFW_KEY_U then KeyU
    else if key == GLFW_KEY_V then KeyV
    else if key == GLFW_KEY_W then KeyW
    else if key == GLFW_KEY_X then KeyX
    else if key == GLFW_KEY_Y then KeyY
    else if key == GLFW_KEY_Z then KeyZ
    else if key == GLFW_KEY_SPACE then KeySpace
    else if key == GLFW_MOUSE_BUTTON_LEFT then MouseLeft
    else if key == GLFW_MOUSE_BUTTON_RIGHT then MouseRight
    else if key == GLFW_MOUSE_BUTTON_MIDDLE then MouseMiddle
    else Key.Unknown
  }

  /** GLFW action code to engine action: press and release are named, every
      other code (GLFW_REPEAT among them) is `Unknown`; `Moved` never comes
      out of it. */
  function TranslateGLFWKeyAction(action: int): (a: KeyAction)
    ensures a == Pressed <==> action == GLFW_PRESS
    ensures a == Released <==> action == GLFW_RELEASE
    ensures a != Moved
  {
    if action == GLFW_PRESS then Pressed
    else if action == GLFW_RELEASE then Released
    else KeyAction.Unknown
  }

  /** The platform code that stands for key `k`, if any. */
  function GLFWCodeOf(k: Key): Option<int> {
    match k
    case KeyA => Some(GLFW_KEY_A)
    case KeyB => Some(GLFW_KEY_B)
    case KeyC => Some(GLFW_KEY_C)
    case KeyD => Some(GLFW_KEY_D)
    case KeyE => Some(GLFW_KEY_E)
    case KeyF => Some(GLFW_KEY_F)
    case KeyG => Some(GLFW_KEY_G)
    case KeyH => Some(GLFW_KEY_H)
    case KeyI => Some(GLFW_KEY_I)
    case KeyJ => Some(GLFW_KEY_J)
    case KeyK => Some(GLFW_KEY_K)
    case KeyL => Some(GLFW_KEY_L)
    case KeyM => Some(GLFW_KEY_M)
    case KeyN => Some(GLFW_KEY_N)
    case KeyO => Some(GLFW_KEY_O)
    case KeyP => Some(GLFW_KEY_P)
    case KeyQ => Some(GLFW_KEY_Q)
    case KeyR => Some(GLFW_KEY_R)
    case KeyS => Some(GLFW_KEY_S)
    case KeyT => Some(GLFW_KEY_T)
    case KeyU => Some(GLFW_KEY_U)
    case KeyV => Some(GLFW_KEY_V)
    case KeyW => Some(GLFW_KEY_W)
    case KeyX => Some(GLFW_KEY_X)
    case KeyY => Some(GLFW_KEY_Y)
    case KeyZ => Some(GLFW_KEY_Z)
    case KeySpace => Some(GLFW_KEY_SPACE)
    case MouseLeft => Some(GLFW_MOUSE_BUTTON_LEFT)
    case MouseRight => Some(GLFW_MOUSE_BUTTON_RIGHT)
    case MouseMiddle => Some(GLFW_MOUSE_BUTTON_MIDDLE)
    case _ => None
  }

  /** The platform action code that stands for action `a`, if any. */
  function GLFWActionOf(a: KeyAction): Option<int> {
    match a
    case Pressed => Some(GLFW_PRESS)
    case Released => Some(GLFW_RELEASE)
    case _ => None
  }

  /** Every key except `Unknown` and `Mouse` has a platform code, and
      translating that code gives the key back. */
  lemma {:induction false} TranslateInvertsCodeOf(k: Key)
    ensures GLFWCodeOf(k).None? <==> k == Key.Unknown || k == Key.Mouse
    ensures GLFWCodeOf(k).Some? ==> TranslateGLFWKey(GLFWCodeOf(k).value) == k
  {
    match k
    case Unknown =>
    case MouseLeft =>
    case MouseRight =>
    case MouseMiddle =>
    case Mouse =>
    case KeyA =>
    case KeyB =>
    case KeyC =>
    case KeyD =>
    case KeyE =>
    case KeyF =>
    case KeyG =>
    case KeyH =>
    case KeyI =>
    case KeyJ =>
    case KeyK =>
    case KeyL =>
    case KeyM =>
    case KeyN =>
    case KeyO =>
    case KeyP =>
    case KeyQ =>
    case KeyR =>
    case KeyS =>
    case KeyT =>
    case KeyU =>
    case KeyV =>
    case KeyW =>
    case KeyX =>
    case KeyY =>
    case KeyZ =>
    case KeySpace =>
  }

  /** Every code in the table translates to a key whose platform code is that
      code again. */
  lemma CodeOfInvertsTranslate(code: int)
    requires IsTranslatedCode(code)
    ensures GLFWCodeOf(TranslateGLFWKey(code)) == Some(code)
  {
    if code < GLFW_KEY_A {
    } else if code <= GLFW_KEY_M {
    } else {
    }
  }

  /** Distinct codes of the table translate to distinct keys. */
  lemma TranslateInjective(c1: int, c2: int)
    requires IsTranslatedCode(c1) && IsTranslatedCode(c2) && c1 != c2
    ensures TranslateGLFWKey(c1) != TranslateGLFWKey(c2)
  {
    CodeOfInvertsTranslate(c1);
    CodeOfInvertsTranslate(c2);
  }

  /** The platform (key, action) pairs whose event lands in the slot of
      `(device, k, a)`, for a named key and action, are exactly the pair of
      their platform codes. */
  lemma TranslationReachesSlot(key: int, action: int, k: Key, a: KeyAction)
    requires k != Key.Unknown && a != KeyAction.Unknown
    ensures (TranslateGLFWKey(key) == k && TranslateGLFWKeyAction(action) == a) <==>
            (GLFWCodeOf(k) == Some(key) && GLFWActionOf(a) == Some(action))
  {
    TranslateInvertsCodeOf(k);
    if IsTranslatedCode(key) {
      CodeOfInvertsTranslate(key);
    }
  }

  /** The three raw callback slots of a window; a slot is `true` while it
      holds the input engine's callback and `false` once it is reset to NULL. */
  class CallbackSlots {
    var keyboardKey: bool
    var mouseKey: bool
    var cursorPosition: bool

    constructor ()
      ensures !keyboardKey && !mouseKey && !cursorPosition
    {
      keyboardKey, mouseKey, cursorPosition := false, false, false;
    }
  }

  /** The process-wide pointer to the input engine that the platform
      callbacks are routed to. */
  class ActiveInstance {
    var engine: InputEngine?

    constructor ()
      ensures engine == null
    {
      engine := null;
    }

    /** The free keyboard callback the window calls: it forwards to the
        active engine, whose absence is a contract violation. */
    method KeyCallback(key: int, scancode: int, action: int, mods: int)
      returns (raised: Event, invoked: Option<Invocation>)
      requires engine != null && engine.impl.Some? && engine.impl.value.dispatcher.Valid()
      ensures raised.input == InputEvent(
        InputEventType(Device.Keyboard, TranslateGLFWKey(key), TranslateGLFWKeyAction(action)), NoContext)
      ensures invoked == RaisedBy(engine.impl.value.dispatcher, raised)
    {
      raised, invoked := engine.KeyCallback(key, scancode, action, mods);
    }

    /** The free mouse-button callback, forwarding to the active engine. */
    method MouseKeyCallback(key: int, action: int, mods: int)
      returns (raised: Event, invoked: Option<Invocation>)
      requires engine != null && engine.impl.Some? && engine.impl.value.dispatcher.Valid()
      ensures raised.input == InputEvent(
        InputEventType(Device.Mouse, TranslateGLFWKey(key), TranslateGLFWKeyAction(action)), NoContext)
      ensures invoked == RaisedBy(engine.impl.value.dispatcher, raised)
    {
      raised, invoked := engine.MouseKeyCallback(key, action, mods);
    }

    /** The free cursor-position callback, forwarding to the active engine. */
    method CursorPositionCallback(xpos: real, ypos: real)
      returns (raised: Event, invoked: Option<Invocation>)
      requires engine != null && engine.impl.Some? && engine.impl.value.dispatcher.Valid()
      ensures raised.input == InputEvent(InputEventType(Device.Mouse, Key.Mouse, Moved), CursorContext(xpos, ypos))
      ensures invoked == RaisedBy(engine.impl.value.dispatcher, raised)
    {
      raised, invoked := engine.CursorPositionCallback(xpos, ypos);
    }
  }

  /** What raising `event` through `dispatcher` invokes: the handler stored
      for its type, once, with the event, or nothing. */
  function RaisedBy(dispatcher: Dispatcher, event: Event): Option<Invocation>
    requires dispatcher.Valid()
    reads dispatcher, dispatcher.table
  {
    var h := dispatcher.Handler(TypeOf(event).input);
    if h.Some? then Some(Invocation(h.value, event)) else None
  }

  /** What a bound input engine holds: the window it listens to and the
      dispatcher it raises events through. */
  datatype Binding = Binding(window: CallbackSlots, dispatcher: Dispatcher)

  class InputEngine {
    /** `None` while unbound, as the C++ `impl_` is null. */
    var impl: Option<Binding>
    const active: ActiveInstance

    constructor (active: ActiveInstance)
      ensures impl == None && this.active == active
    {
      impl := None;
      this.active := active;
    }

    /** Binds to `window` and `dispatcher`: installs the three callbacks and
        makes this engine the active instance. Binding twice is a contract
        violation. */
    method Init(window: CallbackSlots, dispatcher: Dispatcher)
      requires impl == None
      modifies this, window, active
      ensures impl == Some(Binding(window, dispatcher))
      ensures window.keyboardKey && window.mouseKey && window.cursorPosition
      ensures active.engine == this
    {
      impl := Some(Binding(window, dispatcher));
      window.keyboardKey := true;
      window.mouseKey := true;
      window.cursorPosition := true;
      active.engine := this;
    }

    /** Unbinds: clears the active instance, resets the three window callback
        slots and drops the binding. Unbinding an unbound engine is a
        contract violation. */
    method Deinit()
      requires impl.Some?
      modifies this, impl.value.window, active
      ensures impl == None
      ensures !old(impl).value.window.keyboardKey
      ensures !old(impl).value.window.mouseKey
      ensures !old(impl).value.window.cursorPosition
      ensures active.engine == null
    {
      active.engine := null;
      var window := impl.value.window;
      window.keyboardKey := false;
      window.mouseKey := false;
      window.cursorPosition := false;
      impl := None;
    }

    /** A keyboard key callback raises exactly one event: device `Keyboard`,
        the translated key and action, an empty payload; scancode and
        modifier bits play no part. */
    method KeyCallback(key: int, scancode: int, action: int, mods: int)
      returns (raised: Event, invoked: Option<Invocation>)
      requires impl.Some? && impl.value.dispatcher.Valid()
      ensures raised.input.eventType ==
        InputEventType(Device.Keyboard, TranslateGLFWKey(key), TranslateGLFWKeyAction(action))
      ensures raised.input.context == NoContext
      ensures invoked == RaisedBy(impl.value.dispatcher, raised)
    {
      var inputEvent := InputEvent(
        InputEventType(Device.Keyboard, TranslateGLFWKey(key), TranslateGLFWKeyAction(action)),
        NoContext);
      raised := Input(inputEvent);
      invoked := impl.value.dispatcher.RaiseEvent(raised);
    }

    /** A mouse button callback raises exactly one event: device `Mouse`, the
        translated button and action, an empty payload. */
    method MouseKeyCallback(key: int, action: int, mods: int)
      returns (raised: Event, invoked: Option<Invocation>)
      requires impl.Some? && impl.value.dispatcher.Valid()
      ensures raised.input.eventType ==
        InputEventType(Device.Mouse, TranslateGLFWKey(key), TranslateGLFWKeyAction(action))
      ensures raised.input.context == NoContext
      ensures invoked == RaisedBy(impl.value.dispatcher, raised)
    {
      var inputEvent := InputEvent(
        InputEventType(Device.Mouse, TranslateGLFWKey(key), TranslateGLFWKeyAction(action)),
        NoContext);
      raised := Input(inputEvent);
      invoked := impl.value.dispatcher.RaiseEvent(raised);
    }

    /** A cursor position callback raises exactly one `(Mouse, Mouse, Moved)`
        event carrying the absolute cursor position. */
    method CursorPositionCallback(xpos: real, ypos: real)
      returns (raised: Event, invoked: Option<Invocation>)
      requires impl.Some? && impl.value.dispatcher.Valid()
      ensures raised.input.eventType == InputEventType(Device.Mouse, Key.Mouse, Moved)
      ensures raised.input.context == CursorContext(xpos, ypos)
      ensures invoked == RaisedBy(impl.value.dispatcher, raised)
    {
      var inputEvent := InputEvent(InputEventType(Device.Mouse, Key.Mouse, Moved), NoContext);
      inputEvent := inputEvent.(context := CursorContext(xpos, ypos));
      raised := Input(inputEvent);
      invoked := impl.value.dispatcher.RaiseEvent(raised);
    }
  }

  /** A client in the style of the game's key map: a handler registered for
      (Keyboard, KeySpace, Pressed) runs when GLFW reports the space bar
      pressed, and does not run for the auto-repeat of the same key, which
      translates to the `Unknown` action. */
  method SpacePressReachesHandler(h: HandlerId, scancode: int, mods: int)
    returns (pressed: Option<Invocation>, repeated: Option<Invocation>)
    ensures pressed.Some? && pressed.value.handler == h
    ensures pressed.value.event.input.eventType == InputEventType(Device.Keyboard, KeySpace, Pressed)
    ensures repeated == None
  {
    var dispatcher := new Dispatcher();
    dispatcher.RegisterEventHandler(InputType(InputEventType(Device.Keyboard, KeySpace, Pressed)), Some(h));
    var window := new CallbackSlots();
    var active := new ActiveInstance();
    var input := new InputEngine(active);
    assert dispatcher.Handler(InputEventType(Device.Keyboard, KeySpace, Pressed)) == Some(h);
    assert dispatcher.Handler(InputEventType(Device.Keyboard, KeySpace, KeyAction.Unknown)) == None;
    input.Init(window, dispatcher);
    assert TranslateGLFWKey(GLFW_KEY_SPACE) == KeySpace;
    assert TranslateGLFWKeyAction(GLFW_PRESS) == Pressed && TranslateGLFWKeyAction(GLFW_REPEAT) == KeyAction.Unknown;
    var raised;
    raised, pressed := active.KeyCallback(GLFW_KEY_SPACE, scancode, GLFW_PRESS, mods);
    raised, repeated := active.KeyCallback(GLFW_KEY_SPACE, scancode, GLFW_REPEAT, mods);
  }

  /** A handler registered for cursor motion receives every cursor position
      callback with its coordinates, and no key or mouse-button callback
      reaches it. */
  method CursorHandlerOnlySeesMotion(h: HandlerId, xpos: real, ypos: real, key: int, action: int, mods: int)
    returns (moved: Option<Invocation>, clicked: Option<Invocation>, typed: Option<Invocation>)
    ensures moved == Some(Invocation(h, Input(InputEvent(InputEventType(Device.Mouse, Key.Mouse, Moved),
                                                         CursorContext(xpos, ypos)))))
    ensures clicked == None && typed == None
  {
    var dispatcher := new Dispatcher();
    dispatcher.RegisterEventHandler(InputType(InputEventType(Device.Mouse, Key.Mouse, Moved)), Some(h));
    var window := new CallbackSlots();
    var active := new ActiveInstance();
    var input := new InputEngine(active);
    var motion := InputEventType(Device.Mouse, Key.Mouse, Moved);
    assert dispatcher.Handler(motion) == Some(h);
    input.Init(window, dispatcher);
    var raised;
    raised, moved := active.CursorPositionCallback(xpos, ypos);
    raised, clicked := active.MouseKeyCallback(key, action, mods);
    raised, typed := active.KeyCallback(key, 0, action, mods);
  }
}
