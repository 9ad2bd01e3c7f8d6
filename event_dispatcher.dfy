/** The event dispatcher: a direct-addressed table with one optional handler
    per (device, key, action) triple. Registering overwrites one slot; raising
    looks one slot up and invokes its handler when there is one.

    Handlers are opaque ids; an empty handler is `None`. Invoking a handler is
    modelled by returning the invocation (the handler and the event it is
    called with) to the caller. */
module EventDispatch {
  import opened Wrappers
  import opened InputEvents

  type HandlerId = nat

  /** One call of a stored handler with the raised event. */
  datatype Invocation = Invocation(handler: HandlerId, event: Event)

  class Dispatcher {
    /** Indexed by device, key and action ordinal, as the nested std::array. */
    const table: array3<Option<HandlerId>>

    ghost predicate Valid()
      reads this
    {
      table.Length0 == INPUT_DEVICE_COUNT &&
      table.Length1 == KEY_COUNT &&
      table.Length2 == KEY_ACTION_COUNT
    }

    /** The handler stored for event type `t`. */
    function Handler(t: InputEventType): Option<HandlerId>
      requires Valid()
      reads this, table
    {
      table[DeviceOrdinal(t.device), KeyOrdinal(t.key), ActionOrdinal(t.action)]
    }

    /** A new dispatcher holds no handler at all. */
    constructor ()
      ensures Valid() && fresh(table)
      ensures forall t: InputEventType :: Handler(t) == None
    {
      table := new Option<HandlerId>[INPUT_DEVICE_COUNT, KEY_COUNT, KEY_ACTION_COUNT]((d, k, a) => None);
    }

    /** Stores `handler` in the slot of `eventType`, replacing what was there;
        `None` empties the slot. Every other slot keeps its handler. */
    method RegisterEventHandler(eventType: EventType, handler: Option<HandlerId>)
      requires Valid()
      modifies table
      ensures Valid()
      ensures Handler(eventType.input) == handler
      ensures forall t: InputEventType :: t != eventType.input ==> Handler(t) == old(Handler(t))
    {
      match eventType
      case InputType(t) =>
        table[DeviceOrdinal(t.device), KeyOrdinal(t.key), ActionOrdinal(t.action)] := handler;
        forall u: InputEventType | u != t
          ensures Handler(u) == old(Handler(u))
        {
          SlotIndexInjective(u, t);
        }
    }

    /** Looks up the slot of the type the event is dispatched under and
        invokes its handler, if there is one, exactly once with the event;
        the table is not changed. */
    method RaiseEvent(event: Event) returns (invoked: Option<Invocation>)
      requires Valid()
      ensures invoked.Some? <==> Handler(TypeOf(event).input).Some?
      ensures invoked.Some? ==>
        invoked.value == Invocation(Handler(TypeOf(event).input).value, event)
    {
      match event
      case Input(ie) =>
        var handler := table[DeviceOrdinal(ie.eventType.device), KeyOrdinal(ie.eventType.key),
                             ActionOrdinal(ie.eventType.action)];
        if handler.Some? {
          invoked := Some(Invocation(handler.value, event));
        } else {
          invoked := None;
        }
    }
  }

  /** Nothing registered yet: raising any event invokes nothing. */
  method RaiseOnFreshDispatcher(event: Event) returns (invoked: Option<Invocation>)
    ensures invoked == None
  {
    var dispatcher := new Dispatcher();
    invoked := dispatcher.RaiseEvent(event);
  }

  /** Register `h` for the type of `event`, then raise `event`: `h` runs once,
      with that event. */
  method RegisterThenRaise(h: HandlerId, event: Event) returns (invoked: Option<Invocation>)
    ensures invoked == Some(Invocation(h, event))
  {
    var dispatcher := new Dispatcher();
    dispatcher.RegisterEventHandler(TypeOf(event), Some(h));
    invoked := dispatcher.RaiseEvent(event);
  }

  /** Register `first`, then `second` for the same type: raising that type
      invokes only `second`. */
  method LastRegistrationWins(first: HandlerId, second: HandlerId, event: Event)
    returns (invoked: Option<Invocation>)
    ensures invoked == Some(Invocation(second, event))
  {
    var dispatcher := new Dispatcher();
    dispatcher.RegisterEventHandler(TypeOf(event), Some(first));
    dispatcher.RegisterEventHandler(TypeOf(event), Some(second));
    invoked := dispatcher.RaiseEvent(event);
  }

  /** Registering the empty handler unregisters: a later raise is a no-op. */
  method EmptyHandlerUnregisters(h: HandlerId, event: Event) returns (invoked: Option<Invocation>)
    ensures invoked == None
  {
    var dispatcher := new Dispatcher();
    dispatcher.RegisterEventHandler(TypeOf(event), Some(h));
    dispatcher.RegisterEventHandler(TypeOf(event), None);
    invoked := dispatcher.RaiseEvent(event);
  }

  /** A handler registered for one type is not reached by an event of
      another type. */
  method OtherSlotsUnaffected(h: HandlerId, t: EventType, event: Event)
    returns (invoked: Option<Invocation>)
    requires TypeOf(event) != t
    ensures invoked == None
  {
    var dispatcher := new Dispatcher();
    dispatcher.RegisterEventHandler(t, Some(h));
    invoked := dispatcher.RaiseEvent(event);
  }
}
