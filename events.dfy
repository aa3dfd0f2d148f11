/**
  The gate an inbound event envelope passes before it reaches the virtual DOM:
  it must deserialize into an `EventMessage` and `decode_event` must accept it.
  Both steps live outside this model, so they are given as functions.
*/
module Events {
  import opened Wrappers
  import opened Host

  /** An envelope after deserialization: the event's name, its target node and an opaque payload. */
  datatype EventMessage = EventMessage(event: string, mountedDomId: nat, contents: JsonValue)

  /** One call of the virtual DOM's `handle_event`. */
  datatype Dispatch<E> = Dispatch(name: string, event: E, element: ElementId, bubbles: bool, priority: EventPriority)

  /**
    The dispatch an inbound JSON value causes, if any. `parse` stands for the
    deserialization into an `EventMessage`, `decode` for `decode_event`.
  */
  function EventGate<E>(json: JsonValue, parse: JsonValue -> Option<EventMessage>,
                        decode: EventMessage -> Option<E>): (r: Option<Dispatch<E>>)
    ensures r.Some? <==> parse(json).Some? && decode(parse(json).value).Some?
    ensures r.Some? ==> r.value.name == parse(json).value.event
    ensures r.Some? ==> r.value.element == ElementId(parse(json).value.mountedDomId)
    ensures r.Some? ==> r.value.event == decode(parse(json).value).value
    ensures r.Some? ==> r.value.bubbles && r.value.priority == Medium
  {
    match parse(json)
    case None => None
    case Some(message) =>
      var name := message.event;
      var element := ElementId(message.mountedDomId);
      match decode(message)
      case None => None
      case Some(event) => Some(Dispatch(name, event, element, true, Medium))
  }
}
