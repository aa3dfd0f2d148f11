/**
  Value types of the collaborators the controller talks to: the windowing layer
  (window identifiers, webview handles, the event loop's control flow) and the
  virtual DOM (element identifiers, event priorities, untyped JSON values).
  Only their identity matters to the controller, so each is a plain value.
*/
module Host {

  /** Identifies a native window; `WindowId` of the windowing layer. */
  datatype WindowId = WindowId(raw: nat)

  /** A handle to the embedded webview hosted by one window. */
  datatype WebView = WebView(handle: nat)

  /** What the host event loop does next; the controller only ever writes `Exit`. */
  datatype ControlFlow = Poll | Wait | WaitUntil(instant: nat) | Exit

  /** A node of the mounted DOM, as the virtual DOM numbers it. */
  datatype ElementId = ElementId(index: nat)

  /** Scheduling priority attached to an event handed to the virtual DOM. */
  datatype EventPriority = Immediate | High | Medium | Low

  /** An untyped JSON value as it arrives from the page; its structure stays opaque. */
  datatype JsonValue = JsonValue(text: string)
}
