/**
  Clients of the controller that replay whole runs: batches held back until
  the page is ready, windows closed one by one, and events passing or failing
  the gate. Each outcome follows from the operations' contracts alone.
*/
module Scenarios {
  import opened Wrappers
  import opened Host
  import opened Scripts
  import opened Events
  import opened Controller

  /**
    Two passes are queued while the page is still loading: the first drain
    does nothing, and the drain after readiness delivers all four batches, in
    production order, to the only window, leaving the queue empty.
  */
  method BatchesAcrossReadiness() returns (early: DrainOutcome, held: seq<string>, late: DrainOutcome,
                                           delivered: seq<ScriptCall>, left: seq<string>)
    ensures early == NotReady && held == ["tmpl1", "edit1", "tmpl2", "edit2"]
    ensures late == Delivered(WindowId(1))
    ensures delivered == [ScriptCall(WindowId(1), WebView(7), Script("tmpl1")),
                          ScriptCall(WindowId(1), WebView(7), Script("edit1")),
                          ScriptCall(WindowId(1), WebView(7), Script("tmpl2")),
                          ScriptCall(WindowId(1), WebView(7), Script("edit2"))]
    ensures left == []
  {
    var c, w := NewOnTokio<nat>(j => None, m => None, SerializedMutations("tmpl1", "edit1"));
    c.RegisterWindow(WindowId(1), WebView(7));
    w.Step(WorkReady, SerializedMutations("tmpl2", "edit2"));
    early := c.TryLoadReadyWebviews();
    held := c.pendingEdits.items;
    c.MarkReady();
    assert WindowId(1) in c.webviews;
    late := c.TryLoadReadyWebviews();
    delivered := c.evaluated;
    left := c.pendingEdits.items;
    DeliveriesAt(WindowId(1), WebView(7), held);
  }

  /**
    With two windows open, closing one leaves the control flow alone; closing
    the last one asks the event loop to exit.
  */
  method ClosingWindows() returns (first: ControlFlow, second: ControlFlow, remaining: set<WindowId>)
    ensures first == Wait && second == Exit && remaining == {}
  {
    var c := new DesktopController();
    c.RegisterWindow(WindowId(1), WebView(10));
    c.RegisterWindow(WindowId(2), WebView(20));
    first := c.CloseWindow(WindowId(1), Wait);
    assert WindowId(2) in c.webviews;
    second := c.CloseWindow(WindowId(2), first);
    remaining := c.webviews.Keys;
  }

  /**
    An envelope of an unknown kind never reaches the virtual DOM; a click on
    node 5 reaches it exactly once, aimed at node 5, with medium priority.
    Here every JSON value deserializes (its text naming the kind) and only
    clicks decode.
  */
  method EventsThroughTheGate() returns (afterUnknown: seq<Dispatch<nat>>, afterClick: seq<Dispatch<nat>>)
    ensures afterUnknown == []
    ensures afterClick == [Dispatch("click", 5, ElementId(5), true, Medium)]
  {
    var parse := (j: JsonValue) => Some(EventMessage(j.text, 5, JsonValue("{}")));
    var decode := (m: EventMessage) => if m.event == "click" then Some(m.mountedDomId) else None;
    var c, w := NewOnTokio<nat>(parse, decode, SerializedMutations("tmpl0", "edit0"));
    w.Step(EventArrived(JsonValue("unknown_kind")), SerializedMutations("tmpl1", "edit1"));
    afterUnknown := w.handled;
    w.Step(EventArrived(JsonValue("click")), SerializedMutations("tmpl2", "edit2"));
    afterClick := w.handled;
  }
}
