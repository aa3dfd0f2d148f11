/**
  The desktop controller: the edit queue shared between the render worker and
  the main thread, the worker's two queue-filling steps, and the main thread's
  window registry with its close and drain operations.
*/
module Controller {
  import opened Wrappers
  import opened Host
  import opened Scripts
  import opened Events

  /** One render pass, serialized: template mutations first, then edits. */
  datatype SerializedMutations = SerializedMutations(templateMutations: string, edits: string)

  /**
    The mutex-guarded vector of serialized batches shared by worker and
    controller. `produced` is everything ever pushed and `taken` everything
    ever swapped out; what is still queued is what was produced and not taken.
  */
  class EditQueue {
    var items: seq<string>
    ghost var produced: seq<string>
    ghost var taken: seq<string>

    ghost predicate Valid()
      reads this
    {
      produced == taken + items
    }

    constructor ()
      ensures Valid()
      ensures items == [] && produced == [] && taken == []
    {
      items, produced, taken := [], [], [];
    }

    /** Appends one render pass while holding the lock once: templates, then edits. */
    method PushPass(m: SerializedMutations)
      requires Valid()
      modifies this
      ensures Valid()
      ensures items == old(items) + [m.templateMutations, m.edits]
      ensures produced == old(produced) + [m.templateMutations, m.edits]
      ensures taken == old(taken)
    {
      items := items + [m.templateMutations];
      items := items + [m.edits];
      produced := produced + [m.templateMutations, m.edits];
    }

    /** Swaps the queue with an empty one and returns what it held. */
    method TakeAll() returns (drained: seq<string>)
      requires Valid()
      modifies this
      ensures Valid()
      ensures drained == old(items) && items == []
      ensures taken == old(taken) + old(items) && produced == old(produced)
    {
      drained, items := items, [];
      taken := taken + drained;
    }
  }

  /** What woke the worker: the virtual DOM has work, or an inbound JSON value arrived. */
  datatype Wake = WorkReady | EventArrived(json: JsonValue)

  /**
    The render worker. It owns the virtual DOM, whose only visible effect here
    is the log of `handle_event` calls, and pushes every render pass onto the
    shared queue. `parse` and `decode` stand for deserialization and `decode_event`.
  */
  class Worker<E> {
    const queue: EditQueue
    const parse: JsonValue -> Option<EventMessage>
    const decode: EventMessage -> Option<E>
    var handled: seq<Dispatch<E>>

    /** Starts the worker: the initial build is queued before any event is handled. */
    constructor (queue: EditQueue, parse: JsonValue -> Option<EventMessage>,
                 decode: EventMessage -> Option<E>, initial: SerializedMutations)
      requires queue.Valid()
      modifies queue
      ensures this.queue == queue && this.parse == parse && this.decode == decode
      ensures handled == []
      ensures queue.Valid()
      ensures queue.items == old(queue.items) + [initial.templateMutations, initial.edits]
      ensures queue.produced == old(queue.produced) + [initial.templateMutations, initial.edits]
      ensures queue.taken == old(queue.taken)
    {
      this.queue := queue;
      this.parse := parse;
      this.decode := decode;
      handled := [];
      new;
      queue.PushPass(initial);
    }

    /**
      One turn of the render loop: an arrived event reaches the virtual DOM
      only through the gate; then the rendered pass is queued.
    */
    method Step(wake: Wake, rendered: SerializedMutations)
      requires queue.Valid()
      modifies this, queue
      ensures queue.Valid()
      ensures wake.WorkReady? ==> handled == old(handled)
      ensures wake.EventArrived? && EventGate(wake.json, parse, decode).None? ==> handled == old(handled)
      ensures wake.EventArrived? && EventGate(wake.json, parse, decode).Some? ==>
                handled == old(handled) + [EventGate(wake.json, parse, decode).value]
      ensures queue.items == old(queue.items) + [rendered.templateMutations, rendered.edits]
      ensures queue.produced == old(queue.produced) + [rendered.templateMutations, rendered.edits]
      ensures queue.taken == old(queue.taken)
    {
      if wake.EventArrived? {
        var dispatch := EventGate(wake.json, parse, decode);
        if dispatch.Some? {
          handled := handled + [dispatch.value];
        }
      }
      queue.PushPass(rendered);
    }
  }

  /** What a drain did: nothing (not ready), delivered to the named window, or hit an empty registry. */
  datatype DrainOutcome = NotReady | Delivered(window: WindowId) | NoWebview

  /**
    The main-thread controller. `evaluated` is the log of `evaluate_script`
    calls made on the registered webviews, oldest first. The invariant says the
    log delivers exactly the batches ever taken from the queue, in order.
  */
  class DesktopController {
    var webviews: map<WindowId, WebView>
    const pendingEdits: EditQueue
    var quitAppOnClose: bool
    var isReady: bool
    var evaluated: seq<ScriptCall>

    ghost predicate Valid()
      reads this, pendingEdits
    {
      pendingEdits.Valid() && EditsOf(evaluated) == Some(pendingEdits.taken)
    }

    /** A fresh controller: no windows, not ready, quitting once the last window closes. */
    constructor ()
      ensures Valid() && fresh(pendingEdits)
      ensures webviews == map[] && !isReady && quitAppOnClose && evaluated == []
      ensures pendingEdits.items == [] && pendingEdits.produced == []
    {
      pendingEdits := new EditQueue();
      webviews := map[];
      isReady := false;
      quitAppOnClose := true;
      evaluated := [];
    }

    /** The host records a newly created window; a duplicate identifier overwrites. */
    method RegisterWindow(id: WindowId, view: WebView)
      modifies this
      ensures old(Valid()) ==> Valid()
      ensures webviews == old(webviews)[id := view]
      ensures isReady == old(isReady) && quitAppOnClose == old(quitAppOnClose) && evaluated == old(evaluated)
    {
      webviews := webviews[id := view];
    }

    /** The page reports it has loaded; the flag is never cleared again. */
    method MarkReady()
      modifies this
      ensures old(Valid()) ==> Valid()
      ensures isReady
      ensures webviews == old(webviews) && quitAppOnClose == old(quitAppOnClose) && evaluated == old(evaluated)
    {
      isReady := true;
    }

    /**
      Forgets the closed window. The event loop is told to exit exactly when no
      window is left and the quit-on-close policy holds; otherwise `controlFlow`
      comes back as it was passed in.
    */
    method CloseWindow(windowId: WindowId, controlFlow: ControlFlow) returns (flow: ControlFlow)
      modifies this
      ensures old(Valid()) ==> Valid()
      ensures webviews == old(webviews) - {windowId}
      ensures forall w :: w in old(webviews) && w != windowId ==> w in webviews && webviews[w] == old(webviews)[w]
      ensures windowId !in webviews
      ensures webviews == map[] && quitAppOnClose ==> flow == Exit
      ensures webviews != map[] || !quitAppOnClose ==> flow == controlFlow
      ensures isReady == old(isReady) && quitAppOnClose == old(quitAppOnClose) && evaluated == old(evaluated)
    {
      webviews := webviews - {windowId};
      flow := controlFlow;
      if webviews == map[] && quitAppOnClose {
        flow := Exit;
      }
    }

    /**
      When the page is ready, takes every queued batch and has one registered
      webview run one delivery script per batch, in queue order. When it is not
      ready, nothing happens. With no window left the queue is still emptied,
      and the source then panics before delivering anything.
    */
    method TryLoadReadyWebviews() returns (outcome: DrainOutcome)
      requires Valid()
      modifies this, pendingEdits
      ensures webviews == old(webviews) && isReady == old(isReady) && quitAppOnClose == old(quitAppOnClose)
      ensures outcome == NotReady <==> !isReady
      ensures outcome == NoWebview <==> isReady && webviews == map[]
      ensures !isReady ==> evaluated == old(evaluated) && Valid()
      ensures !isReady ==> (pendingEdits.items == old(pendingEdits.items)
                            && pendingEdits.produced == old(pendingEdits.produced)
                            && pendingEdits.taken == old(pendingEdits.taken))
      ensures isReady ==> (pendingEdits.Valid() && pendingEdits.items == []
                           && pendingEdits.produced == old(pendingEdits.produced)
                           && pendingEdits.taken == old(pendingEdits.taken) + old(pendingEdits.items))
      ensures outcome == NoWebview ==> evaluated == old(evaluated)
      ensures outcome.Delivered? ==> outcome.window in webviews && Valid()
      ensures outcome.Delivered? ==>
                evaluated == old(evaluated)
                             + Deliveries(outcome.window, webviews[outcome.window], old(pendingEdits.items))
    {
      if !isReady {
        return NotReady;
      }
      var newQueue := pendingEdits.TakeAll();
      label swapped:
      if webviews == map[] {
        return NoWebview;
      }
      var id :| id in webviews;
      var view := webviews[id];
      var i := 0;
      while i < |newQueue|
        invariant 0 <= i <= |newQueue|
        invariant evaluated == old(evaluated) + Deliveries(id, view, newQueue[..i])
        invariant webviews == old(webviews) && isReady && quitAppOnClose == old(quitAppOnClose)
        invariant unchanged@swapped(pendingEdits)
      {
        DeliveriesAppend(id, view, newQueue[..i], [newQueue[i]]);
        assert newQueue[..i + 1] == newQueue[..i] + [newQueue[i]];
        evaluated := evaluated + [ScriptCall(id, view, Script(newQueue[i]))];
        i := i + 1;
      }
      assert newQueue[..i] == newQueue;
      EditsOfDeliveries(id, view, newQueue);
      EditsOfAppend(old(evaluated), Deliveries(id, view, newQueue), old(pendingEdits.taken), newQueue);
      outcome := Delivered(id);
    }
  }

  /**
    Every batch the worker produced has either been delivered, in production
    order, or is still waiting in the queue behind the delivered ones.
  */
  lemma EndToEnd(c: DesktopController)
    requires c.Valid()
    ensures EditsOf(c.evaluated).Some?
    ensures EditsOf(c.evaluated).value + c.pendingEdits.items == c.pendingEdits.produced
  {
  }

  /**
    Creates the shared queue, starts the one worker on it (which queues the
    initial build) and returns the controller holding that same queue.
  */
  method NewOnTokio<E>(parse: JsonValue -> Option<EventMessage>, decode: EventMessage -> Option<E>,
                       initial: SerializedMutations) returns (c: DesktopController, w: Worker<E>)
    ensures fresh(c) && fresh(w) && fresh(c.pendingEdits)
    ensures w.queue == c.pendingEdits && w.parse == parse && w.decode == decode && w.handled == []
    ensures c.Valid()
    ensures c.webviews == map[] && !c.isReady && c.quitAppOnClose && c.evaluated == []
    ensures c.pendingEdits.items == [initial.templateMutations, initial.edits]
    ensures c.pendingEdits.produced == [initial.templateMutations, initial.edits]
  {
    c := new DesktopController();
    w := new Worker<E>(c.pendingEdits, parse, decode, initial);
  }
}
