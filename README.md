# Desktop controller of a Dioxus desktop application

This project models the controller that connects a Dioxus virtual DOM, running
on a background render worker, to the webviews of the native windows, which can
only be driven from the main thread (`packages/desktop/src/controller.rs`).

The controller's state is modelled as three classes that share one object:

- `Controller.EditQueue` is the `Arc<Mutex<Vec<String>>>` of serialized edit
  batches. The worker and the controller hold the same `EditQueue`, so the
  sharing is kept as aliasing. Two ghost fields record every batch ever
  pushed (`produced`) and every batch ever swapped out (`taken`). Its
  invariant `produced == taken + items` says no batch is lost or duplicated
  inside the queue.
- `Controller.Worker` is the render worker. Each render pass pushes two
  strings while holding the lock once: the serialized template mutations,
  then the serialized edits. An inbound JSON value reaches the virtual DOM
  only through `Events.EventGate`. The virtual DOM is seen only through its
  log of `handle_event` calls (`handled`).
- `Controller.DesktopController` holds the window registry (`webviews`), the
  readiness flag, the quit-on-close flag and the log of `evaluate_script`
  calls (`evaluated`). Its invariant `Valid()` says the log delivers exactly
  the batches ever taken from the queue, in order.

Together the two invariants give the end-to-end guarantee, stated as the
lemma `Controller.EndToEnd`: every batch the worker produced has either been
delivered, in production order, or is still queued.

Modelling choices:

- Module `Scripts` defines the script text
  `window.interpreter.handleEdits(<edit>)`. It also defines its decoder
  `EditOf`, used to prove that a delivery log names its batches one-to-one.
- `HashMap::iter_mut().next()` has no specified order. `TryLoadReadyWebviews`
  therefore picks any registered window with `:|`. The outcome
  `Delivered(window)` names the window it picked.
- The `unwrap` on an empty registry panics. It is modelled as the outcome
  `NoWebview`, not as a precondition. As in the source, the queue has already
  been swapped out at that point, so those batches are dropped undelivered.
  `Valid()` is not promised after this outcome, because the process is
  panicking.
- Deserializing an `EventMessage` and `decode_event` are not part of this
  model. They are the function-valued fields `Worker.parse` and
  `Worker.decode`. Over these, `EventGate` is exact.
- `tokio::select!` between `wait_for_work` and an arriving event is the
  caller's choice of `Wake`. The output of `render_with_deadline` is a
  parameter of `Worker.Step`, already serialized.
- Registering a window and setting the readiness flag are done by code
  outside `controller.rs`. That code writes the controller's `pub(super)`
  fields. Here this is done by `RegisterWindow` and `MarkReady`.

Two behaviours of the code worth stating plainly:

- `iter_mut().next()` (line 112) yields whichever entry the hash map gives
  first, not necessarily the first window registered.
- A drain that reaches the `unwrap` on an empty registry (line 112) has
  already swapped out the queue (line 109), so those batches are lost.

## Model

| member | source | states |
|---|---|---|
| `Scripts.ScriptRoundTrip` | packages/desktop/src/controller.rs:115 | the batch embedded in a delivery script is read back unchanged |
| `Scripts.EditOfOnlyScripts` | packages/desktop/src/controller.rs:115 | only text of the form `window.interpreter.handleEdits(e)` decodes, and it decodes to `e` |
| `Scripts.ScriptInjective` | packages/desktop/src/controller.rs:115 | two batches give the same script exactly when they are equal |
| `Scripts.DeliveriesAt` | packages/desktop/src/controller.rs:112-117 | a drain issues one call per batch; call k goes to the chosen webview and runs the script of batch k |
| `Scripts.DeliveriesAppend` | packages/desktop/src/controller.rs:114-117 | delivering two runs of batches in turn equals delivering their concatenation |
| `Scripts.EditsOfDeliveries` | packages/desktop/src/controller.rs:114-117 | the calls of one drain decode back to exactly the drained batches, in order |
| `Scripts.EditsOfAppend` | packages/desktop/src/controller.rs:103-119 | the batches delivered by successive drains are those of the first drain followed by those of the next |
| `Events.EventGate` | packages/desktop/src/controller.rs:62-68 | a dispatch happens if and only if the envelope parses and `decode_event` accepts it; the dispatch carries the envelope's event name, `ElementId(mounted_dom_id)`, the decoded event, bubbling on and priority Medium |
| `Controller.EditQueue.constructor` | packages/desktop/src/controller.rs:34 | the shared queue starts empty, with nothing produced or taken |
| `Controller.EditQueue.PushPass` | packages/desktop/src/controller.rs:77-82 | a render pass appends exactly its template mutations, then its edits, behind everything already queued; nothing is taken |
| `Controller.EditQueue.TakeAll` | packages/desktop/src/controller.rs:105-110 | the swap returns everything queued, in order, and leaves the queue empty; what was returned is added to what was taken |
| `Controller.Worker.constructor` | packages/desktop/src/controller.rs:47-56 | at start-up the initial build is queued as templates then edits, and no event has been handled |
| `Controller.Worker.Step` | packages/desktop/src/controller.rs:59-82 | the virtual DOM receives one dispatch exactly when an event arrived and passed the gate, and none otherwise; then the rendered pass is appended in order |
| `Controller.NewOnTokio` | packages/desktop/src/controller.rs:28-93 | one step creates the queue, starts one worker on it that queues the initial build (templates, then edits), and returns a controller holding that same queue, with an empty registry, not ready and quitting on close |
| `Controller.EndToEnd` | packages/desktop/src/controller.rs:103-119 | under the controller's invariant, the batches the delivery log decodes to, followed by the queue, are exactly the batches ever produced |
| `Controller.DesktopController.constructor` | packages/desktop/src/controller.rs:87-92 | a new controller has an empty registry, is not ready, quits on close, has delivered nothing and owns a fresh, empty queue |
| `Controller.DesktopController.RegisterWindow` | packages/desktop/src/controller.rs:19 | the registry maps the new identifier to its webview; every other field is unchanged and the controller's invariant is kept |
| `Controller.DesktopController.MarkReady` | packages/desktop/src/controller.rs:22 | the readiness flag becomes true; registry, policy and delivery log are unchanged and the invariant is kept |
| `Controller.DesktopController.CloseWindow` | packages/desktop/src/controller.rs:95-101 | only the given identifier leaves the registry, and every other entry keeps its webview; control flow becomes `Exit` when the registry is now empty and quit-on-close holds, and is returned untouched otherwise; the controller's invariant is kept |
| `Controller.DesktopController.TryLoadReadyWebviews` | packages/desktop/src/controller.rs:103-119 | when not ready, the queue and log are unchanged; when ready, the queue is emptied and all its batches are taken; with a registered window, the log gains one delivery script per drained batch, in order, all to one registered webview, and the end-to-end invariant is kept; with none, nothing is delivered |
| `Scenarios.BatchesAcrossReadiness` | packages/desktop/src/controller.rs:103-119 | two passes queued before readiness are held by the first drain and all four batches are delivered in production order by the drain after readiness, leaving the queue empty |
| `Scenarios.ClosingWindows` | packages/desktop/src/controller.rs:95-101 | closing one of two windows leaves the control flow alone; closing the last one yields `Exit` |
| `Scenarios.EventsThroughTheGate` | packages/desktop/src/controller.rs:62-68 | an envelope that does not decode causes no dispatch; a decodable click on node 5 causes exactly one dispatch aimed at node 5 with priority Medium |

## Left out

- Thread and runtime setup (`std::thread::spawn`, the tokio runtime, `block_on`): concurrency plumbing. The model is sequential.
  Each queue operation is one atomic method call, as the mutex makes it. A push that lands between the swap and the delivery loop goes to the emptied shared queue, not to the drained copy, so it does not change the outcome.
- The race in `tokio::select!`: the caller chooses which `Wake` happens. A closed event channel, whose branch never fires, is not modelled.
- The 16 ms deadline of `render_with_deadline` and the virtual DOM's rendering: timing and internals. A render pass is an opaque pair of serialized strings given to `Worker.Step`.
- `serde_json` serialization and its `unwrap`: foreign library calls. Serialized forms are opaque strings, and serialization is assumed to succeed.
- Deserializing `EventMessage` and `decode_event`: they are defined outside this file and are uninterpreted functions here.
- Lock poisoning (`lock().unwrap()`) and the relaxed atomic load: the mutex and the atomic flag are plain fields.
- `proxy.send_event` (the cross-thread wake-up): it has no effect on the controller's state, so it is not modelled.
- Failure of `evaluate_script` (its `unwrap`): a foreign webview call. Every script call is assumed to succeed and is appended to the log.
- Controller.DesktopController.TryLoadReadyWebviews: does not promise `Valid()` after the `NoWebview` outcome, because the source panics there and the drained batches are never delivered.
- Identifier widths (opaque window identifiers and `usize` DOM ids): the controller does no arithmetic on them, so they are unbounded `nat`s.
- The `ControlFlow` variants other than `Exit`: they stand only for a value the host already set, which the controller passes back unchanged.
