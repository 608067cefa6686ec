# Drag-to-move action, modelled in Dafny

`move(node, options)` (src/lib/utils/move.ts) is a Svelte action that lets the user drag
one element with the mouse. When it is created it places the element at an initial
position, `(0, 0)` unless the options say otherwise. A `mousedown` on the element does
four things: it marks the element `selected`, records an anchor (element offset minus
pointer position), registers `mousemove` and `mouseup` listeners on the window, and
dispatches `movestart`. Each window `mousemove` puts the element at pointer plus anchor
and dispatches `moving`. A `mouseup` removes the `selected` mark, removes both window
listeners and dispatches `moveend`. The returned `destroy` removes the window listeners.
Every notification carries the position `{ left, top }` at the moment it is dispatched.

The project has four modules:

- `Wrappers` (wrappers.dfy): `Option`.
- `MoveSpec` (move_spec.dfy): the action's state as a value (`DragState`) and one step
  function per handler. `OnMouseDown`, `OnMove`, `OnMouseUp` and `OnDestroy` each give
  the state after their handler runs. `Dispatch` delivers one browser input: a window
  event reaches the action only while its listener is registered. `Run` delivers a
  whole sequence of inputs. `Valid` is the invariant every reachable state keeps:
  - the session is `Dragging` exactly when both window listeners are registered;
  - the rendered style offsets equal the position;
  - a drag in progress implies `selected`;
  - the log is well formed;
  - the last notification carries the current position.
- `MoveTraces` (move_traces.dfy): lemmas about single handlers and about whole traces.
- `MoveAction` (drag_controller.dfy): the class `DragController`. Its fields are the
  variables the closures capture. Its methods `Create`, `Press`, `Move`, `Release` and
  `Destroy` update those fields in place. Each method is proved against its step function,
  so the trace lemmas hold for any sequence of calls.

Window listener registration is a `set<GlobalListener>`. `addEventListener` is set union
and `removeEventListener` is set difference. That captures two browser facts: registering
the same handler twice does not duplicate it, and removing a handler that is not there is
a no-op. Notifications are appended to a log.

The code has these behaviours a reader might not expect:
- A press is not limited to the primary button, and it is not ignored while a drag is
  already in progress. A second press re-anchors the drag and dispatches a second
  `movestart`, and the listeners are still registered only once.
- `destroy` does not remove the `mousedown` listener, so a press after `destroy` starts
  a new drag.
- `destroy` does not remove the `selected` mark.
- The anchor is not discarded on release. It stays until the next press overwrites it.

## Model

| member | source | states |
|---|---|---|
| `MoveSpec.Initial` | src/lib/utils/move.ts:27-36 | after creation the position is the configured `initialPosition`, each missing field 0; no listener is registered, nothing is selected, the log is empty, and the state is valid |
| `MoveSpec.Dispatch` | src/lib/utils/move.ts:38-87 | every input leaves the earlier notifications untouched and appends at most one |
| `MoveSpec.Run` | src/lib/utils/move.ts:23-89 | over any input sequence the log is append-only and grows by at most one notification per input |
| `MoveTraces.PressPreservesValid` | src/lib/utils/move.ts:38-54 | the effect of `OnMouseDown`: a press sets the anchor to offset minus pointer and registers both window listeners. It appends one `movestart` carrying the unchanged position, and it keeps the invariant |
| `MoveTraces.MovePreservesValid` | src/lib/utils/move.ts:68-79 | the effect of `OnMove`: a move puts the element at pointer plus anchor, renders exactly that, and appends one `moving` carrying the new position |
| `MoveTraces.ReleasePreservesValid` | src/lib/utils/move.ts:56-66 | the effect of `OnMouseUp`: a release deregisters both listeners, clears `selected`, keeps the position, and appends one `moveend` carrying it |
| `MoveTraces.DestroyPreservesValid` | src/lib/utils/move.ts:84-87 | the effect of `OnDestroy`: disposal deregisters both listeners. It emits nothing and leaves the position and `selected` unchanged |
| `MoveTraces.DispatchPreservesValid` | src/lib/utils/move.ts:38-87 | every handler keeps the invariant, including the window events that arrive with no listener registered |
| `MoveTraces.RunPreservesValid` | src/lib/utils/move.ts:23-89 | the invariant holds after any sequence of inputs |
| `MoveTraces.SessionStart` | src/lib/utils/move.ts:49-78 | in a well-formed log, every notification has an earlier-or-equal `movestart` with only `moving` between the two |
| `MoveTraces.ListenersIffPressOpen` | src/lib/utils/move.ts:46-87 | for any trace, both window listeners are registered, and the session is Dragging, exactly when the last press has not been followed by a release or a disposal. Otherwise no listener is registered |
| `MoveTraces.SessionsInOrder` | src/lib/utils/move.ts:49-78 | on every reachable log: each `moving`/`moveend` belongs to a session opened by an earlier `movestart` with only `moving` in between; a `moveend` is followed only by a new `movestart`; a `moveend` repeats the position reported just before it; the last notification carries the current position |
| `MoveTraces.MovesTrackAnchor` | src/lib/utils/move.ts:68-79 | during a drag, a run of moves keeps the listeners and the anchor. It appends one `moving` per move carrying pointer plus anchor, and leaves the element at the last pointer plus anchor |
| `MoveTraces.FollowsPointer` | src/lib/utils/move.ts:41-79 | 1:1 tracking: take a press at `(px, py)` while the element's offsets equal its position `(l, t)`. Every later move to `(x, y)` before a release reports `(l + x - px, t + y - py)` and leaves the element there |
| `MoveTraces.PressThenRelease` | src/lib/utils/move.ts:49-65 | a press immediately followed by a release logs `movestart` and `moveend` with the same payload, the unchanged position, and leaves nothing registered |
| `MoveTraces.DestroyIdempotent` | src/lib/utils/move.ts:81-87 | disposing twice is the same as disposing once. Disposing while idle changes nothing. Any press after disposal registers both listeners, sets the anchor and `selected`, and appends one `movestart` with the unchanged position |
| `MoveTraces.DragScenario` | src/lib/utils/move.ts:27-78 | created at (50, 20), pressed at (100, 100), moved to (120, 110), released: anchor (-50, -80), element at (70, 30), log `movestart(50,20)`, `moving(70,30)`, `moveend(70,30)` |
| `MoveAction.DragController.Create` | src/lib/utils/move.ts:27-36 | the new controller's state is `Initial(options)`: configured position or 0 per field, rendered offsets equal to it, nothing registered, empty log |
| `MoveAction.DragController.Press` | src/lib/utils/move.ts:38-54 | the new state is `OnMouseDown` of the old one: anchor, both listeners, `selected`, one `movestart` with the unchanged position |
| `MoveAction.DragController.Move` | src/lib/utils/move.ts:68-79 | requires the `mousemove` listener; the new state is `OnMove` of the old one: position pointer plus anchor, rendered, one `moving` with it |
| `MoveAction.DragController.Release` | src/lib/utils/move.ts:56-66 | requires the `mouseup` listener; the new state is `OnMouseUp` of the old one: no listeners, not selected, one `moveend` with the unchanged position |
| `MoveAction.DragController.Destroy` | src/lib/utils/move.ts:84-87 | the new state is `OnDestroy` of the old one: no listeners, nothing emitted, position, log and `selected` unchanged |
| `MoveAction.DragExample` | src/lib/utils/move.ts:23-89 | a client driving the class through the drag of `MoveTraces.DragScenario` receives exactly `movestart(50,20)`, `moving(70,30)`, `moveend(70,30)` |

## Left out

- Style writes other than the offsets are not modelled: `position: absolute`, `cursor: move` and `userSelect: none`. They are fixed side effects with no state.
- The `${n}px` formatting is not modelled. The rendered offsets are two integers (`styleLeft`, `styleTop`).
- `CustomEvent`, `dispatchEvent` and the fan-out to observers are not modelled. The log is the sequence of notifications dispatched on the element. Each observer sees only the kinds it listens to, from the moment it subscribed, unless an earlier handler stops propagation.
- Observers are assumed not to re-enter the action. `dispatchEvent` runs handlers synchronously, so a handler that itself dispatches a window `mouseup` or `mousemove` would run a nested handler before later observers see the current notification. The model treats each handler as one atomic step.
- The Svelte `ActionReturn` and `MoveAtributes` typing is not modelled. The action returns no `update`, so the options apply once.
- The `window`/`node` listener APIs are a set of registered window handlers. The `mousedown` listener on the element is registered once and never removed, so it is not state. Every `MouseDown` input reaches the action.
- Browser layout is not modelled. `node.offsetLeft` and `node.offsetTop` depend on margins and the offset parent, so they are parameters of the press. The 1:1 tracking lemma assumes they equal the current position.
- Pointer coordinates and positions are mathematical integers, not JavaScript floating-point numbers. Only addition and subtraction are involved.
- The element's other CSS classes are not modelled. The model assumes the element does not carry `selected` when the action is created, because the code never reads the class list.
- Touch input, multiple pointers and mouse-button filtering are not modelled. The code has none of them.
