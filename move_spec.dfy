/**
 * The drag-to-move action of src/lib/utils/move.ts as a state machine over values.
 *
 * A `DragState` holds everything the action's closures capture or touch: the
 * position `left`/`top`, the offsets rendered into the element's style, the drag
 * anchor `initialPosition`, the set of global listeners registered on the window,
 * the `selected` marker and the log of notifications dispatched on the element.
 * One function per handler gives the state after it runs; the class in module
 * MoveAction is proved against these functions, and the lemmas in module
 * MoveTraces are stated about them.
 */
module MoveSpec {
  import opened Wrappers

  /** The `{ left, top }` payload of every notification, and the element's position. */
  datatype Position = Position(left: int, top: int)

  /** The drag anchor `initialPosition`: element offset minus pointer position at the press. */
  datatype Anchor = Anchor(x: int, y: int)

  /** `MoveOptions.initialPosition`; each field may be absent at run time, and `?? 0` applies to it. */
  datatype InitialPosition = InitialPosition(left: Option<int>, top: Option<int>)
  datatype MoveOptions = MoveOptions(initialPosition: Option<InitialPosition>)

  /** The three custom events dispatched on the element. */
  datatype Kind = MoveStart | Moving | MoveEnd
  datatype Notification = Notification(kind: Kind, detail: Position)

  /** The two handlers the action registers on the window during a drag. */
  datatype GlobalListener = MouseMoveListener | MouseUpListener

  /** The session state the code keeps implicitly in its listener registrations. */
  datatype Session = Idle | Dragging

  datatype DragState = DragState(
    left: int,
    top: int,
    styleLeft: int,
    styleTop: int,
    initialPosition: Anchor,
    listeners: set<GlobalListener>,
    selected: bool,
    log: seq<Notification>,
    session: Session)

  const GLOBAL_LISTENERS: set<GlobalListener> := {MouseMoveListener, MouseUpListener}

  /** What the browser delivers to the action: a press on the element, a pointer
      move or release anywhere in the window, and the disposal of the action. */
  datatype Input =
    | MouseDown(offsetLeft: int, offsetTop: int, clientX: int, clientY: int)
    | MouseMove(clientX: int, clientY: int)
    | MouseUp
    | Destroy

  function Last<T>(s: seq<T>): T
    requires s != []
  {
    s[|s| - 1]
  }

  /** The nullish-coalescing operator `??` on a number. */
  function Coalesce(v: Option<int>, default: int): int {
    match v
    case Some(x) => x
    case None => default
  }

  /** `options?.initialPosition?.left` */
  function OptionLeft(options: Option<MoveOptions>): Option<int> {
    if options.Some? && options.value.initialPosition.Some? then options.value.initialPosition.value.left else None
  }

  /** `options?.initialPosition?.top` */
  function OptionTop(options: Option<MoveOptions>): Option<int> {
    if options.Some? && options.value.initialPosition.Some? then options.value.initialPosition.value.top else None
  }

  /** The notification that may come after `prev` (None: the log is empty). A
      `moving` or `moveend` only continues an open session; only a `moving`
      reports a position different from the one reported last. */
  predicate Follows(prev: Option<Notification>, n: Notification) {
    match n.kind
    case MoveStart => prev.None? || prev.value.detail == n.detail
    case Moving => prev.Some? && prev.value.kind != MoveEnd
    case MoveEnd => prev.Some? && prev.value.kind != MoveEnd && prev.value.detail == n.detail
  }

  /** The notification before position `i` of the log, if any. */
  function Prev(log: seq<Notification>, i: nat): Option<Notification>
    requires i < |log|
  {
    if i == 0 then None else Some(log[i - 1])
  }

  predicate WellFormedLog(log: seq<Notification>) {
    forall i :: 0 <= i < |log| ==> Follows(Prev(log, i), log[i])
  }

  /** The invariant every reachable state keeps. */
  predicate Valid(s: DragState) {
    && (s.listeners == {} || s.listeners == GLOBAL_LISTENERS)
    && (s.session == Dragging <==> s.listeners == GLOBAL_LISTENERS)
    && s.styleLeft == s.left && s.styleTop == s.top
    && (s.session == Dragging ==> s.selected)
    && WellFormedLog(s.log)
    && (s.log != [] ==> Last(s.log).detail == Position(s.left, s.top))
    && (s.session == Dragging ==> s.log != [] && Last(s.log).kind != MoveEnd)
  }

  /** The state right after `move(node, options)` returns (move.ts lines 27-36). */
  function Initial(options: Option<MoveOptions>): (s: DragState)
    ensures Valid(s) && s.session == Idle && s.listeners == {} && !s.selected && s.log == []
    ensures s.left == (if OptionLeft(options).Some? then OptionLeft(options).value else 0)
    ensures s.top == (if OptionTop(options).Some? then OptionTop(options).value else 0)
  {
    var left := Coalesce(OptionLeft(options), 0);
    var top := Coalesce(OptionTop(options), 0);
    DragState(left, top, left, top, Anchor(0, 0), {}, false, [], Idle)
  }

  /** `onMouseDown` (move.ts lines 38-54). */
  function OnMouseDown(s: DragState, offsetLeft: int, offsetTop: int, clientX: int, clientY: int): DragState {
    s.(selected := true,
       initialPosition := Anchor(offsetLeft - clientX, offsetTop - clientY),
       listeners := s.listeners + GLOBAL_LISTENERS,
       log := s.log + [Notification(MoveStart, Position(s.left, s.top))],
       session := Dragging)
  }

  /** `onMove`, only reachable while its listener is registered (move.ts lines 68-79). */
  function OnMove(s: DragState, clientX: int, clientY: int): DragState
    requires MouseMoveListener in s.listeners
  {
    var left := clientX + s.initialPosition.x;
    var top := clientY + s.initialPosition.y;
    s.(left := left, top := top, styleLeft := left, styleTop := top,
       log := s.log + [Notification(Moving, Position(left, top))])
  }

  /** `onMouseUp`, only reachable while its listener is registered (move.ts lines 56-66). */
  function OnMouseUp(s: DragState): DragState
    requires MouseUpListener in s.listeners
  {
    s.(selected := false,
       listeners := s.listeners - GLOBAL_LISTENERS,
       log := s.log + [Notification(MoveEnd, Position(s.left, s.top))],
       session := Idle)
  }

  /** The returned `destroy` (move.ts lines 84-87). The press listener stays. */
  function OnDestroy(s: DragState): DragState {
    s.(listeners := s.listeners - GLOBAL_LISTENERS, session := Idle)
  }

  /** One browser input: window events reach the action only through a registered listener. */
  function Dispatch(s: DragState, input: Input): (r: DragState)
    ensures s.log <= r.log && |r.log| <= |s.log| + 1
  {
    match input
    case MouseDown(offsetLeft, offsetTop, clientX, clientY) => OnMouseDown(s, offsetLeft, offsetTop, clientX, clientY)
    case MouseMove(clientX, clientY) => if MouseMoveListener in s.listeners then OnMove(s, clientX, clientY) else s
    case MouseUp => if MouseUpListener in s.listeners then OnMouseUp(s) else s
    case Destroy => OnDestroy(s)
  }

  /** The state after the inputs arrive in order; the log only grows, one notification per input at most. */
  function Run(s: DragState, inputs: seq<Input>): (r: DragState)
    ensures s.log <= r.log && |r.log| <= |s.log| + |inputs|
    decreases |inputs|
  {
    if inputs == [] then s else Dispatch(Run(s, inputs[..|inputs| - 1]), Last(inputs))
  }
}
