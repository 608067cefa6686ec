/**
 * The `move` action itself: the variables its closures capture become the fields
 * of a `DragController`, and each closure a method that updates them in place.
 * Every method is proved against its step function in module MoveSpec, so the
 * trace lemmas of module MoveTraces apply to any sequence of calls.
 */
module MoveAction {
  import opened Wrappers
  import opened MoveSpec
  import MoveTraces

  class DragController {
    var left: int
    var top: int
    /** The element's `style.left` / `style.top`, in pixels. */
    var styleLeft: int
    var styleTop: int
    /** The drag anchor, set on every press. */
    var initialPosition: Anchor
    /** The handlers currently registered on the window. */
    var listeners: set<GlobalListener>
    /** Whether the element carries the `selected` class. */
    var selected: bool
    /** Every notification dispatched on the element so far. */
    var log: seq<Notification>
    /** Idle or Dragging; the code keeps it only through `listeners`. */
    ghost var session: Session

    ghost function Model(): DragState
      reads this
    {
      DragState(left, top, styleLeft, styleTop, initialPosition, listeners, selected, log, session)
    }

    /** Dragging exactly while both global listeners are registered, and the rest of MoveSpec.Valid. */
    ghost predicate Valid()
      reads this
    {
      MoveSpec.Valid(Model())
    }

    /** `move(node, options)`: position from the options, each missing field 0; nothing registered, nothing emitted. */
    constructor Create(options: Option<MoveOptions>)
      ensures Valid() && Model() == Initial(options)
      ensures left == (if OptionLeft(options).Some? then OptionLeft(options).value else 0)
      ensures top == (if OptionTop(options).Some? then OptionTop(options).value else 0)
      ensures styleLeft == left && styleTop == top
      ensures listeners == {} && session == Idle && log == [] && !selected
    {
      left := Coalesce(OptionLeft(options), 0);
      top := Coalesce(OptionTop(options), 0);
      styleTop := top;
      styleLeft := left;
      initialPosition := Anchor(0, 0);
      listeners := {};
      selected := false;
      log := [];
      session := Idle;
    }

    /** `onMouseDown`; `offsetLeft`/`offsetTop` are the element's layout offsets at the press. */
    method Press(offsetLeft: int, offsetTop: int, clientX: int, clientY: int)
      requires Valid()
      modifies this
      ensures Valid() && Model() == OnMouseDown(old(Model()), offsetLeft, offsetTop, clientX, clientY)
      ensures selected && session == Dragging && listeners == GLOBAL_LISTENERS
      ensures initialPosition == Anchor(offsetLeft - clientX, offsetTop - clientY)
      ensures left == old(left) && top == old(top)
      ensures log == old(log) + [Notification(MoveStart, Position(left, top))]
    {
      ghost var after := OnMouseDown(Model(), offsetLeft, offsetTop, clientX, clientY);
      MoveTraces.PressPreservesValid(Model(), offsetLeft, offsetTop, clientX, clientY);
      selected := true;
      initialPosition := Anchor(offsetLeft - clientX, offsetTop - clientY);
      listeners := listeners + {MouseMoveListener};
      listeners := listeners + {MouseUpListener};
      assert listeners == after.listeners;
      session := Dragging;
      log := log + [Notification(MoveStart, Position(left, top))];
      assert Model() == after;
    }

    /** `onMouseUp`, reachable only through its registered listener. */
    method Release()
      requires Valid() && MouseUpListener in listeners
      modifies this
      ensures Valid() && Model() == OnMouseUp(old(Model()))
      ensures !selected && session == Idle && listeners == {}
      ensures left == old(left) && top == old(top)
      ensures log == old(log) + [Notification(MoveEnd, Position(left, top))]
    {
      MoveTraces.ReleasePreservesValid(Model());
      selected := false;
      listeners := listeners - {MouseMoveListener};
      listeners := listeners - {MouseUpListener};
      session := Idle;
      log := log + [Notification(MoveEnd, Position(left, top))];
    }

    /** `onMove`, reachable only through its registered listener. */
    method Move(clientX: int, clientY: int)
      requires Valid() && MouseMoveListener in listeners
      modifies this
      ensures Valid() && Model() == OnMove(old(Model()), clientX, clientY)
      ensures left == clientX + initialPosition.x && top == clientY + initialPosition.y
      ensures styleLeft == left && styleTop == top
      ensures initialPosition == old(initialPosition) && listeners == old(listeners) && session == Dragging
      ensures log == old(log) + [Notification(Moving, Position(left, top))]
    {
      MoveTraces.MovePreservesValid(Model(), clientX, clientY);
      left := clientX + initialPosition.x;
      top := clientY + initialPosition.y;
      styleTop := top;
      styleLeft := left;
      log := log + [Notification(Moving, Position(left, top))];
    }

    /** The returned `destroy`: deregisters the window listeners whatever the state, emits nothing. */
    method Destroy()
      requires Valid()
      modifies this
      ensures Valid() && Model() == OnDestroy(old(Model()))
      ensures listeners == {} && session == Idle
      ensures left == old(left) && top == old(top) && log == old(log) && selected == old(selected)
    {
      MoveTraces.DestroyPreservesValid(Model());
      listeners := listeners - {MouseMoveListener};
      listeners := listeners - {MouseUpListener};
      session := Idle;
    }
  }

  /** A caller driving the controller through the drag of MoveTraces.DragScenario sees exactly its notifications. */
  method DragExample() returns (events: seq<Notification>)
    ensures events == [Notification(MoveStart, Position(50, 20)), Notification(Moving, Position(70, 30)),
                       Notification(MoveEnd, Position(70, 30))]
  {
    var c := new DragController.Create(Some(MoveOptions(Some(InitialPosition(Some(50), Some(20))))));
    c.Press(c.left, c.top, 100, 100);
    c.Move(120, 110);
    c.Release();
    c.Destroy();
    events := c.log;
  }
}
