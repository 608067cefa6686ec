/**
 * What the drag action promises over single handlers and whole input traces:
 * the invariant is kept, notifications come as `movestart`, `moving`*, `moveend`
 * per session, the listeners are registered exactly while the last press is
 * open, and the element follows the pointer 1:1 from the anchor.
 */
module MoveTraces {
  import opened Wrappers
  import opened MoveSpec

  lemma AppendWellFormed(log: seq<Notification>, n: Notification)
    requires WellFormedLog(log)
    requires Follows(if log == [] then None else Some(Last(log)), n)
    ensures WellFormedLog(log + [n])
  {
    var log' := log + [n];
    forall i | 0 <= i < |log'|
      ensures Follows(Prev(log', i), log'[i])
    {
      if i < |log| {
        assert log'[i] == log[i] && Prev(log', i) == Prev(log, i);
      }
    }
  }

  /** A press appends one `movestart` with the unchanged position and opens a session. */
  lemma PressPreservesValid(s: DragState, offsetLeft: int, offsetTop: int, clientX: int, clientY: int)
    requires Valid(s)
    ensures var r := OnMouseDown(s, offsetLeft, offsetTop, clientX, clientY);
      && Valid(r) && r.session == Dragging && r.listeners == GLOBAL_LISTENERS && r.selected
      && r.initialPosition == Anchor(offsetLeft - clientX, offsetTop - clientY)
      && r.left == s.left && r.top == s.top
      && r.log == s.log + [Notification(MoveStart, Position(s.left, s.top))]
  {
    AppendWellFormed(s.log, Notification(MoveStart, Position(s.left, s.top)));
  }

  /** A move places the element at pointer plus anchor and reports exactly that position. */
  lemma MovePreservesValid(s: DragState, clientX: int, clientY: int)
    requires Valid(s) && MouseMoveListener in s.listeners
    ensures var r := OnMove(s, clientX, clientY);
      && Valid(r) && r.session == Dragging && r.listeners == s.listeners
      && r.left == clientX + s.initialPosition.x && r.top == clientY + s.initialPosition.y
      && r.styleLeft == r.left && r.styleTop == r.top
      && r.log == s.log + [Notification(Moving, Position(r.left, r.top))]
  {
    var left, top := clientX + s.initialPosition.x, clientY + s.initialPosition.y;
    AppendWellFormed(s.log, Notification(Moving, Position(left, top)));
  }

  /** A release closes the session, keeps the position and reports it in one `moveend`. */
  lemma ReleasePreservesValid(s: DragState)
    requires Valid(s) && MouseUpListener in s.listeners
    ensures var r := OnMouseUp(s);
      && Valid(r) && r.session == Idle && r.listeners == {} && !r.selected
      && r.left == s.left && r.top == s.top
      && r.log == s.log + [Notification(MoveEnd, Position(s.left, s.top))]
  {
    AppendWellFormed(s.log, Notification(MoveEnd, Position(s.left, s.top)));
  }

  /** Disposal removes the global listeners and changes nothing else that is observable. */
  lemma DestroyPreservesValid(s: DragState)
    requires Valid(s)
    ensures var r := OnDestroy(s);
      && Valid(r) && r.session == Idle && r.listeners == {}
      && r.left == s.left && r.top == s.top && r.log == s.log && r.selected == s.selected
  {
  }

  lemma DispatchPreservesValid(s: DragState, input: Input)
    requires Valid(s)
    ensures Valid(Dispatch(s, input))
  {
    match input
    case MouseDown(offsetLeft, offsetTop, clientX, clientY) =>
      PressPreservesValid(s, offsetLeft, offsetTop, clientX, clientY);
    case MouseMove(clientX, clientY) =>
      if MouseMoveListener in s.listeners { MovePreservesValid(s, clientX, clientY); }
    case MouseUp =>
      if MouseUpListener in s.listeners { ReleasePreservesValid(s); }
    case Destroy =>
      DestroyPreservesValid(s);
  }

  lemma {:induction false} RunPreservesValid(s: DragState, inputs: seq<Input>)
    requires Valid(s)
    ensures Valid(Run(s, inputs))
    decreases |inputs|
  {
    if inputs != [] {
      RunPreservesValid(s, inputs[..|inputs| - 1]);
      DispatchPreservesValid(Run(s, inputs[..|inputs| - 1]), Last(inputs));
    }
  }

  /** The `movestart` that opened the session the notification at `i` belongs to:
      everything strictly between the two is a `moving`. */
  function SessionStart(log: seq<Notification>, i: nat): (j: nat)
    requires WellFormedLog(log) && i < |log|
    ensures j <= i && log[j].kind == MoveStart
    ensures log[i].kind == MoveStart ==> j == i
    ensures forall k :: j < k < i ==> log[k].kind == Moving
    decreases i
  {
    if log[i].kind == MoveStart then i
    else
      assert Follows(Prev(log, i), log[i]);
      SessionStart(log, i - 1)
  }

  /** Whether the last press of the trace has not yet been followed by a release or a disposal. */
  function PressOpen(inputs: seq<Input>): bool
    decreases |inputs|
  {
    if inputs == [] then false
    else match Last(inputs)
      case MouseDown(_, _, _, _) => true
      case MouseUp => false
      case Destroy => false
      case MouseMove(_, _) => PressOpen(inputs[..|inputs| - 1])
  }

  /** For any trace, the global listeners are registered (both of them) exactly while the
      last press is open, and none is registered otherwise. */
  lemma {:induction false} ListenersIffPressOpen(options: Option<MoveOptions>, inputs: seq<Input>)
    ensures var r := Run(Initial(options), inputs);
      && (r.listeners == GLOBAL_LISTENERS <==> PressOpen(inputs))
      && (r.listeners == {} <==> !PressOpen(inputs))
      && (r.session == Dragging <==> PressOpen(inputs))
    decreases |inputs|
  {
    if inputs != [] {
      var prefix := inputs[..|inputs| - 1];
      ListenersIffPressOpen(options, prefix);
      RunPreservesValid(Initial(options), prefix);
      DispatchPreservesValid(Run(Initial(options), prefix), Last(inputs));
    }
  }

  /** In every reachable log, each `moving` and `moveend` belongs to a session opened by an
      earlier `movestart` with only `moving` in between, a `moveend` is followed by nothing but
      a new `movestart`, and the last notification carries the current position. */
  lemma SessionsInOrder(options: Option<MoveOptions>, inputs: seq<Input>)
    ensures var r := Run(Initial(options), inputs);
      && (forall i :: 0 <= i < |r.log| && r.log[i].kind != MoveStart ==>
            exists j :: 0 <= j < i && r.log[j].kind == MoveStart &&
              (forall k :: j < k < i ==> r.log[k].kind == Moving))
      && (forall i :: 0 < i < |r.log| && r.log[i - 1].kind == MoveEnd ==> r.log[i].kind == MoveStart)
      && (forall i :: 0 < i < |r.log| && r.log[i].kind == MoveEnd ==> r.log[i].detail == r.log[i - 1].detail)
      && (r.log != [] ==> Last(r.log).detail == Position(r.left, r.top))
  {
    var r := Run(Initial(options), inputs);
    RunPreservesValid(Initial(options), inputs);
    forall i | 0 <= i < |r.log| && r.log[i].kind != MoveStart
      ensures (exists j :: 0 <= j < i && r.log[j].kind == MoveStart &&
                 (forall k :: j < k < i ==> r.log[k].kind == Moving))
    {
      var j := SessionStart(r.log, i);
      assert j < i;
    }
    forall i | 0 < i < |r.log| && r.log[i - 1].kind == MoveEnd
      ensures r.log[i].kind == MoveStart
    {
      assert Follows(Prev(r.log, i), r.log[i]);
    }
    forall i | 0 < i < |r.log| && r.log[i].kind == MoveEnd
      ensures r.log[i].detail == r.log[i - 1].detail
    {
      assert Follows(Prev(r.log, i), r.log[i]);
    }
  }

  predicate AllMoves(inputs: seq<Input>) {
    forall k :: 0 <= k < |inputs| ==> inputs[k].MouseMove?
  }

  /** The notifications a run of pointer moves produces under anchor `a`. */
  function MovingLog(a: Anchor, moves: seq<Input>): seq<Notification>
    requires AllMoves(moves)
  {
    seq(|moves|, k requires 0 <= k < |moves| =>
      Notification(Moving, Position(moves[k].clientX + a.x, moves[k].clientY + a.y)))
  }

  /** While dragging, pointer moves keep the session and anchor, each appends one `moving`
      reporting pointer plus anchor, and the element sits at the last pointer plus anchor. */
  lemma {:induction false} MovesTrackAnchor(s: DragState, moves: seq<Input>)
    requires MouseMoveListener in s.listeners && AllMoves(moves)
    ensures var r := Run(s, moves);
      && r.listeners == s.listeners && r.session == s.session && r.initialPosition == s.initialPosition
      && r.selected == s.selected
      && r.log == s.log + MovingLog(s.initialPosition, moves)
      && (moves == [] ==> r.left == s.left && r.top == s.top)
      && (moves != [] ==>
            r.left == Last(moves).clientX + s.initialPosition.x && r.top == Last(moves).clientY + s.initialPosition.y)
    decreases |moves|
  {
    if moves != [] {
      var prefix := moves[..|moves| - 1];
      assert AllMoves(prefix) by {
        forall k | 0 <= k < |prefix| ensures prefix[k].MouseMove? { assert prefix[k] == moves[k]; }
      }
      MovesTrackAnchor(s, prefix);
      assert Last(moves).MouseMove?;
      var a := s.initialPosition;
      assert MovingLog(a, moves) == MovingLog(a, prefix) + [Notification(Moving, Position(Last(moves).clientX + a.x, Last(moves).clientY + a.y))];
    }
  }

  /** The element follows the pointer 1:1: if the element's offsets equal the position at a
      press at (px, py), every run of moves before a release leaves the element displaced by
      exactly the pointer's displacement since the press, and each `moving` reports that. */
  lemma FollowsPointer(s: DragState, px: int, py: int, moves: seq<Input>)
    requires AllMoves(moves)
    ensures var r := Run(OnMouseDown(s, s.left, s.top, px, py), moves);
      && r.session == Dragging
      && |r.log| == |s.log| + 1 + |moves| && r.log[..|s.log|] == s.log
      && r.log[|s.log|] == Notification(MoveStart, Position(s.left, s.top))
      && (forall k :: 0 <= k < |moves| ==>
            r.log[|s.log| + 1 + k] == Notification(Moving, Position(s.left + moves[k].clientX - px, s.top + moves[k].clientY - py)))
      && (moves != [] ==> r.left == s.left + Last(moves).clientX - px && r.top == s.top + Last(moves).clientY - py)
      && (moves == [] ==> r.left == s.left && r.top == s.top)
  {
    var p := OnMouseDown(s, s.left, s.top, px, py);
    MovesTrackAnchor(p, moves);
    var r := Run(p, moves);
    assert r.log == p.log + MovingLog(p.initialPosition, moves);
    assert r.log[..|p.log|] == p.log;
    assert r.log[..|s.log|] == p.log[..|s.log|];
    forall k | 0 <= k < |moves|
      ensures r.log[|s.log| + 1 + k] == Notification(Moving, Position(s.left + moves[k].clientX - px, s.top + moves[k].clientY - py))
    {
      assert r.log[|p.log| + k] == MovingLog(p.initialPosition, moves)[k];
    }
  }

  /** A press immediately followed by a release reports the same position twice and moves nothing. */
  lemma PressThenRelease(s: DragState, offsetLeft: int, offsetTop: int, clientX: int, clientY: int)
    requires Valid(s)
    ensures var r := Dispatch(Dispatch(s, MouseDown(offsetLeft, offsetTop, clientX, clientY)), MouseUp);
      && r.left == s.left && r.top == s.top
      && r.log == s.log + [Notification(MoveStart, Position(s.left, s.top)), Notification(MoveEnd, Position(s.left, s.top))]
      && r.listeners == {} && r.session == Idle && !r.selected
  {
  }

  /** Disposal is idempotent and a no-op while no drag is in progress. The press listener
      survives it, so any press afterwards opens a new drag exactly as before disposal. */
  lemma DestroyIdempotent(s: DragState, offsetLeft: int, offsetTop: int, clientX: int, clientY: int)
    requires Valid(s)
    ensures OnDestroy(OnDestroy(s)) == OnDestroy(s)
    ensures s.session == Idle ==> OnDestroy(s) == s
    ensures var r := Dispatch(OnDestroy(s), MouseDown(offsetLeft, offsetTop, clientX, clientY));
      && Valid(r) && r.listeners == GLOBAL_LISTENERS && r.session == Dragging && r.selected
      && r.initialPosition == Anchor(offsetLeft - clientX, offsetTop - clientY)
      && r.log == s.log + [Notification(MoveStart, Position(s.left, s.top))]
  {
    DestroyPreservesValid(s);
    PressPreservesValid(OnDestroy(s), offsetLeft, offsetTop, clientX, clientY);
  }

  /** A drag from start to end: created at (50, 20), pressed at (100, 100), moved to (120, 110), released. */
  lemma DragScenario()
    ensures var r := Run(Initial(Some(MoveOptions(Some(InitialPosition(Some(50), Some(20)))))),
                         [MouseDown(50, 20, 100, 100), MouseMove(120, 110), MouseUp]);
      && r.initialPosition == Anchor(-50, -80)
      && r.left == 70 && r.top == 30 && r.listeners == {}
      && r.log == [Notification(MoveStart, Position(50, 20)), Notification(Moving, Position(70, 30)),
                   Notification(MoveEnd, Position(70, 30))]
  {
    var s0 := Initial(Some(MoveOptions(Some(InitialPosition(Some(50), Some(20))))));
    var inputs := [MouseDown(50, 20, 100, 100), MouseMove(120, 110), MouseUp];
    assert inputs[..2][..1][..0] == [];
    assert Run(s0, inputs[..2][..1]) == OnMouseDown(s0, 50, 20, 100, 100);
    assert Run(s0, inputs[..2]) == OnMove(OnMouseDown(s0, 50, 20, 100, 100), 120, 110);
    assert Run(s0, inputs) == OnMouseUp(OnMove(OnMouseDown(s0, 50, 20, 100, 100), 120, 110));
  }
}
