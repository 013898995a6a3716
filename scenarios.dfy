/**
 * Client code driving one element through concrete interactions (collapses,
 * drags, key presses, observations), with the outcome each produces.
 */
module Scenarios {
  import opened SplitterModel
  import opened WebSplitterElement

  /** A new element with no attributes is horizontal, unfixed, neutral and idle. */
  method FreshElement() returns (direction: string, isFixed: bool, movement: int, dragged: bool,
                                 location: Option<int>, snapshot: Option<int>)
    ensures direction == "horizontal" && !isFixed && movement == 0 && !dragged
    ensures location == None && snapshot == None
  {
    var w := new WebSplitter(None, false);
    direction, isFixed, movement, dragged := w.direction, w.isFixed, w.totalMovement, w.isBeingDragged;
    location, snapshot := w.currentPointerLocation, w.previousMovement;
  }

  /**
   * Panes 300 wide around a 14-wide separator: collapsing the primary pane
   * moves by 300; once it is observed at width 0, collapsing the secondary pane
   * moves by 314, for a net 14.
   */
  method CollapseBothPanes() returns (afterPrimary: int, afterSecondary: int, property: string)
    ensures afterPrimary == -300 && afterSecondary == 14 && property == "14px"
  {
    var w := new WebSplitter(None, false);
    w.CollapsePrimaryPane(300, 14);
    afterPrimary := w.totalMovement;
    w.ObservePrimaryWidth(0);
    w.CollapseSecondaryPane(300, 14);
    afterSecondary, property := w.totalMovement, w.movementProperty;
  }

  /**
   * A pointerdown on the separator at x = 100 arms the drag; a move to 140 adds
   * 40; the pointerup ends it, and a later move changes nothing.
   */
  method DragAndRelease() returns (afterMove: int, draggedAfterUp: bool, activeAfterUp: bool, afterLateMove: int)
    ensures afterMove == 40 && !draggedAfterUp && !activeAfterUp && afterLateMove == 40
  {
    var w := new WebSplitter(None, false);
    w.HandlePointerDown(1, true, 100, 7);
    w.DispatchPointerEvent(Move(140, 9));
    afterMove := w.totalMovement;
    w.DispatchPointerEvent(Up);
    draggedAfterUp, activeAfterUp := w.isBeingDragged, w.activeClass;
    w.DispatchPointerEvent(Move(200, 9));
    afterLateMove := w.totalMovement;
  }

  /**
   * A drag that leaves the host and comes back: the move listener survives the
   * leave, the re-entry turns the flag back on so a new pointerdown is refused,
   * and moves keep changing the movement.
   */
  method LeaveAndReenter() returns (activeAfterLeave: bool, draggedAfterLeave: bool,
                                    activeAfterReentry: bool, draggedAfterReentry: bool,
                                    locationAfterRefusedDown: Option<int>, afterMove: int)
    ensures activeAfterLeave && !draggedAfterLeave
    ensures activeAfterReentry && draggedAfterReentry
    ensures locationAfterRefusedDown == Some(100) && afterMove == 30
  {
    var w := new WebSplitter(None, false);
    w.HandlePointerDown(1, true, 100, 0);
    assert w.listeners == map[PointerMove := Persistent, PointerUp := Persistent, PointerLeave := Persistent];
    w.DispatchPointerEvent(Leave);
    assert w.totalMovement == 0 && w.currentPointerLocation == Some(100);
    assert PointerEnter in w.listeners && PointerMove in w.listeners;
    activeAfterLeave, draggedAfterLeave := w.activeClass, w.isBeingDragged;
    w.DispatchPointerEvent(Enter);
    assert w.isBeingDragged && PointerMove in w.listeners;
    activeAfterReentry, draggedAfterReentry := w.activeClass, w.isBeingDragged;
    w.HandlePointerDown(1, true, 500, 0);
    locationAfterRefusedDown := w.currentPointerLocation;
    w.DispatchPointerEvent(Move(130, 0));
    afterMove := w.totalMovement;
  }

  /** A vertical drag follows `pageY`; a pointerdown with another button mask is refused. */
  method VerticalDrag() returns (refusedDragged: bool, afterMove: int)
    ensures !refusedDragged && afterMove == -25
  {
    var w := new WebSplitter(Some("vertical"), false);
    w.HandlePointerDown(3, true, 0, 50);
    refusedDragged := w.isBeingDragged;
    w.HandlePointerDown(1, true, 0, 50);
    w.DispatchPointerEvent(Move(999, 25));
    afterMove := w.totalMovement;
  }

  /**
   * ArrowRight moves a horizontal element by one and a vertical or fixed one
   * not at all; End still collapses the secondary pane of a fixed element and
   * prevents the default action.
   */
  method ArrowRightAndEnd() returns (horizontal: int, vertical: int, fixed: int, fixedEnd: int, prevented: bool)
    ensures horizontal == 1 && vertical == 0 && fixed == 0 && fixedEnd == 320 && prevented
  {
    var g := Geometry(300, 14, 320);
    var h := new WebSplitter(None, false);
    var _ := h.HandleKeyDown("ArrowRight", true, g);
    horizontal := h.totalMovement;
    var v := new WebSplitter(Some("vertical"), false);
    var _ := v.HandleKeyDown("ArrowRight", true, g);
    vertical := v.totalMovement;
    var f := new WebSplitter(None, true);
    var _ := f.HandleKeyDown("ArrowRight", true, g);
    fixed := f.totalMovement;
    prevented := f.HandleKeyDown("End", true, g);
    fixedEnd := f.totalMovement;
  }

  /** Enter twice collapses the primary pane and then restores the earlier position. */
  method EnterTwice() returns (collapsed: int, restored: int, snapshot: Option<int>)
    ensures collapsed == -295 && restored == 5 && snapshot == None
  {
    var g := Geometry(300, 14, 320);
    var w := new WebSplitter(None, false);
    w.SetTotalMovement(5);
    var _ := w.HandleKeyDown("Enter", true, g);
    collapsed := w.totalMovement;
    var _ := w.HandleKeyDown("Enter", true, g);
    restored, snapshot := w.totalMovement, w.previousMovement;
  }

  /**
   * While connected, a zero-width observation collapses the primary pane and
   * hides its wrapper; a later non-zero one clears both; once disconnected, no
   * observation arrives.
   */
  method ObserveWhileConnected() returns (hiddenAtZero: Option<string>, collapsedAtZero: bool,
                                          hiddenAfter: Option<string>, collapsedAfterDisconnect: bool)
    ensures hiddenAtZero == Some("true") && collapsedAtZero
    ensures hiddenAfter == None && !collapsedAfterDisconnect
  {
    var w := new WebSplitter(None, false);
    w.ConnectedCallback();
    w.DeliverResizeObservation(Primary, 0);
    hiddenAtZero, collapsedAtZero := w.primaryAriaHidden, w.isPrimaryCollapsed;
    w.DeliverResizeObservation(Primary, 250);
    hiddenAfter := w.primaryAriaHidden;
    w.DisconnectedCallback();
    w.DeliverResizeObservation(Primary, 0);
    collapsedAfterDisconnect := w.isPrimaryCollapsed;
  }

  /** The container's classes include the active one exactly while a drag is armed. */
  method ContainerClassesDuringDrag() returns (idle: string, dragging: string)
    ensures idle == "web-splitter " && dragging == "web-splitter web-splitter--active "
  {
    var w := new WebSplitter(None, false);
    idle := w.GenerateContainerClasses();
    w.HandlePointerDown(1, true, 10, 10);
    dragging := w.GenerateContainerClasses();
  }

  /** Once the `separator` getter has resolved an element, later reads return the same one. */
  method SeparatorIsCached() returns (first: Element, second: Element)
    ensures first == DefaultSeparator && second == first
  {
    var w := new WebSplitter(None, false);
    first := w.Separator();
    second := w.Separator();
  }
}
