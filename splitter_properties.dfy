/**
 * Properties of the splitter's state machine that relate several handler
 * calls: drag deltas telescope, the listeners decide which moves count, the
 * toggle is a round trip, collapses settle once observed, and the keyboard
 * table gates arrow keys only.
 */
module SplitterProperties {
  import opened CssValue
  import opened SplitterModel

  /** Every event in the run is a pointer move. */
  predicate AllMoves(events: seq<PointerInput>)
  {
    forall i :: 0 <= i < |events| ==> events[i].Move?
  }

  /** The axis coordinate of the last move of a non-empty run. */
  function FinalCoordinate(direction: string, events: seq<PointerInput>): int
    requires |events| > 0 && events[|events| - 1].Move?
  {
    AxisCoordinate(direction, events[|events| - 1].pageX, events[|events| - 1].pageY)
  }

  // ---------------------------------------------------------------------------
  // Drag controller

  /** The state a drag reaches: the movement and the recorded location written, nothing else. */
  function Dragged(s: State, movement: int, location: int): State
  {
    SetMovement(s, movement).(currentPointerLocation := Some(location))
  }

  /** A later drag state overwrites an earlier one, and two drag deltas add up. */
  lemma DraggedTwice(s: State, start: int, c: int, e: int)
    ensures var t := Dragged(s, s.totalMovement + c - start, c);
      Dragged(t, t.totalMovement + e - c, e) == Dragged(s, s.totalMovement + e - start, e)
  {
  }

  /**
   * What a move needs to be delivered as a drag step: a persistent move
   * listener, a recorded location, and the CSS variable mirroring the movement.
   */
  predicate DragArmed(s: State)
  {
    && PointerMove in s.listeners && s.listeners[PointerMove] == Persistent
    && s.currentPointerLocation.Some?
    && s.movementProperty == Px(s.totalMovement)
  }

  /** In a consistent state, an attached move listener means a drag is armed. */
  lemma ArmedWhenAttached(s: State)
    requires Consistent(s) && PointerMove in s.listeners
    ensures DragArmed(s)
  {
  }

  /** The move callback alone applied to each move of a run, in turn. */
  function MoveCallbacks(s: State, direction: string, events: seq<PointerInput>): State
    decreases |events|
  {
    if events == [] then s
    else
      var t := if events[0].Move? then PointerMoveStep(s, direction, events[0].pageX, events[0].pageY) else s;
      MoveCallbacks(t, direction, events[1..])
  }

  /** From a recorded location, the move callback is one drag step. */
  lemma MoveStepDrags(s: State, direction: string, x: int, y: int, start: int)
    requires s.currentPointerLocation == Some(start) && s.movementProperty == Px(s.totalMovement)
    ensures var c := AxisCoordinate(direction, x, y);
      PointerMoveStep(s, direction, x, y) == Dragged(s, s.totalMovement + c - start, c)
  {
  }

  /** Running the callbacks of a non-empty run is running the first, then the rest. */
  lemma CallbacksFirst(s: State, direction: string, events: seq<PointerInput>)
    requires events != [] && events[0].Move?
    ensures MoveCallbacks(s, direction, events)
      == MoveCallbacks(PointerMoveStep(s, direction, events[0].pageX, events[0].pageY), direction, events[1..])
  {
  }

  /** One delivered move during a drag runs the move callback and keeps the drag armed. */
  lemma MoveDelivered(s: State, direction: string, ev: PointerInput)
    requires DragArmed(s) && ev.Move?
    ensures Dispatch(s, direction, ev) == PointerMoveStep(s, direction, ev.pageX, ev.pageY)
    ensures DragArmed(Dispatch(s, direction, ev))
  {
  }

  /** Every move of a run that starts with a drag armed is delivered to the move callback. */
  lemma {:induction false} MovesReachCallback(s: State, direction: string, events: seq<PointerInput>)
    requires DragArmed(s) && AllMoves(events)
    ensures DeliverAll(s, direction, events) == MoveCallbacks(s, direction, events)
    decreases |events|
  {
    if events != [] {
      var rest := events[1..];
      var t := PointerMoveStep(s, direction, events[0].pageX, events[0].pageY);
      assert DeliverAll(s, direction, events) == DeliverAll(t, direction, rest) && DragArmed(t) by {
        MoveDelivered(s, direction, events[0]);
      }
      assert MoveCallbacks(s, direction, events) == MoveCallbacks(t, direction, rest);
      assert AllMoves(rest) by {
        forall i | 0 <= i < |rest| ensures rest[i].Move? {
          assert rest[i] == events[i + 1];
        }
      }
      MovesReachCallback(t, direction, rest);
    }
  }

  /** The tail of a run of moves is a run of moves ending at the same coordinate. */
  lemma MovesTail(direction: string, events: seq<PointerInput>)
    requires |events| > 1 && AllMoves(events)
    ensures AllMoves(events[1..])
    ensures FinalCoordinate(direction, events[1..]) == FinalCoordinate(direction, events)
  {
    var rest := events[1..];
    forall i | 0 <= i < |rest| ensures rest[i].Move? {
      assert rest[i] == events[i + 1];
    }
    assert rest[|rest| - 1] == events[|events| - 1];
  }

  /**
   * The move callback telescopes: over a run of moves that starts from the
   * recorded location and ends at coordinate `e`, it raises the movement by
   * exactly `e` minus that location, records `e`, and changes nothing else.
   */
  lemma {:induction false} CallbacksTelescope(s: State, direction: string, events: seq<PointerInput>, start: int, e: int)
    requires s.currentPointerLocation == Some(start) && s.movementProperty == Px(s.totalMovement)
    requires |events| > 0 && AllMoves(events) && e == FinalCoordinate(direction, events)
    ensures MoveCallbacks(s, direction, events) == Dragged(s, s.totalMovement + e - start, e)
    decreases |events|
  {
    var first, rest := events[0], events[1..];
    var c := AxisCoordinate(direction, first.pageX, first.pageY);
    var t := Dragged(s, s.totalMovement + c - start, c);
    MoveStepDrags(s, direction, first.pageX, first.pageY, start);
    CallbacksFirst(s, direction, events);
    if rest == [] {
      assert MoveCallbacks(t, direction, rest) == t;
    } else {
      MovesTail(direction, events);
      CallbacksTelescope(t, direction, rest, c, e);
      DraggedTwice(s, start, c, e);
    }
  }

  /**
   * While a drag is armed, a run of moves that starts from the recorded
   * location and ends at coordinate `e` raises the movement by exactly
   * `e` minus that location, records `e`, and changes nothing else.
   */
  lemma DragTelescopes(s: State, direction: string, events: seq<PointerInput>)
    requires DragArmed(s)
    requires |events| > 0 && AllMoves(events)
    ensures var e := FinalCoordinate(direction, events);
      DeliverAll(s, direction, events) == Dragged(s, s.totalMovement + e - s.currentPointerLocation.value, e)
  {
    MovesReachCallback(s, direction, events);
    CallbacksTelescope(s, direction, events, s.currentPointerLocation.value, FinalCoordinate(direction, events));
  }

  /** With no move listener attached, a run of moves changes nothing at all. */
  lemma {:induction false} DetachedMovesAreInert(s: State, direction: string, events: seq<PointerInput>)
    requires PointerMove !in s.listeners && AllMoves(events)
    ensures DeliverAll(s, direction, events) == s
    decreases |events|
  {
    if events != [] {
      var rest := events[1..];
      assert Dispatch(s, direction, events[0]) == s;
      assert forall i :: 0 <= i < |rest| ==> rest[i] == events[i + 1];
      DetachedMovesAreInert(s, direction, rest);
    }
  }

  /**
   * A pointerup ends the drag: the flag and the active class go off, pointerup
   * itself stays attached, and no later move changes the state.
   */
  lemma PointerUpEndsDrag(s: State, direction: string, events: seq<PointerInput>)
    requires Consistent(s) && PointerUp in s.listeners && AllMoves(events)
    ensures var t := Dispatch(s, direction, Up);
      && t == StopListening(s)
      && !t.isBeingDragged && !t.activeClass && PointerUp in t.listeners
      && DeliverAll(t, direction, events) == t
  {
    DetachedMovesAreInert(StopListening(s), direction, events);
  }

  /**
   * A pointerleave during a drag clears the flag but leaves the move listener
   * attached, so later moves still drive the movement from the location
   * recorded before the leave.
   */
  lemma MovesContinueAfterLeave(s: State, direction: string, events: seq<PointerInput>)
    requires Consistent(s) && PointerMove in s.listeners && PointerLeave in s.listeners
    requires |events| > 0 && AllMoves(events)
    ensures var t := Dispatch(s, direction, Leave);
      && !t.isBeingDragged && PointerMove in t.listeners && PointerEnter in t.listeners
      && DeliverAll(t, direction, events).totalMovement
           == s.totalMovement + FinalCoordinate(direction, events) - s.currentPointerLocation.value
  {
    var t := Dispatch(s, direction, Leave);
    ArmedWhenAttached(t);
    DragTelescopes(t, direction, events);
  }

  /**
   * Once the pointer leaves and re-enters the host mid-drag, the flag is on
   * again while the move listener is still attached: a further pointerdown is
   * refused, yet moves keep changing the movement.
   */
  lemma ReentryRefusesPointerDown(s: State, direction: string, x: int, y: int,
                                  buttons: int, onSeparator: bool, x': int, y': int)
    requires Consistent(s) && AcceptsPointerDown(s, 1, true)
    ensures var t := Dispatch(Dispatch(PointerDown(s, direction, 1, true, x, y), direction, Leave), direction, Enter);
      && t.isBeingDragged && PointerMove in t.listeners
      && PointerDown(t, direction, buttons, onSeparator, x', y') == t
  {
  }

  /**
   * The `web-splitter--active` class follows the flag at pointerdown but not at
   * pointerleave: after leaving mid-drag the class is still on while the flag is off.
   */
  lemma ActiveClassLagsLeave(s: State, direction: string, x: int, y: int)
    requires Consistent(s) && AcceptsPointerDown(s, 1, true)
    ensures var down := PointerDown(s, direction, 1, true, x, y);
      && down.activeClass == down.isBeingDragged
      && var t := Dispatch(down, direction, Leave); t.activeClass && !t.isBeingDragged
  {
  }

  // ---------------------------------------------------------------------------
  // Movement model

  /** Toggling twice, starting without a snapshot, restores the whole state. */
  lemma ToggleRoundTrip(s: State, primaryWidth: int, separatorWidth: int, primaryWidth': int, separatorWidth': int)
    requires Consistent(s) && s.previousMovement.None?
    ensures TogglePrimary(TogglePrimary(s, primaryWidth, separatorWidth), primaryWidth', separatorWidth') == s
  {
  }

  /**
   * The collapse guard reads the observed flag, not the geometry: until an
   * observation reports width 0, a second collapse moves the boundary again.
   */
  lemma CollapseRepeatsUntilObserved(s: State, primaryWidth: int, separatorWidth: int)
    requires !s.isPrimaryCollapsed
    ensures var step := primaryWidth + (if s.isSecondaryCollapsed then separatorWidth else 0);
      CollapsePrimary(CollapsePrimary(s, primaryWidth, separatorWidth), primaryWidth, separatorWidth).totalMovement
        == s.totalMovement - 2 * step
  {
  }

  /** Once the primary pane has been observed at width 0, collapsing it again changes nothing. */
  lemma CollapseSettlesOnceObserved(s: State, primaryWidth: int, separatorWidth: int,
                                    primaryWidth': int, separatorWidth': int)
    ensures var t := ObservePrimary(CollapsePrimary(s, primaryWidth, separatorWidth), 0);
      CollapsePrimary(t, primaryWidth', separatorWidth') == t
  {
  }

  /**
   * Collapsing the primary pane and then, once it is observed collapsed, the
   * secondary pane moves the boundary by the secondary width plus the
   * separator width minus the primary width.
   */
  lemma CollapseBothPanes(s: State, primaryWidth: int, separatorWidth: int, secondaryWidth: int)
    requires !s.isPrimaryCollapsed && !s.isSecondaryCollapsed
    ensures var t := CollapseSecondary(ObservePrimary(CollapsePrimary(s, primaryWidth, separatorWidth), 0),
                                       secondaryWidth, separatorWidth);
      t.totalMovement == s.totalMovement - primaryWidth + secondaryWidth + separatorWidth
  {
  }

  // ---------------------------------------------------------------------------
  // Keyboard

  /** In a horizontal, unfixed element only ArrowLeft and ArrowRight move, by one each. */
  lemma HorizontalArrowKeys(s: State, g: Geometry)
    ensures KeyDown(s, "horizontal", false, "ArrowLeft", true, g).totalMovement == s.totalMovement - 1
    ensures KeyDown(s, "horizontal", false, "ArrowRight", true, g).totalMovement == s.totalMovement + 1
    ensures KeyDown(s, "horizontal", false, "ArrowUp", true, g) == s
    ensures KeyDown(s, "horizontal", false, "ArrowDown", true, g) == s
  {
  }

  /** In a vertical, unfixed element only ArrowUp and ArrowDown move, by one each. */
  lemma VerticalArrowKeys(s: State, g: Geometry)
    ensures KeyDown(s, "vertical", false, "ArrowUp", true, g).totalMovement == s.totalMovement - 1
    ensures KeyDown(s, "vertical", false, "ArrowDown", true, g).totalMovement == s.totalMovement + 1
    ensures KeyDown(s, "vertical", false, "ArrowLeft", true, g) == s
    ensures KeyDown(s, "vertical", false, "ArrowRight", true, g) == s
  {
  }

  /** Each arrow key is disabled only by the other axis, so an unrecognised direction enables all four. */
  lemma UnrecognisedDirectionEnablesAllArrows(s: State, direction: string, key: string, g: Geometry)
    requires direction != "horizontal" && direction != "vertical" && IsArrowKey(key)
    ensures KeyDown(s, direction, false, key, true, g) == SetMovement(s, s.totalMovement + ArrowStep(key))
    ensures ArrowStep(key) == -1 || ArrowStep(key) == 1
  {
  }

  /**
   * `is-fixed` blocks the arrow keys and nothing else: End, Home, Enter and
   * every other key do the same whether the element is fixed or not.
   */
  lemma FixedBlocksOnlyArrowKeys(s: State, direction: string, key: string, onSeparator: bool, g: Geometry)
    ensures IsArrowKey(key) ==> KeyDown(s, direction, true, key, onSeparator, g) == s
    ensures !IsArrowKey(key) ==>
      KeyDown(s, direction, true, key, onSeparator, g) == KeyDown(s, direction, false, key, onSeparator, g)
  {
  }
}
