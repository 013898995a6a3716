/**
 * The interaction state machine of the `web-splitter` element, as values.
 *
 * `State` holds everything the element's handlers read or write; each handler
 * of the element is one function from the state before to the state after.
 * Geometry (`getBoundingClientRect`, `ResizeObserver` entries), pointer
 * coordinates and whether an event's composed path contains the separator are
 * parameters. Pixel values, which the browser delivers as doubles, are `int`.
 */
module SplitterModel {
  import opened CssValue

  datatype Option<T> = None | Some(value: T)

  /** The pointer events whose listeners the element attaches and detaches while it runs. */
  datatype EventKind = PointerMove | PointerUp | PointerLeave | PointerEnter

  /** How a listener was attached: plainly, or with `{ once: true }`. */
  datatype Mode = Persistent | Once

  /** A pointer event delivered to the host element. */
  datatype PointerInput = Move(pageX: int, pageY: int) | Up | Leave | Enter

  /** The rendered widths a keyboard command may measure. */
  datatype Geometry = Geometry(primaryWidth: int, separatorWidth: int, secondaryWidth: int)

  datatype Pane = Primary | Secondary

  /**
   * The element's state. `listeners` records, per event kind, whether its one
   * callback is attached and how (each kind has exactly one callback, so the
   * DOM's duplicate check and `once` removal act per kind). The last six fields
   * are the DOM the handlers keep in step: the container's
   * `--web-splitter-movement`, each wrapper's `aria-hidden` attribute, the
   * container's `web-splitter--active` class, and whether each pane's
   * `ResizeObserver` is observing.
   */
  datatype State = State(
    totalMovement: int,
    isPrimaryCollapsed: bool,
    isSecondaryCollapsed: bool,
    isBeingDragged: bool,
    currentPointerLocation: Option<int>,
    previousMovement: Option<int>,
    listeners: map<EventKind, Mode>,
    movementProperty: string,
    primaryAriaHidden: Option<string>,
    secondaryAriaHidden: Option<string>,
    activeClass: bool,
    observingPrimary: bool,
    observingSecondary: bool)

  /** The value of a wrapper's `aria-hidden` attribute: `"true"` when collapsed, absent otherwise. */
  function AriaHidden(collapsed: bool): Option<string>
  {
    if collapsed then Some("true") else None
  }

  /**
   * What every handler keeps true: the custom property mirrors the movement,
   * each wrapper is hidden from assistive technology exactly when its pane is
   * collapsed, a move listener is only attached once a pointer location has
   * been recorded, and pointermove/pointerup are only attached plainly while
   * pointerenter is only attached as a one-shot.
   */
  ghost predicate Consistent(s: State)
  {
    && s.movementProperty == Px(s.totalMovement)
    && s.primaryAriaHidden == AriaHidden(s.isPrimaryCollapsed)
    && s.secondaryAriaHidden == AriaHidden(s.isSecondaryCollapsed)
    && (PointerMove in s.listeners ==> s.listeners[PointerMove] == Persistent && s.currentPointerLocation.Some?)
    && (PointerUp in s.listeners ==> s.listeners[PointerUp] == Persistent)
    && (PointerEnter in s.listeners ==> s.listeners[PointerEnter] == Once)
  }

  /** A freshly constructed element. The custom property then has the stylesheet's `0px`. */
  function Initial(): (r: State)
    ensures Consistent(r)
    ensures r.listeners == map[] && !r.observingPrimary && !r.observingSecondary
  {
    State(0, false, false, false, None, None, map[], "0px", None, None, false, false, false)
  }

  /** `addEventListener`: a kind already attached keeps its registration. */
  function Attach(listeners: map<EventKind, Mode>, kind: EventKind, mode: Mode): (r: map<EventKind, Mode>)
    ensures kind in r && forall k :: k in r <==> k in listeners || k == kind
    ensures forall k :: k in listeners ==> r[k] == listeners[k]
    ensures kind !in listeners ==> r[kind] == mode
  {
    if kind in listeners then listeners else listeners[kind := mode]
  }

  /** The `totalMovement` setter: the value and the custom property are written together. */
  function SetMovement(s: State, value: int): (r: State)
    ensures r.totalMovement == value && r.movementProperty == Px(value)
    ensures Consistent(s) ==> Consistent(r)
  {
    s.(totalMovement := value, movementProperty := Px(value))
  }

  /** The pointer coordinate on the element's axis: `pageY` when vertical, `pageX` otherwise. */
  function AxisCoordinate(direction: string, pageX: int, pageY: int): (c: int)
    ensures direction == "vertical" ==> c == pageY
    ensures direction != "vertical" ==> c == pageX
  {
    if direction == "vertical" then pageY else pageX
  }

  /** The recorded location as the subtraction `currLocation - prevLocation` reads it: `null` counts as 0. */
  function RecordedLocation(s: State): int
  {
    match s.currentPointerLocation
    case None => 0
    case Some(p) => p
  }

  // ---------------------------------------------------------------------------
  // Size observation

  /** `observePrimaryWidth`: the primary pane is collapsed exactly when it was observed at width 0. */
  function ObservePrimary(s: State, width: int): (r: State)
    ensures r.isPrimaryCollapsed <==> width == 0
    ensures r.primaryAriaHidden == (if width == 0 then Some("true") else None)
    ensures r.(isPrimaryCollapsed := s.isPrimaryCollapsed, primaryAriaHidden := s.primaryAriaHidden) == s
    ensures Consistent(s) ==> Consistent(r)
  {
    var collapsed := width == 0;
    if collapsed then s.(isPrimaryCollapsed := collapsed, primaryAriaHidden := Some("true"))
    else s.(isPrimaryCollapsed := collapsed, primaryAriaHidden := None)
  }

  /** `observeSecondaryWidth`: the secondary pane is collapsed exactly when it was observed at width 0. */
  function ObserveSecondary(s: State, width: int): (r: State)
    ensures r.isSecondaryCollapsed <==> width == 0
    ensures r.secondaryAriaHidden == (if width == 0 then Some("true") else None)
    ensures r.(isSecondaryCollapsed := s.isSecondaryCollapsed, secondaryAriaHidden := s.secondaryAriaHidden) == s
    ensures Consistent(s) ==> Consistent(r)
  {
    var collapsed := width == 0;
    if collapsed then s.(isSecondaryCollapsed := collapsed, secondaryAriaHidden := Some("true"))
    else s.(isSecondaryCollapsed := collapsed, secondaryAriaHidden := None)
  }

  /** A resize observation reaches its callback only while that pane's observer is observing. */
  function DeliverResize(s: State, pane: Pane, width: int): (r: State)
    ensures pane == Primary && !s.observingPrimary ==> r == s
    ensures pane == Secondary && !s.observingSecondary ==> r == s
    ensures pane == Primary && s.observingPrimary ==> r == ObservePrimary(s, width)
    ensures pane == Secondary && s.observingSecondary ==> r == ObserveSecondary(s, width)
    ensures Consistent(s) ==> Consistent(r)
  {
    match pane
    case Primary => if s.observingPrimary then ObservePrimary(s, width) else s
    case Secondary => if s.observingSecondary then ObserveSecondary(s, width) else s
  }

  /** `connectedCallback`: both observers start observing. */
  function Connected(s: State): (r: State)
    ensures r.observingPrimary && r.observingSecondary
    ensures r.(observingPrimary := s.observingPrimary, observingSecondary := s.observingSecondary) == s
    ensures Consistent(s) ==> Consistent(r)
  {
    s.(observingPrimary := true, observingSecondary := true)
  }

  /** `disconnectedCallback`: both observers are disconnected. */
  function Disconnected(s: State): (r: State)
    ensures !r.observingPrimary && !r.observingSecondary
    ensures r.(observingPrimary := s.observingPrimary, observingSecondary := s.observingSecondary) == s
    ensures Consistent(s) ==> Consistent(r)
  {
    s.(observingPrimary := false, observingSecondary := false)
  }

  // ---------------------------------------------------------------------------
  // Movement model

  /**
   * `collapsePrimaryPane`: nothing happens while the primary pane is collapsed;
   * otherwise the boundary moves left by the primary pane's width, and also by
   * the separator's when the secondary pane is collapsed. Only the movement is written.
   */
  function CollapsePrimary(s: State, primaryWidth: int, separatorWidth: int): (r: State)
    ensures s.isPrimaryCollapsed ==> r == s
    ensures !s.isPrimaryCollapsed ==>
      s.totalMovement - r.totalMovement == primaryWidth + (if s.isSecondaryCollapsed then separatorWidth else 0)
    ensures !s.isPrimaryCollapsed ==> r == SetMovement(s, r.totalMovement)
    ensures Consistent(s) ==> Consistent(r)
  {
    if s.isPrimaryCollapsed then s
    else
      var movement := s.totalMovement - primaryWidth;
      var movement' := if s.isSecondaryCollapsed then movement - separatorWidth else movement;
      SetMovement(s, movement')
  }

  /**
   * `collapseSecondaryPane`: nothing happens while the secondary pane is
   * collapsed; otherwise the boundary moves right by the secondary pane's
   * width, and also by the separator's when the primary pane is collapsed.
   */
  function CollapseSecondary(s: State, secondaryWidth: int, separatorWidth: int): (r: State)
    ensures s.isSecondaryCollapsed ==> r == s
    ensures !s.isSecondaryCollapsed ==>
      r.totalMovement - s.totalMovement == secondaryWidth + (if s.isPrimaryCollapsed then separatorWidth else 0)
    ensures !s.isSecondaryCollapsed ==> r == SetMovement(s, r.totalMovement)
    ensures Consistent(s) ==> Consistent(r)
  {
    if s.isSecondaryCollapsed then s
    else
      var movement := s.totalMovement + secondaryWidth;
      var movement' := if s.isPrimaryCollapsed then movement + separatorWidth else movement;
      SetMovement(s, movement')
  }

  /**
   * `togglePrimaryPane`: with no snapshot, remember the movement (even when the
   * collapse that follows does nothing) and collapse the primary pane; with a
   * snapshot, restore it and forget it. Collapse flags are never written.
   */
  function TogglePrimary(s: State, primaryWidth: int, separatorWidth: int): (r: State)
    ensures s.previousMovement.None? ==> r.previousMovement == Some(s.totalMovement)
    ensures s.previousMovement.None? ==>
      r.(previousMovement := None) == CollapsePrimary(s, primaryWidth, separatorWidth)
    ensures s.previousMovement.Some? ==>
      r == Remember(SetMovement(s, s.previousMovement.value), None)
    ensures r.isPrimaryCollapsed == s.isPrimaryCollapsed && r.isSecondaryCollapsed == s.isSecondaryCollapsed
    ensures Consistent(s) ==> Consistent(r)
  {
    match s.previousMovement
    case None =>
      CollapsePrimary(Remember(s, Some(s.totalMovement)), primaryWidth, separatorWidth)
    case Some(previous) =>
      Remember(SetMovement(s, previous), None)
  }

  /** Writes the toggle's snapshot; no other field changes. */
  function Remember(s: State, snapshot: Option<int>): (r: State)
    ensures r.previousMovement == snapshot
    ensures r.(previousMovement := s.previousMovement) == s
    ensures Consistent(s) ==> Consistent(r)
  {
    s.(previousMovement := snapshot)
  }

  // ---------------------------------------------------------------------------
  // Keyboard

  predicate IsArrowKey(key: string)
  {
    key == "ArrowLeft" || key == "ArrowRight" || key == "ArrowUp" || key == "ArrowDown"
  }

  /** The step an arrow key asks for: towards the start (-1) or towards the end (+1). */
  function ArrowStep(key: string): int
  {
    if key == "ArrowLeft" || key == "ArrowUp" then -1 else 1
  }

  /** The direction whose value disables an arrow key: the other axis. */
  function BlockingDirection(key: string): string
  {
    if key == "ArrowLeft" || key == "ArrowRight" then "vertical" else "horizontal"
  }

  /**
   * `handleKeyDown`. Keys pressed outside the separator change nothing. An
   * arrow key moves the boundary by one unless the element is fixed or its
   * direction is the other axis; End, Home and Enter collapse the secondary
   * pane, collapse the primary pane and toggle, whether fixed or not; any other
   * key changes nothing.
   */
  function KeyDown(s: State, direction: string, isFixed: bool, key: string, onSeparator: bool, g: Geometry): (r: State)
    ensures !onSeparator ==> r == s
    ensures onSeparator && IsArrowKey(key) ==>
      r == if !isFixed && direction != BlockingDirection(key) then SetMovement(s, s.totalMovement + ArrowStep(key)) else s
    ensures onSeparator && key == "End" ==> r == CollapseSecondary(s, g.secondaryWidth, g.separatorWidth)
    ensures onSeparator && key == "Home" ==> r == CollapsePrimary(s, g.primaryWidth, g.separatorWidth)
    ensures onSeparator && key == "Enter" ==> r == TogglePrimary(s, g.primaryWidth, g.separatorWidth)
    ensures !IsArrowKey(key) && key != "End" && key != "Home" && key != "Enter" ==> r == s
    ensures Consistent(s) ==> Consistent(r)
  {
    if !onSeparator then s
    else if key == "ArrowLeft" then
      if isFixed || direction == "vertical" then s else SetMovement(s, s.totalMovement - 1)
    else if key == "ArrowRight" then
      if isFixed || direction == "vertical" then s else SetMovement(s, s.totalMovement + 1)
    else if key == "ArrowUp" then
      if isFixed || direction == "horizontal" then s else SetMovement(s, s.totalMovement - 1)
    else if key == "ArrowDown" then
      if isFixed || direction == "horizontal" then s else SetMovement(s, s.totalMovement + 1)
    else if key == "End" then CollapseSecondary(s, g.secondaryWidth, g.separatorWidth)
    else if key == "Home" then CollapsePrimary(s, g.primaryWidth, g.separatorWidth)
    else if key == "Enter" then TogglePrimary(s, g.primaryWidth, g.separatorWidth)
    else s
  }

  // ---------------------------------------------------------------------------
  // Drag controller

  /** The guard of `handlePointerDown`. */
  predicate AcceptsPointerDown(s: State, buttons: int, onSeparator: bool)
  {
    buttons == 1 && onSeparator && !s.isBeingDragged
  }

  /** The three persistent listeners a pointerdown attaches, in order: move, up, leave. */
  function DragListeners(listeners: map<EventKind, Mode>): (r: map<EventKind, Mode>)
    ensures PointerMove in r && PointerUp in r && PointerLeave in r
    ensures PointerEnter in r <==> PointerEnter in listeners
    ensures forall k :: k in listeners ==> k in r && r[k] == listeners[k]
    ensures forall k :: k in r && k !in listeners ==> r[k] == Persistent
  {
    Attach(Attach(Attach(listeners, PointerMove, Persistent), PointerUp, Persistent), PointerLeave, Persistent)
  }

  /**
   * `handlePointerDown`: accepted only for the primary button alone, on the
   * separator, while not dragging. Then the element is dragging, the active
   * class is on, the axis coordinate is recorded and move/up/leave are attached.
   */
  function PointerDown(s: State, direction: string, buttons: int, onSeparator: bool, pageX: int, pageY: int): (r: State)
    ensures !AcceptsPointerDown(s, buttons, onSeparator) ==> r == s
    ensures Consistent(s) ==> Consistent(r)
  {
    if AcceptsPointerDown(s, buttons, onSeparator) then
      s.(isBeingDragged := true, activeClass := true,
         currentPointerLocation := Some(AxisCoordinate(direction, pageX, pageY)),
         listeners := DragListeners(s.listeners))
    else s
  }

  /**
   * An accepted pointerdown arms the drag: the flag and the active class go on,
   * the axis coordinate is recorded, move/up/leave are attached without
   * disturbing listeners already attached, and nothing else changes.
   */
  lemma PointerDownArms(s: State, direction: string, buttons: int, onSeparator: bool, pageX: int, pageY: int)
    requires AcceptsPointerDown(s, buttons, onSeparator)
    ensures var r := PointerDown(s, direction, buttons, onSeparator, pageX, pageY);
      && r.isBeingDragged && r.activeClass
      && r.currentPointerLocation == Some(AxisCoordinate(direction, pageX, pageY))
      && r.listeners.Keys == s.listeners.Keys + {PointerMove, PointerUp, PointerLeave}
      && (forall k :: k in s.listeners ==> r.listeners[k] == s.listeners[k])
      && (forall k :: k in r.listeners && k !in s.listeners ==> r.listeners[k] == Persistent)
      && r.(isBeingDragged := s.isBeingDragged, activeClass := s.activeClass,
            currentPointerLocation := s.currentPointerLocation, listeners := s.listeners) == s
  {
  }

  /**
   * `handlePointerMove`: the movement grows by the distance from the recorded
   * location to the new coordinate, which becomes the recorded location; a
   * move of zero writes no movement.
   */
  function PointerMoveStep(s: State, direction: string, pageX: int, pageY: int): (r: State)
    ensures r.currentPointerLocation == Some(AxisCoordinate(direction, pageX, pageY))
    ensures r.totalMovement == s.totalMovement + AxisCoordinate(direction, pageX, pageY) - RecordedLocation(s)
    ensures AxisCoordinate(direction, pageX, pageY) == RecordedLocation(s) ==>
      r.movementProperty == s.movementProperty
    ensures r.(totalMovement := s.totalMovement, movementProperty := s.movementProperty,
               currentPointerLocation := s.currentPointerLocation) == s
    ensures Consistent(s) ==> Consistent(r)
  {
    var location := AxisCoordinate(direction, pageX, pageY);
    var delta := location - RecordedLocation(s);
    var moved := s.(currentPointerLocation := Some(location));
    if delta == 0 then moved else SetMovement(moved, moved.totalMovement + delta)
  }

  /**
   * `stopListening`: dragging ends, the active class goes off, and the move,
   * leave and enter listeners are detached; pointerup stays attached.
   */
  function StopListening(s: State): (r: State)
    ensures !r.isBeingDragged && !r.activeClass
    ensures r.listeners.Keys == s.listeners.Keys - {PointerMove, PointerLeave, PointerEnter}
    ensures PointerUp in s.listeners ==> PointerUp in r.listeners && r.listeners[PointerUp] == s.listeners[PointerUp]
    ensures r.(isBeingDragged := s.isBeingDragged, activeClass := s.activeClass, listeners := s.listeners) == s
    ensures Consistent(s) ==> Consistent(r)
  {
    s.(isBeingDragged := false, activeClass := false,
       listeners := s.listeners - {PointerMove, PointerLeave, PointerEnter})
  }

  /** `handlePointerEnter`: the flag goes on and a one-shot leave listener is attached. */
  function PointerEnterStep(s: State): (r: State)
    ensures r.isBeingDragged
    ensures r.listeners == Attach(s.listeners, PointerLeave, Once)
    ensures r.(isBeingDragged := s.isBeingDragged, listeners := s.listeners) == s
    ensures Consistent(s) ==> Consistent(r)
  {
    s.(isBeingDragged := true, listeners := Attach(s.listeners, PointerLeave, Once))
  }

  /**
   * `handlePointerLeave`: the flag goes off and a one-shot enter listener is
   * attached. No listener is detached and the active class is left as it is.
   */
  function PointerLeaveStep(s: State): (r: State)
    ensures !r.isBeingDragged
    ensures r.listeners == Attach(s.listeners, PointerEnter, Once)
    ensures r.(isBeingDragged := s.isBeingDragged, listeners := s.listeners) == s
    ensures Consistent(s) ==> Consistent(r)
  {
    s.(isBeingDragged := false, listeners := Attach(s.listeners, PointerEnter, Once))
  }

  function KindOf(ev: PointerInput): EventKind
  {
    match ev
    case Move(_, _) => PointerMove
    case Up => PointerUp
    case Leave => PointerLeave
    case Enter => PointerEnter
  }

  /** A one-shot listener is detached just before its callback runs. */
  function DetachIfOnce(s: State, kind: EventKind): (r: State)
    requires kind in s.listeners
    ensures r.listeners.Keys == if s.listeners[kind] == Once then s.listeners.Keys - {kind} else s.listeners.Keys
    ensures forall k :: k in r.listeners ==> r.listeners[k] == s.listeners[k]
    ensures r.(listeners := s.listeners) == s
    ensures Consistent(s) ==> Consistent(r)
  {
    if s.listeners[kind] == Once then s.(listeners := s.listeners - {kind}) else s
  }

  /** The callback attached for an event's kind: pointerup runs `stopListening`. */
  function Callback(s: State, direction: string, ev: PointerInput): (r: State)
    ensures Consistent(s) ==> Consistent(r)
  {
    match ev
    case Move(x, y) => PointerMoveStep(s, direction, x, y)
    case Up => StopListening(s)
    case Leave => PointerLeaveStep(s)
    case Enter => PointerEnterStep(s)
  }

  /**
   * The host delivering a pointer event: nothing happens without a listener
   * for its kind; a one-shot listener is detached before its callback runs.
   */
  function Dispatch(s: State, direction: string, ev: PointerInput): (r: State)
    ensures KindOf(ev) !in s.listeners ==> r == s
    ensures KindOf(ev) in s.listeners ==> r == Callback(DetachIfOnce(s, KindOf(ev)), direction, ev)
    ensures ev.Move? && PointerMove in s.listeners && s.listeners[PointerMove] == Persistent ==>
      r == PointerMoveStep(s, direction, ev.pageX, ev.pageY)
    ensures Consistent(s) ==> Consistent(r)
  {
    var kind := KindOf(ev);
    if kind !in s.listeners then s else Callback(DetachIfOnce(s, kind), direction, ev)
  }

  /** The state after the host delivers each event in turn. */
  function DeliverAll(s: State, direction: string, events: seq<PointerInput>): State
    decreases |events|
  {
    if events == [] then s else DeliverAll(Dispatch(s, direction, events[0]), direction, events[1..])
  }
}
