/**
 * The `web-splitter` custom element: one object whose handlers update its
 * fields in place. Each method does what the corresponding member of the
 * element does, step by step, and promises that the element's state afterwards
 * is the matching transition of `SplitterModel` applied to the state before.
 */
module WebSplitterElement {
  import opened CssValue
  import opened SplitterModel

  /** An element the `separator` getter can resolve to. */
  datatype Element = DefaultSeparator | AssignedElement(index: nat)

  /** The `direction` getter: the attribute's value, `"horizontal"` when it is absent. */
  function DirectionOf(attribute: Option<string>): (d: string)
    ensures attribute.None? ==> d == "horizontal"
    ensures attribute.Some? ==> d == attribute.value
  {
    match attribute
    case None => "horizontal"
    case Some(value) => value
  }

  /**
   * What the `separator` getter returns given its cache. Its slot branch tests
   * `assignedElements.length`, the arity of that method, which is 0, so an
   * empty cache always resolves to the default separator.
   */
  function ResolveSeparator(cache: Option<Element>): Element
  {
    match cache
    case Some(e) => e
    case None => DefaultSeparator
  }

  /** The cache after a handler that reads the `separator` getter exactly when `readsSeparator` holds. */
  function CacheAfter(cache: Option<Element>, readsSeparator: bool): Option<Element>
  {
    if readsSeparator then Some(ResolveSeparator(cache)) else cache
  }

  /** The class-name entries `generateContainerClasses` walks, in order. */
  function ClassEntries(active: bool): seq<(string, bool)>
  {
    [("web-splitter", true), ("web-splitter--active", active)]
  }

  /** The class string built from a prefix of the entries: each enabled name followed by a space. */
  function JoinEnabled(entries: seq<(string, bool)>): string
  {
    if entries == [] then ""
    else
      var last := entries[|entries| - 1];
      JoinEnabled(entries[..|entries| - 1]) + (if last.1 then last.0 + " " else "")
  }

  /** `t` occurs in `s` starting at position `i`. */
  ghost predicate OccursAt(s: string, t: string, i: int)
  {
    0 <= i && i + |t| <= |s| && s[i..i + |t|] == t
  }

  /** `t` occurs in `s` at some position. */
  ghost predicate HasSubstring(s: string, t: string)
  {
    exists i :: OccursAt(s, t, i)
  }

  /** The class string for both entries, active or not. */
  lemma ContainerClassString(active: bool)
    ensures JoinEnabled(ClassEntries(active)) == if active then "web-splitter web-splitter--active " else "web-splitter "
  {
    var c := ClassEntries(active);
    assert c[..1] == [("web-splitter", true)];
    assert c[..1][..0] == [];
    assert JoinEnabled(c[..1]) == "web-splitter ";
    assert c[..|c| - 1] == c[..1];
  }

  /** The active class name occurs in the class string exactly when it is enabled. */
  lemma ActiveClassOccurs(active: bool)
    ensures var classValue := if active then "web-splitter web-splitter--active " else "web-splitter ";
      HasSubstring(classValue, "web-splitter--active ") <==> active
  {
    if active {
      assert OccursAt("web-splitter web-splitter--active ", "web-splitter--active ", 13);
    }
  }

  class WebSplitter {
    var totalMovement: int
    var isPrimaryCollapsed: bool
    var isSecondaryCollapsed: bool
    var isBeingDragged: bool
    var currentPointerLocation: Option<int>
    var previousMovement: Option<int>
    var listeners: map<EventKind, Mode>
    /** The container's `--web-splitter-movement` custom property. */
    var movementProperty: string
    /** The `aria-hidden` attribute of the primary and of the secondary wrapper. */
    var primaryAriaHidden: Option<string>
    var secondaryAriaHidden: Option<string>
    /** Whether the container's class list holds `web-splitter--active`. */
    var activeClass: bool
    /** Whether each pane's `ResizeObserver` is observing its wrapper. */
    var observingPrimary: bool
    var observingSecondary: bool
    /** Configuration read from the `direction` and `is-fixed` attributes. */
    var direction: string
    var isFixed: bool
    /** The `separator` getter's cache. */
    var separatorCache: Option<Element>

    /** The element's state as a value. */
    ghost function Model(): State
      reads this
    {
      State(totalMovement, isPrimaryCollapsed, isSecondaryCollapsed, isBeingDragged,
            currentPointerLocation, previousMovement, listeners, movementProperty,
            primaryAriaHidden, secondaryAriaHidden, activeClass, observingPrimary, observingSecondary)
    }

    ghost predicate Valid()
      reads this
    {
      Consistent(Model())
    }

    /** A new element: neutral movement, nothing collapsed or dragged, nothing recorded. */
    constructor (directionAttribute: Option<string>, hasIsFixedAttribute: bool)
      ensures Valid() && Model() == Initial()
      ensures direction == DirectionOf(directionAttribute) && isFixed == hasIsFixedAttribute
      ensures separatorCache == None
    {
      separatorCache := None;
      isBeingDragged := false;
      isPrimaryCollapsed := false;
      isSecondaryCollapsed := false;
      currentPointerLocation := None;
      totalMovement := 0;
      previousMovement := None;
      listeners := map[];
      movementProperty := "0px";
      primaryAriaHidden := None;
      secondaryAriaHidden := None;
      activeClass := false;
      observingPrimary := false;
      observingSecondary := false;
      direction := DirectionOf(directionAttribute);
      isFixed := hasIsFixedAttribute;
    }

    /** The `totalMovement` setter. */
    method SetTotalMovement(value: int)
      requires Valid()
      modifies this`totalMovement, this`movementProperty
      ensures Valid() && Model() == SetMovement(old(Model()), value)
    {
      totalMovement := value;
      movementProperty := Px(totalMovement);
    }

    /** The `separator` getter: the cached element if there is one, else the resolved one, cached. */
    method Separator() returns (e: Element)
      modifies this`separatorCache
      ensures e == ResolveSeparator(old(separatorCache))
      ensures separatorCache == Some(e)
    {
      if separatorCache.Some? {
        return separatorCache.value;
      }
      separatorCache := Some(DefaultSeparator);
      e := DefaultSeparator;
    }

    /** `generateContainerClasses`: the container's class string, built name by name. */
    method GenerateContainerClasses() returns (classValue: string)
      ensures classValue == if isBeingDragged then "web-splitter web-splitter--active " else "web-splitter "
      ensures |classValue| >= 13 && classValue[..13] == "web-splitter "
      ensures HasSubstring(classValue, "web-splitter--active ") <==> isBeingDragged
    {
      classValue := "";
      var classes := ClassEntries(isBeingDragged);
      var i := 0;
      while i < |classes|
        invariant 0 <= i <= |classes|
        invariant classValue == JoinEnabled(classes[..i])
      {
        var (key, value) := classes[i];
        if value {
          classValue := classValue + key + " ";
        }
        assert classes[..i + 1][..i] == classes[..i];
        i := i + 1;
      }
      assert classes[..|classes|] == classes;
      ContainerClassString(isBeingDragged);
      ActiveClassOccurs(isBeingDragged);
    }

    /** `observePrimaryWidth`, given the width of the first entry's content rectangle. */
    method ObservePrimaryWidth(width: int)
      requires Valid()
      modifies this`isPrimaryCollapsed, this`primaryAriaHidden
      ensures Valid() && Model() == ObservePrimary(old(Model()), width)
    {
      isPrimaryCollapsed := width == 0;
      if isPrimaryCollapsed {
        primaryAriaHidden := Some("true");
        return;
      }
      primaryAriaHidden := None;
    }

    /** `observeSecondaryWidth`, given the width of the first entry's content rectangle. */
    method ObserveSecondaryWidth(width: int)
      requires Valid()
      modifies this`isSecondaryCollapsed, this`secondaryAriaHidden
      ensures Valid() && Model() == ObserveSecondary(old(Model()), width)
    {
      isSecondaryCollapsed := width == 0;
      if isSecondaryCollapsed {
        secondaryAriaHidden := Some("true");
        return;
      }
      secondaryAriaHidden := None;
    }

    /** A resize observation for one pane, reaching its callback only while observed. */
    method DeliverResizeObservation(pane: Pane, width: int)
      requires Valid()
      modifies this`isPrimaryCollapsed, this`primaryAriaHidden, this`isSecondaryCollapsed, this`secondaryAriaHidden
      ensures Valid() && Model() == DeliverResize(old(Model()), pane, width)
    {
      match pane
      case Primary =>
        if observingPrimary {
          ObservePrimaryWidth(width);
        }
      case Secondary =>
        if observingSecondary {
          ObserveSecondaryWidth(width);
        }
    }

    /** `collapsePrimaryPane`, given the primary wrapper's and the separator's rendered widths. */
    method CollapsePrimaryPane(primaryWidth: int, separatorWidth: int)
      requires Valid()
      modifies this`totalMovement, this`movementProperty, this`separatorCache
      ensures Valid() && Model() == CollapsePrimary(old(Model()), primaryWidth, separatorWidth)
      ensures separatorCache == CacheAfter(old(separatorCache), !old(isPrimaryCollapsed) && old(isSecondaryCollapsed))
    {
      if isPrimaryCollapsed {
        return;
      }
      var movement := totalMovement;
      movement := movement - primaryWidth;
      if isSecondaryCollapsed {
        var _ := Separator();
        movement := movement - separatorWidth;
      }
      SetTotalMovement(movement);
    }

    /** `collapseSecondaryPane`, given the secondary wrapper's and the separator's rendered widths. */
    method CollapseSecondaryPane(secondaryWidth: int, separatorWidth: int)
      requires Valid()
      modifies this`totalMovement, this`movementProperty, this`separatorCache
      ensures Valid() && Model() == CollapseSecondary(old(Model()), secondaryWidth, separatorWidth)
      ensures separatorCache == CacheAfter(old(separatorCache), !old(isSecondaryCollapsed) && old(isPrimaryCollapsed))
    {
      if isSecondaryCollapsed {
        return;
      }
      var movement := totalMovement;
      movement := movement + secondaryWidth;
      if isPrimaryCollapsed {
        var _ := Separator();
        movement := movement + separatorWidth;
      }
      SetTotalMovement(movement);
    }

    /** `togglePrimaryPane`. */
    method TogglePrimaryPane(primaryWidth: int, separatorWidth: int)
      requires Valid()
      modifies this`totalMovement, this`movementProperty, this`previousMovement, this`separatorCache
      ensures Valid() && Model() == TogglePrimary(old(Model()), primaryWidth, separatorWidth)
      ensures separatorCache == CacheAfter(old(separatorCache),
        old(previousMovement).None? && !old(isPrimaryCollapsed) && old(isSecondaryCollapsed))
    {
      if previousMovement.None? {
        previousMovement := Some(totalMovement);
        CollapsePrimaryPane(primaryWidth, separatorWidth);
        return;
      }
      SetTotalMovement(previousMovement.value);
      previousMovement := None;
    }

    /**
     * `handleKeyDown` for a key pressed with the separator on (or off) the
     * event's composed path; `prevented` tells whether `preventDefault` was called.
     */
    method HandleKeyDown(key: string, onSeparator: bool, g: Geometry) returns (prevented: bool)
      requires Valid()
      modifies this`totalMovement, this`movementProperty, this`previousMovement, this`separatorCache
      ensures Valid() && Model() == KeyDown(old(Model()), direction, isFixed, key, onSeparator, g)
      ensures prevented <==> onSeparator && (key == "End" || key == "Home")
      ensures separatorCache == Some(ResolveSeparator(old(separatorCache)))
    {
      prevented := false;
      var _ := Separator();
      if !onSeparator {
        return;
      }
      if key == "ArrowLeft" {
        if isFixed || direction == "vertical" {
          return;
        }
        SetTotalMovement(totalMovement - 1);
      } else if key == "ArrowRight" {
        if isFixed || direction == "vertical" {
          return;
        }
        SetTotalMovement(totalMovement + 1);
      } else if key == "ArrowUp" {
        if isFixed || direction == "horizontal" {
          return;
        }
        SetTotalMovement(totalMovement - 1);
      } else if key == "ArrowDown" {
        if isFixed || direction == "horizontal" {
          return;
        }
        SetTotalMovement(totalMovement + 1);
      } else if key == "End" {
        prevented := true;
        CollapseSecondaryPane(g.secondaryWidth, g.separatorWidth);
      } else if key == "Home" {
        prevented := true;
        CollapsePrimaryPane(g.primaryWidth, g.separatorWidth);
      } else if key == "Enter" {
        TogglePrimaryPane(g.primaryWidth, g.separatorWidth);
      }
    }

    /** `stopListening`, the pointerup callback. */
    method StopListeningToPointer()
      requires Valid()
      modifies this`isBeingDragged, this`activeClass, this`listeners
      ensures Valid() && Model() == StopListening(old(Model()))
    {
      isBeingDragged := false;
      activeClass := isBeingDragged;
      listeners := listeners - {PointerMove};
      listeners := listeners - {PointerLeave};
      listeners := listeners - {PointerEnter};
    }

    /** `handlePointerMove`. */
    method HandlePointerMove(pageX: int, pageY: int)
      requires Valid()
      modifies this`currentPointerLocation, this`totalMovement, this`movementProperty
      ensures Valid() && Model() == PointerMoveStep(old(Model()), direction, pageX, pageY)
    {
      var currLocation := if direction == "vertical" then pageY else pageX;
      var prevLocation := currentPointerLocation;
      var delta := currLocation - (if prevLocation.Some? then prevLocation.value else 0);
      currentPointerLocation := Some(currLocation);
      if delta == 0 {
        return;
      }
      SetTotalMovement(totalMovement + delta);
    }

    /** `handlePointerEnter`. */
    method HandlePointerEnter()
      requires Valid()
      modifies this`isBeingDragged, this`listeners
      ensures Valid() && Model() == PointerEnterStep(old(Model()))
    {
      isBeingDragged := true;
      listeners := Attach(listeners, PointerLeave, Once);
    }

    /** `handlePointerLeave`. */
    method HandlePointerLeave()
      requires Valid()
      modifies this`isBeingDragged, this`listeners
      ensures Valid() && Model() == PointerLeaveStep(old(Model()))
    {
      isBeingDragged := false;
      listeners := Attach(listeners, PointerEnter, Once);
    }

    /** `handlePointerDown`, given the button mask, whether the separator is on the composed path, and the page coordinates. */
    method HandlePointerDown(buttons: int, onSeparator: bool, pageX: int, pageY: int)
      requires Valid()
      modifies this`isBeingDragged, this`activeClass, this`currentPointerLocation, this`listeners, this`separatorCache
      ensures Valid() && Model() == PointerDown(old(Model()), direction, buttons, onSeparator, pageX, pageY)
      ensures separatorCache == CacheAfter(old(separatorCache), buttons == 1)
    {
      if buttons == 1 {
        var _ := Separator();
        if onSeparator && !isBeingDragged {
          isBeingDragged := true;
          activeClass := isBeingDragged;
          currentPointerLocation := Some(if direction == "vertical" then pageY else pageX);
          listeners := DragListeners(listeners);
        }
      }
    }

    /** The host delivering a pointer event to whichever callback is attached for it. */
    method DispatchPointerEvent(ev: PointerInput)
      requires Valid()
      modifies this`isBeingDragged, this`activeClass, this`currentPointerLocation, this`listeners,
               this`totalMovement, this`movementProperty
      ensures Valid() && Model() == Dispatch(old(Model()), direction, ev)
    {
      var kind := KindOf(ev);
      if kind !in listeners {
        return;
      }
      if listeners[kind] == Once {
        listeners := listeners - {kind};
      }
      match ev
      case Move(x, y) => HandlePointerMove(x, y);
      case Up => StopListeningToPointer();
      case Leave => HandlePointerLeave();
      case Enter => HandlePointerEnter();
    }

    /** `connectedCallback`: both observers start observing. */
    method ConnectedCallback()
      requires Valid()
      modifies this`observingPrimary, this`observingSecondary
      ensures Valid() && Model() == Connected(old(Model()))
    {
      observingPrimary := true;
      observingSecondary := true;
    }

    /** `disconnectedCallback`: both observers are disconnected. */
    method DisconnectedCallback()
      requires Valid()
      modifies this`observingPrimary, this`observingSecondary
      ensures Valid() && Model() == Disconnected(old(Model()))
    {
      observingPrimary := false;
      observingSecondary := false;
    }
  }
}
