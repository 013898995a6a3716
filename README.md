# web-splitter, modelled in Dafny

`web-splitter` is a custom element that shows two panes, primary and
secondary, on either side of a separator the user can drag or drive from the
keyboard. The repository has the element twice:
- `src/WebSplitter.ts`: a FAST element whose template binds the container's
  class, the `--web-splitter-movement` custom property and each wrapper's
  `aria-hidden` to the element's fields;
- `src/WebSplitter.js`: a plain `HTMLElement` that writes those three pieces
  of DOM itself.

Both versions keep the same state. Their handlers change it in the same way:
- `totalMovement`, the signed offset of the boundary from its initial place;
- the two collapse flags, written only by the pane width observers;
- `isBeingDragged`;
- the recorded pointer location;
- the toggle's snapshot `previousMovement`;
- the pointer listeners attached at any moment.

The project has these modules:
- `CssValue` (`css_value.dfy`): the text written into `--web-splitter-movement`, which is the movement as a decimal integer followed by `px`. It proves that printing is injective, so the custom property determines the movement.
- `SplitterModel` (`splitter_model.dfy`): the state as a value, `State`, with one transition function per handler. It also has:
  - `Attach`, the DOM's `addEventListener` rule: a callback already attached is not attached again;
  - the `once` removal of one-shot listeners;
  - `Dispatch`, which delivers one pointer event to whatever listener is attached for it;
  - the invariant `Consistent`, which every transition preserves.
- `WebSplitterElement` (`web_splitter.dfy`): the element as a class whose fields the handlers assign step by step. Each method promises that the new state is the matching `SplitterModel` transition of the old state, and that `Consistent` still holds.
  - It also has the container class string and the cached `separator` getter, with the direction given by the `direction` attribute.
- `SplitterProperties` (`splitter_properties.dfy`): properties that relate several calls:
  - drag deltas telescope;
  - after a pointerup no move counts, while after a pointerleave moves still count;
  - toggling twice is a round trip;
  - collapses settle once a width observation arrives;
  - `is-fixed` gates the arrow keys only.
- `Scenarios` (`scenarios.dfy`): client code that runs an element through concrete interactions and states their outcomes.

Some things the model takes as parameters:
- pointer coordinates and button masks;
- whether the separator is on an event's composed path;
- the rendered widths from `getBoundingClientRect`;
- the width in a `ResizeObserver` entry.

When an observation arrives is up to the caller: `DeliverResizeObservation` stands for the browser calling an observer's callback. A callback only reaches the element while that observer is observing.

The code departs from an idealised drag lifecycle in these ways, and the model follows the code:
- `stopListening` leaves the `pointerup` listener attached.
- A pointerleave during a drag runs `handlePointerLeave`. That clears the flag but detaches nothing, so later moves still change the movement.
- Re-entering the host during a drag turns the flag back on while the move listener is still attached. A new pointerdown is then refused, and later moves still change the movement.
- The pointerdown handler itself does not check `is-fixed`. On a fixed element the stylesheet keeps pointer events away from the default separator instead (see "## Left out").
- `disconnectedCallback` only disconnects the observers. Pointer listeners attached during a drag stay attached after the element leaves the document.
- Collapsing a pane twice is idempotent only once an observation has reported its width as 0. Until then, a second call moves the boundary again.
- The recorded pointer location is never reset.
- The JavaScript version writes the `web-splitter--active` class only at pointerdown and in `stopListening`. After a pointerleave the class can be on while `isBeingDragged` is off.

## Model

| member | source | states |
|---|---|---|
| CssValue.NatText | src/WebSplitter.js:52-58 | the printed natural is never empty |
| CssValue.NatTextDigits | src/WebSplitter.js:52-58 | the printed natural consists of decimal digits, with no leading zero when it has two or more |
| CssValue.DigitsRoundTrip | src/WebSplitter.js:52-58 | reading the printed digits back yields the number printed |
| CssValue.NatTextInjective | src/WebSplitter.js:52-58 | distinct naturals print differently |
| CssValue.IntTextSign | src/WebSplitter.js:52-58 | a printed integer starts with `-` exactly when it is negative, followed by the digits of its magnitude |
| CssValue.PxInjective | src/WebSplitter.js:52-58 | the value of `--web-splitter-movement` determines the movement it was written for |
| SplitterModel.Initial | src/WebSplitter.js:4-38 | a fresh element is in a consistent state, with no pointer listener attached and neither pane observed |
| SplitterModel.Attach | src/WebSplitter.ts:353-364 | after `addEventListener` the kind is attached; no other kind is added or changes mode; a new kind gets the requested mode; a kind already attached keeps its mode |
| SplitterModel.SetMovement | src/WebSplitter.js:52-58 | the setter writes the movement and its `px` text together and preserves consistency |
| SplitterModel.AxisCoordinate | src/WebSplitter.ts:308-309 | `pageY` for a vertical element and `pageX` for any other direction |
| SplitterModel.ObservePrimary | src/WebSplitter.js:89-97 | the primary pane is collapsed iff the observed width is 0; `aria-hidden` is `"true"` then and absent otherwise; nothing else changes |
| SplitterModel.ObserveSecondary | src/WebSplitter.js:99-107 | the same for the secondary pane |
| SplitterModel.DeliverResize | src/WebSplitter.js:32-37 | an observation changes nothing unless that pane is observed; if it is, it runs that pane's observer callback |
| SplitterModel.Connected | src/WebSplitter.js:281-288 | both panes become observed and nothing else changes |
| SplitterModel.Disconnected | src/WebSplitter.js:290-293 | neither pane stays observed and nothing else changes |
| SplitterModel.CollapsePrimary | src/WebSplitter.ts:204-216 | no change while the primary pane is collapsed; otherwise the movement drops by the primary width, plus the separator width when the secondary pane is collapsed; only the movement is written |
| SplitterModel.CollapseSecondary | src/WebSplitter.ts:218-230 | no change while the secondary pane is collapsed; otherwise the movement rises by the secondary width, plus the separator width when the primary pane is collapsed; only the movement is written |
| SplitterModel.TogglePrimary | src/WebSplitter.ts:232-241 | without a snapshot: snapshot the movement, then collapse the primary pane; with one: restore it and clear it; the collapse flags are never written |
| SplitterModel.Remember | src/WebSplitter.ts:233-240 | only the snapshot is written |
| SplitterModel.KeyDown | src/WebSplitter.ts:243-288 | nothing happens off the separator; an arrow key moves by one unless the element is fixed or its direction is the other axis; End, Home and Enter collapse the secondary pane, collapse the primary pane and toggle; any other key does nothing |
| SplitterModel.DragListeners | src/WebSplitter.ts:353-364 | move, up and leave are attached; listeners already attached keep their mode; the new ones are persistent; pointerenter is neither added nor removed |
| SplitterModel.PointerDown | src/WebSplitter.ts:343-366 | a pointerdown that is not the primary button alone, is off the separator, or comes during a drag changes nothing; consistency is preserved |
| SplitterModel.PointerDownArms | src/WebSplitter.js:252-279 | an accepted pointerdown sets the flag and the active class, records the axis coordinate, and attaches move, up and leave without disturbing existing listeners; nothing else changes |
| SplitterModel.PointerMoveStep | src/WebSplitter.ts:306-319 | the movement grows by the new axis coordinate minus the recorded location (a missing location counts as 0); the new coordinate is recorded; a zero delta leaves the custom property as it was; nothing else changes |
| SplitterModel.StopListening | src/WebSplitter.js:195-213 | the flag and the active class go off; move, leave and enter are detached; pointerup keeps its registration; nothing else changes |
| SplitterModel.PointerEnterStep | src/WebSplitter.ts:321-330 | the flag goes on and a one-shot pointerleave is attached; nothing else changes |
| SplitterModel.PointerLeaveStep | src/WebSplitter.ts:332-341 | the flag goes off and a one-shot pointerenter is attached; no listener is detached and nothing else changes |
| SplitterModel.DetachIfOnce | src/WebSplitter.ts:321-341 | a listener attached with `once` is removed before its callback runs, and a persistent one is kept; nothing else changes |
| SplitterModel.Callback | src/WebSplitter.ts:353-364 | each attached callback preserves consistency |
| SplitterModel.Dispatch | src/WebSplitter.ts:343-366 | an event without a listener for its kind changes nothing; otherwise a one-shot listener is removed and the callback runs; a move under a persistent move listener is exactly one move step |
| WebSplitterElement.DirectionOf | src/WebSplitter.js:40-42 | the `direction` attribute's value, or `"horizontal"` when it is absent |
| WebSplitterElement.ContainerClassString | src/WebSplitter.ts:166-178 | the class string is `"web-splitter "`, followed by `"web-splitter--active "` when active |
| WebSplitterElement.ActiveClassOccurs | src/WebSplitter.ts:166-178 | the active class name occurs in the class string iff the flag is on |
| WebSplitterElement.WebSplitter.constructor | src/WebSplitter.js:4-46 | a new element has the initial state: movement 0, nothing collapsed or dragged, no recorded location or snapshot, no listeners; direction and `is-fixed` come from the attributes; the separator is not yet cached |
| WebSplitterElement.WebSplitter.SetTotalMovement | src/WebSplitter.js:52-58 | the new state is `SetMovement` of the old |
| WebSplitterElement.WebSplitter.Separator | src/WebSplitter.ts:180-192 | returns the cached element if there is one, otherwise the resolved separator, which is then cached |
| WebSplitterElement.WebSplitter.GenerateContainerClasses | src/WebSplitter.ts:166-178 | the loop over the class entries builds `"web-splitter "`, plus `"web-splitter--active "` exactly while dragging |
| WebSplitterElement.WebSplitter.ObservePrimaryWidth | src/WebSplitter.js:89-97 | the new state is `ObservePrimary` of the old, and consistency holds |
| WebSplitterElement.WebSplitter.ObserveSecondaryWidth | src/WebSplitter.js:99-107 | the new state is `ObserveSecondary` of the old, and consistency holds |
| WebSplitterElement.WebSplitter.DeliverResizeObservation | src/WebSplitter.js:32-37 | the new state is `DeliverResize` of the old |
| WebSplitterElement.WebSplitter.CollapsePrimaryPane | src/WebSplitter.js:109-121 | the new state is `CollapsePrimary` of the old; the separator is read, and so cached, only when the secondary pane is collapsed |
| WebSplitterElement.WebSplitter.CollapseSecondaryPane | src/WebSplitter.js:123-135 | the new state is `CollapseSecondary` of the old; the separator is read only when the primary pane is collapsed |
| WebSplitterElement.WebSplitter.TogglePrimaryPane | src/WebSplitter.js:137-146 | the new state is `TogglePrimary` of the old |
| WebSplitterElement.WebSplitter.HandleKeyDown | src/WebSplitter.js:148-193 | the new state is `KeyDown` of the old; `preventDefault` is called iff End or Home is pressed on the separator; the separator is always read |
| WebSplitterElement.WebSplitter.StopListeningToPointer | src/WebSplitter.js:195-213 | the new state is `StopListening` of the old |
| WebSplitterElement.WebSplitter.HandlePointerMove | src/WebSplitter.js:215-228 | the new state is `PointerMoveStep` of the old |
| WebSplitterElement.WebSplitter.HandlePointerEnter | src/WebSplitter.js:230-239 | the new state is `PointerEnterStep` of the old |
| WebSplitterElement.WebSplitter.HandlePointerLeave | src/WebSplitter.js:241-250 | the new state is `PointerLeaveStep` of the old |
| WebSplitterElement.WebSplitter.HandlePointerDown | src/WebSplitter.js:252-279 | the new state is `PointerDown` of the old; the separator is read exactly when the button mask is 1 |
| WebSplitterElement.WebSplitter.DispatchPointerEvent | src/WebSplitter.js:266-277 | the new state is `Dispatch` of the old |
| WebSplitterElement.WebSplitter.ConnectedCallback | src/WebSplitter.js:281-288 | the new state is `Connected` of the old |
| WebSplitterElement.WebSplitter.DisconnectedCallback | src/WebSplitter.js:290-293 | the new state is `Disconnected` of the old |
| SplitterProperties.DraggedTwice | src/WebSplitter.ts:306-319 | two consecutive drag steps equal one step from the first location to the last |
| SplitterProperties.ArmedWhenAttached | src/WebSplitter.ts:343-366 | in a consistent state, an attached move listener implies a persistent listener, a recorded location and a mirrored custom property |
| SplitterProperties.MoveStepDrags | src/WebSplitter.ts:306-319 | from a recorded location, one move adds exactly the distance travelled and records the new coordinate |
| SplitterProperties.MoveDelivered | src/WebSplitter.ts:353-356 | while a drag is armed, a delivered move runs the move callback and the drag stays armed |
| SplitterProperties.MovesReachCallback | src/WebSplitter.ts:353-356 | during an armed drag, every move of a run reaches the move callback |
| SplitterProperties.CallbacksTelescope | src/WebSplitter.ts:306-319 | over a run of moves, the movement grows by the last coordinate minus the starting location; the last coordinate is recorded; nothing else changes |
| SplitterProperties.DragTelescopes | src/WebSplitter.ts:306-319 | while a drag is armed, the delivered moves change the movement by the last coordinate minus the recorded location, however the run is split, and nothing else |
| SplitterProperties.DetachedMovesAreInert | src/WebSplitter.ts:290-304 | with no move listener attached, moves change nothing |
| SplitterProperties.PointerUpEndsDrag | src/WebSplitter.js:195-213 | a pointerup ends the drag: flag and active class off, pointerup still attached; no later move changes anything |
| SplitterProperties.MovesContinueAfterLeave | src/WebSplitter.ts:332-341 | a pointerleave mid-drag clears the flag but not the move listener; later moves still add their distance from the location recorded before the leave |
| SplitterProperties.ReentryRefusesPointerDown | src/WebSplitter.ts:321-366 | after a pointerdown, a leave and an enter, the flag is on and the move listener attached, so any later pointerdown is refused |
| SplitterProperties.ActiveClassLagsLeave | src/WebSplitter.js:241-263 | after pointerdown the active class equals the flag; after a leave it is still on while the flag is off |
| SplitterProperties.ToggleRoundTrip | src/WebSplitter.ts:232-241 | toggling twice without a snapshot restores the whole state, whatever the geometry at each call |
| SplitterProperties.CollapseRepeatsUntilObserved | src/WebSplitter.ts:204-216 | before any observation, a second collapse of the primary pane moves the boundary by the same amount again |
| SplitterProperties.CollapseSettlesOnceObserved | src/WebSplitter.ts:194-216 | once the primary pane is observed at width 0, a further collapse changes nothing |
| SplitterProperties.CollapseBothPanes | src/WebSplitter.ts:204-230 | collapsing the primary pane, observing it, then collapsing the secondary moves the boundary by secondary + separator − primary |
| SplitterProperties.HorizontalArrowKeys | src/WebSplitter.ts:251-274 | on a horizontal unfixed element, ArrowLeft and ArrowRight move by −1 and +1; ArrowUp and ArrowDown do nothing |
| SplitterProperties.VerticalArrowKeys | src/WebSplitter.ts:251-274 | on a vertical unfixed element, ArrowUp and ArrowDown move by −1 and +1; ArrowLeft and ArrowRight do nothing |
| SplitterProperties.UnrecognisedDirectionEnablesAllArrows | src/WebSplitter.ts:251-274 | with a direction that is neither value, all four arrow keys move by one step |
| SplitterProperties.FixedBlocksOnlyArrowKeys | src/WebSplitter.ts:250-287 | a fixed element ignores arrow keys; every other key behaves exactly as on an unfixed element |
| Scenarios.FreshElement | src/WebSplitter.js:4-46 | a new element without attributes is horizontal, unfixed, at movement 0, idle, with nothing recorded |
| Scenarios.CollapseBothPanes | src/WebSplitter.js:109-135 | with 300-wide panes and a 14-wide separator, the movement goes to −300, then to 14, and the property reads `14px` |
| Scenarios.DragAndRelease | src/WebSplitter.js:195-279 | pointerdown at x = 100 then a move to 140 gives 40; pointerup clears the flag and the class; a later move leaves 40 |
| Scenarios.LeaveAndReenter | src/WebSplitter.js:230-279 | after a leave mid-drag the class is on and the flag off; the re-entry turns the flag back on with the class still on, so a new pointerdown is refused and the recorded location stays; later moves still count |
| Scenarios.VerticalDrag | src/WebSplitter.js:215-228 | a vertical drag follows `pageY`; a button mask of 3 is refused |
| Scenarios.ArrowRightAndEnd | src/WebSplitter.js:148-193 | ArrowRight moves a horizontal element by one and a vertical or fixed one not at all; End collapses a fixed element's secondary pane and prevents the default |
| Scenarios.EnterTwice | src/WebSplitter.js:137-146 | Enter twice goes from 5 to −295 and back to 5, clearing the snapshot |
| Scenarios.ObserveWhileConnected | src/WebSplitter.js:89-97 | while connected, a zero width hides the wrapper and a non-zero width un-hides it; once disconnected, no observation arrives |
| Scenarios.ContainerClassesDuringDrag | src/WebSplitter.ts:166-178 | the class string is `"web-splitter "` when idle and gains the active class during a drag |
| Scenarios.SeparatorIsCached | src/WebSplitter.ts:180-192 | two reads of the separator return the same element |

## Left out

- The template, the stylesheet and the shadow DOM (`src/WebSplitter.ts:11-118`, `src/WebSplitter.js:295-343`) are presentation. The layout clamping also lives in the stylesheet. The model keeps only the three pieces of DOM the handlers write: the custom property, `aria-hidden` and the active class. The stylesheet's initial `0px` is the custom property's value in `Initial`.
- The `style` getter (`src/WebSplitter.js:60-67`) only decodes the bundled stylesheet with a `TextDecoder`.
- FAST's decorators, the `@customElement` registration and the FAST `connectedCallback`/`disconnectedCallback` of the base class are framework plumbing and are not modelled.
- In the TypeScript version, the template bindings keep `aria-hidden` and the custom property in step with the fields. They also bind the container's class to `GenerateContainerClasses`, which depends on `isBeingDragged`. `Consistent` states the agreement for the custom property and `aria-hidden`. The JavaScript version's handlers maintain it by writing them. The `activeClass` field models only the JavaScript class list, which can lag behind the flag (`ActiveClassLagsLeave`).
- `getBoundingClientRect`, `composedPath().includes(separator)`, `ResizeObserver` entries and pointer coordinates are parameters. They are browser I/O.
- Geometry and coordinates are doubles in the browser and `int` here. Floating-point rounding is not modelled. Neither is the exponent form JavaScript prints for magnitudes of 10^21 or more (`1e+21px`); `Px` is the decimal form for every integer.
- The separator's slot branch is never taken: it tests `assignedElements.length`, which is the arity of a method and so 0. The model therefore always resolves the default separator and does not model a slotted separator element.
- Attribute changes after construction are not modelled. The direction and `is-fixed` are fixed when the element is built, although the JavaScript getters read the attributes live.
- The registration of the pointerdown listener on the container and of the keydown listener (`src/WebSplitter.js:24-31`, `src/WebSplitter.ts:16-17`) is not modelled. The model calls `HandlePointerDown` and `HandleKeyDown` directly.
- HandleKeyDown: its `prevented` result models the JavaScript version, which calls `preventDefault` only for End and Home. In the TypeScript version, FAST's event binding calls `preventDefault` on every event whose handler does not return `true`. Both handlers return nothing, so there every keydown that reaches the container is prevented. This FAST rule lives in the library, which is not part of this model.
- The stylesheet rule `:host([is-fixed]) .web-splitter__separator { pointer-events: none; }` (`src/WebSplitter.ts:115-117`) is abstracted by the `onSeparator` parameter. On a fixed element the default separator is never on a pointerdown's composed path, which corresponds to `onSeparator == false`.
- PointerDown: its own contract states only the refused case and consistency. The accepted case is stated by `PointerDownArms`.
