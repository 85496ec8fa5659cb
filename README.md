# Window model of a browser window manager

This project models the window of an in-browser desktop-style window manager.
Each window is a draggable, resizable panel. It has a position (`x`, `y`), a
size (`width`, `height`), minimum and maximum sizes, a title, an open/closed
flag and an ordering `index`. A move or resize gesture is a small state
machine with three modes: `INACTIVE`, `MOVE` and `RESIZE`. `startMove` and
`startResize` record an *anchor*: the grab point, the geometry at that
moment and, for a resize, which edges were grabbed. `update` turns each
pointer position into new geometry relative to that anchor. `endChange`
ends the gesture. Mutators notify observers with a `change` event.

The model has three modules:

- `WindowSpec` (window_spec.dfy) describes the window as a value,
  `WindowState`, with one function per operation. `Apply` and `Run` replay a
  sequence of calls the way the host makes them. The lemmas about these
  functions state the gesture and event properties for all inputs.
- `WindowModel` (window.dfy) is the class `Window`. Its methods update its
  fields in place. Each method is proved to move `State()` exactly as the
  matching `WindowSpec` function does, so every lemma in `WindowSpec` holds
  of the object. The ghost field `changeCount` counts the `change` events
  the window would emit.
- `WindowScenarios` (scenarios.dfy) drives fresh `Window` objects through
  the documented situations and states the numbers that come out.

The window's own implementation file, `lib/models/window.js`, is not part of
this model. What the model does is fixed by the behaviour the test file
`test/models/window.js` pins down. The mode codes come from
`lib/views/window.jsx`. Where the tests leave a detail open, the model
follows the window's documented behaviour. The quadrant test is
`2 * local < size`, and `WindowSpec.QuadrantAt` is proved equal to the
real-valued test `local < size / 2` that the window is documented to use;
the tests fix only four points (test/models/window.js:43-67). `startResize`
gets its point in the parent's coordinates and takes the quadrant relative
to the window's top-left corner, which is what the resize tests need
(test/models/window.js:77-78, 88, 126). `setSize` is documented to clamp to
[min, max]; the tests never exercise that, and the model sets the size as
given (see "Left out"). `endChange` is documented to raise exactly one
change event, and the model raises it on every call, also when no gesture
is in progress. The view calls `endChange` on every document `mouseup`
(lib/views/window.jsx:21, 52-54), so in the model every mouse release
notifies every window. The tests only call `endChange` after a gesture.

## Model

| member | source | states |
|---|---|---|
| `WindowSpec.Mode.Code` | lib/views/window.jsx:6-8 | The mode codes are 0, 1 and 2, and the code is 0 exactly for `INACTIVE` |
| `WindowSpec.ModeOfCode` | lib/views/window.jsx:6-8 | A numeric code names a mode exactly when it lies in 0..2 |
| `WindowSpec.ModeCodeRoundTrip` | lib/views/window.jsx:6-8 | Codes and modes correspond one to one, in both directions |
| `WindowSpec.QuadrantAt` | test/models/window.js:40-70 | `top` holds iff the local y is strictly above half the height, and `left` iff the local x is strictly left of half the width, as real numbers; the midline goes to the bottom/right |
| `WindowSpec.DragEdge` | test/models/window.js:85-159 | On one axis of a resize, a grabbed near edge follows the pointer while the far edge stays put; otherwise the start stays and the size grows by the pointer's displacement |
| `WindowSpec.RunKeepsValid` | lib/views/window.jsx:45-54 | Over any sequence of calls, a gesture is in progress exactly when an anchor is held |
| `WindowSpec.UpdateAbsorbs` | test/models/window.js:91-101 | Updates are measured from the anchor, so a second update overrides the first |
| `WindowSpec.LastPointerWins` | lib/views/window.jsx:45-50 | After any number of pointer updates, the state is what the last update alone gives; with none, the state is unchanged |
| `WindowSpec.GestureBody` | lib/views/window.jsx:35-50 | The state after a gesture start and any number of updates is the start alone, or the last update applied to the start |
| `WindowSpec.GestureStepKeeps` | test/models/window.js:236-248 | A gesture start leaves the serialized form and the event count alone; a following update changes only the geometry |
| `WindowSpec.GestureSilentUntilEnd` | test/models/window.js:236-248 | A gesture start followed by any number of updates raises no change event |
| `WindowSpec.GestureRaisesOneChange` | test/models/window.js:236-248 | A start, any number of updates and `endChange` raise exactly one change event in total, and the gesture is then over (`INACTIVE`, no anchor) |
| `WindowSpec.GestureKeepsLastGeometry` | test/models/window.js:91-158 | After a whole gesture the serialized form is the one the last update alone gives, and unchanged when there was no update |
| `WindowSpec.InactiveUpdateIsNoOp` | lib/views/window.jsx:46 | `update` outside a gesture changes nothing |
| `WindowSpec.MoveFollowsPointer` | test/models/window.js:21-36 | A move shifts `x`/`y` by the pointer's displacement since the grab, keeps the size and raises no event |
| `WindowSpec.ResizeFollowsPointer` | test/models/window.js:72-159 | A grab left of or above the midline (parent coordinates taken relative to the window) moves that edge with the pointer and keeps the opposite edge; otherwise the position stays and the size grows by the displacement; no event |
| `WindowSpec.NotificationDiscipline` | test/models/window.js:226-269 | No call raises more than one event; gesture starts and updates raise none; `endChange` (also outside a gesture), `setPosition`, `setSize`, `rename` always raise one; `open`/`close` raise one iff they flip `isOpen`; any other call that changes the serialized form raises one |
| `WindowSpec.OpenCloseEvents` | test/models/window.js:250-264 | `open` on an open window is a no-op; the first `close` raises one event, a second none, and a following `open` one more |
| `WindowSpec.Defaults` | test/models/window.js:22-24 | A window built from its id alone is at (0, 0), open, titled "", with size 0, minimum 0, no maximum and no gesture |
| `WindowSpec.ToJSONRoundTrip` | test/models/window.js:194-212 | Building from a complete bag and exporting gives back that bag; rebuilding from a snapshot preserves the snapshot |
| `WindowSpec.GestureStartIsTransient` | test/models/window.js:194-212 | Starting a move or resize does not show in the serialized form |
| `WindowModel.Window.constructor` | test/models/window.js:9-16 | The new window's state is the defaults-filled property bag, with no gesture and no events |
| `WindowModel.Window.Quadrant` | test/models/window.js:40-70 | The quadrant of this window's own size that a local point falls in, as real-valued halves |
| `WindowModel.Window.StartMove` | test/models/window.js:26 | Enters `MOVE` and anchors at the grab point and the current geometry; nothing else changes |
| `WindowModel.Window.StartResize` | test/models/window.js:88 | Enters `RESIZE` and anchors at the grab point, the current geometry and the grabbed quadrant |
| `WindowModel.Window.Update` | test/models/window.js:91-158 | Sets the geometry exactly as `WindowSpec.Update` does, with no event |
| `WindowModel.Window.EndChange` | test/models/window.js:81-83 | Returns to `INACTIVE`, drops the anchor and raises one event |
| `WindowModel.Window.SetPosition` | test/models/window.js:231-234 | Sets `x`, `y` (0 when omitted) and raises one event |
| `WindowModel.Window.SetSize` | test/models/window.js:226-229 | Sets `width`, `height` (0 when omitted) and raises one event |
| `WindowModel.Window.Open` | test/models/window.js:250-257 | Sets `isOpen`, raising an event only if the window was closed |
| `WindowModel.Window.Close` | test/models/window.js:259-264 | Clears `isOpen`, raising an event only if the window was open |
| `WindowModel.Window.Rename` | test/models/window.js:266-269 | Sets the title and always raises one event |
| `WindowModel.Window.ToJSON` | test/models/window.js:194-212 | The twelve persistent fields of the window, with no mode or anchor |
| `WindowScenarios.PlacedSquare` | test/models/window.js:76-79 | The square test window after `setPosition(100,100)` and `setSize(100,100)`: at (100, 100), 100 by 100, two events |
| `WindowScenarios.MoveToPoint` | test/models/window.js:21-36 | Grab at (0, 0) and update to (200, 300): the window is at (200, 300) |
| `WindowScenarios.QuadrantCorners` | test/models/window.js:40-70 | On the 100 by 100 window, (1,1), (99,1), (1,99) and (99,99) are top-left, top-right, bottom-left and bottom-right |
| `WindowScenarios.ResizeLeft` | test/models/window.js:85-102 | Grabbed at (100, 0), dragged by `-change`: `x = 100 - change`, `width = 100 + change`, `y` and `height` kept |
| `WindowScenarios.ResizeTop` | test/models/window.js:104-121 | Grabbed at (0, 100), dragged by `-change`: `y = 100 - change`, `height = 100 + change`, `x` and `width` kept |
| `WindowScenarios.ResizeRight` | test/models/window.js:123-140 | Grabbed at (200, 0), dragged by `-change`: `x = 100`, `width = 100 - change` |
| `WindowScenarios.ResizeBottom` | test/models/window.js:142-159 | Grabbed at (0, 200), dragged by `-change`: `y = 100`, `height = 100 - change` |
| `WindowScenarios.CloseWindow` | test/models/window.js:168-174 | A new window is open, and closed after `close()` |
| `WindowScenarios.RenameWindow` | test/models/window.js:180-188 | A new window's title is "", and `t` after `rename(t)` |
| `WindowScenarios.ExportProps` | test/models/window.js:194-212 | A window built from any complete bag exports exactly that bag |
| `WindowScenarios.ChangeOnSetSize` | test/models/window.js:226-229 | `setSize()` raises exactly one event |
| `WindowScenarios.ChangeOnSetPosition` | test/models/window.js:231-234 | `setPosition()` raises exactly one event |
| `WindowScenarios.ChangeOnMove` | test/models/window.js:236-241 | The move gesture raises exactly one event, at `endChange` |
| `WindowScenarios.ChangeOnResize` | test/models/window.js:243-248 | The resize gesture raises exactly one event, at `endChange` |
| `WindowScenarios.ChangeOnOpen` | test/models/window.js:250-257 | `open` on an open window raises none; `close` one; `open` again one more |
| `WindowScenarios.ChangeOnClose` | test/models/window.js:259-264 | Two `close` calls raise exactly one event |
| `WindowScenarios.ChangeOnRename` | test/models/window.js:266-269 | `rename` raises exactly one event |

## Left out

- `lib/models/window.js`, the window's implementation, is not part of this model. The behaviour follows the test file and the mode codes of the view.
- WindowModel.Window.SetSize: does not clamp to `minWidth`/`maxWidth` and `minHeight`/`maxHeight`. `setSize` is documented to clamp to [min, max], but the tests never exercise it and the implementation file is not part of this model, so the size is set as given.
- WindowModel.Window.StartMove: a call without arguments anchors at (0, 0). In JavaScript the missing arguments are `undefined`, so a grab point computed from them would not be a number. The only test that makes this call checks just its event count (test/models/window.js:236-241).
- WindowModel.Window.StartMove: the anchor also records the width and height, with both edge flags false. The documented move anchor holds only the grab point and the position. A move never reads the extra fields, and no test looks at the anchor.
- Numbers are modelled as unbounded integers. JavaScript numbers are floating point, and non-integer coordinates are not modelled.
- A `maxWidth`/`maxHeight` of `Infinity` is the `Bound` value `Infinite`.
- The event emitter (`on`/`off` with a context object, and listener calls) is modelled only as the ghost counter `changeCount`.
- Focus (`requestFocus`, `isFocused`) and the opaque `content` payload are left out. They are display concerns, and nothing asserts behaviour about them.
- The React view `lib/views/window.jsx` is left out: rendering, CSS classes, and the document `mousemove`/`mouseup` listeners. Its coordinate conversion `parent.convertPoints` is a call into the host. The model takes already-converted integer coordinates. Only the mode codes and the `INACTIVE` guard on pointer moves are reflected.
