# fltk-accesskit: node building and tree snapshots

This project models how fltk-accesskit exposes an FLTK window to assistive
technology through accesskit. It covers three parts:

- **Node builder** (`Accessible`, from `src/accessible.rs`). Every recognised
  widget kind has a `make_node`. It starts an accesskit `NodeBuilder` with the
  kind's role and sets the kind's own fields: checked state, numeric range,
  value, multiline flag, window transform, SetValue action. It then calls the
  shared `node_common`, which sets:
  - the bounds;
  - the name, taken from the label;
  - the Click verb, when the callback trigger contains "release";
  - the Focus action, when the widget takes events and shows visible focus;
  - the supplied child ids, in order.

  `MakeNode` is written step by step with a builder class. It is proved equal
  to the declarative `NodeOf`, and the lemmas state the role table and the
  field rules about `NodeOf`.
- **Snapshot assembly** (`Context`, from `src/lib.rs`). `AccessibilityContext::new`
  and the `KeyUp` branch of the window's event handler run the same loop. It
  builds one childless node per registered widget in registration order, then
  the root window's node, whose children are exactly those ids, and appends
  that node last. `BuildNodes` is that loop and is proved equal to `Snapshot`.
  For widgets of the crate's own widget kinds, the lemmas show that the
  snapshot is a well-formed accesskit tree:
  - the root is a Window node;
  - every child id is a node;
  - ids are distinct exactly when the widgets are;
  - the focus names a node exactly when it can.
- **Adapter** (`FltkAdapter`, from `src/fltk_adapter.rs`):
  - `request_initial_tree` returns the stored nodes with the window as tree
    root. The focus is the focused widget, or the window when nothing has focus.
  - The resize callback reports identical outer and inner rectangles.
  - `update_if_active` delivers an update only to an attached consumer. It is
    modelled by an `Adapter` class that records what it delivered.

Toolkit queries become a `Toolkit` parameter: the scale of screen 0 and the
widget that holds focus. A widget is a `Widget` value carrying everything
`make_node` reads. A widget's identity is its pointer (`Handle`). The node id
is that pointer wrapped in `NodeId`. The source casts it to `u128` in
`node_common` and to `u64` in `request_initial_tree`; the model uses one id
for both.

Behaviours of the code worth stating outright, because a reader might expect
otherwise:
- On `KeyUp` with no focused widget, nothing is published. There is no
  fallback to the root.
- A `Frame` is always a StaticText node. There is no Image role.
- The name is always set, even to an empty label.
- Input, IntInput, FloatInput, MultilineInput and TextEditor set a Focus
  default verb. No text kind adds SetValue. A text widget has the Focus action
  only through `node_common`'s takes-events/visible-focus predicate.
- The crate has no exclusion set, no recursive collection, no menu-item expansion
  and no action dispatch logic.

## Model

| member | source | states |
|---|---|---|
| `Accessible.WrappingAdd` | src/accessible.rs:19-20 | the `i32` sums `w + x` and `h + y` are exact when they fit in `i32` and wrap by 2^32 otherwise |
| `Accessible.BoundsOf` | src/accessible.rs:15-29 | a child that is not a window gets origin `(x, y)`, with width `w` and height `h` when no `i32` overflow occurs; a window or a parentless widget gets exactly `(0, 0, w, h)` |
| `Accessible.NodeCommon` | src/accessible.rs:12-41 | returns the widget's id; the builder gains the bounds, the name, the Click verb when the trigger has "release", Focus when the widget takes events and shows focus, and the children appended in the order supplied |
| `Accessible.KindBuilder` | src/accessible.rs:43-411 | a fresh builder holding exactly the role and the kind-specific fields each `make_node` sets before `node_common` |
| `Accessible.MakeNode` | src/accessible.rs:12-411 | `make_node(children)` returns the widget's id and the node `NodeOf` specifies, so every property proved about `NodeOf` holds of it |
| `Accessible.IdInjective` | src/accessible.rs:13-14 | two widgets get equal ids if and only if they are the same widget, so the same widget always gets the same id |
| `Accessible.CommonFields` | src/accessible.rs:15-39 | the node's name is the label, its children are exactly the supplied ids in order, and its bounds follow the bounds rule |
| `Accessible.ActionsRule` | src/accessible.rs:34-395 | Focus is an action if and only if the widget takes events and shows visible focus; SetValue is one if and only if the widget is a slider kind (never a scrollbar) |
| `Accessible.VerbRule` | src/accessible.rs:31-184 | the verb is Click if and only if the trigger contains "release"; without it, the verb is Focus exactly for Input, IntInput, FloatInput, MultilineInput and TextEditor, and every other kind has no verb |
| `Accessible.ToggleChecked` | src/accessible.rs:51-88 | radio, check and toggle buttons have a checked state, which is True if and only if the button is on and is never Mixed; no other kind has one; their roles are RadioButton, CheckBox and ToggleButton, and only theirs |
| `Accessible.ValuatorFields` | src/accessible.rs:190-395 | sliders and scrollbars copy value, minimum, maximum and step unchanged; other kinds have none of the four numeric fields; the role is Slider exactly for the slider kinds and ScrollBar exactly for the scrollbar |
| `Accessible.TextFields` | src/accessible.rs:99-188 | the six input and text kinds are TextField and only they are; Frame, Output and MultilineOutput are StaticText and only they are; only MultilineInput and MultilineOutput are multiline; TextDisplay and TextEditor take their value from the buffer only when one exists; the other text kinds use their text |
| `Accessible.OtherRoles` | src/accessible.rs:43-411 | Button, Window, MenuBar and Choice map to Button, Window, MenuBar and PopupButton and nothing else does; only a window carries the screen-scale transform |
| `FltkAdapter.RequestInitialTree` | src/fltk_adapter.rs:26-37 | always an update carrying the stored nodes unchanged with tree root `win_id`; focus is the focused widget's id, or `win_id` when nothing has focus |
| `FltkAdapter.RootWindowBounds` | src/fltk_adapter.rs:86-107 | the outer and inner rectangles are identical, each with origin `(x, y)`, width `w` and height `h` |
| `FltkAdapter.ResizeMatchesWindowNode` | src/fltk_adapter.rs:86-107 | the rectangle reported on resize is the window node's own bounds moved to the window's position |
| `FltkAdapter.Adapter.constructor` | src/fltk_adapter.rs:67-72 | a new adapter holds the activation handler, has published nothing and has no window bounds yet |
| `FltkAdapter.Adapter.UpdateIfActive` | src/fltk_adapter.rs:140-142 | the update is appended to what was delivered if a consumer is attached, and dropped otherwise |
| `FltkAdapter.Adapter.OnResize` | src/fltk_adapter.rs:82-109 | the resize callback stores the two rectangles of `RootWindowBounds` and changes nothing else |
| `Context.Ids` | src/lib.rs:26 | the ids of a node list, one per node, in the same order |
| `Context.WidgetNodes` | src/lib.rs:21-25 | one node per registered widget |
| `Context.Snapshot` | src/lib.rs:21-27 | the node list has one entry more than there are widgets |
| `Context.BuildNodes` | src/lib.rs:21-27 | the loop yields exactly `Snapshot`, and the returned window id is the root's id and the id of the node appended last |
| `Context.WidgetNodesAt` | src/lib.rs:22-25 | entry i is widget i's id with the node built from an empty child list |
| `Context.SnapshotShape` | src/lib.rs:21-27 | `widgets.len() + 1` nodes: the widgets' childless nodes in registration order, then exactly one root node whose children are the widgets' ids in the same order |
| `Context.SnapshotIds` | src/lib.rs:26-27 | the snapshot's ids are the widgets' ids followed by the root's |
| `Context.SnapshotChildrenClosed` | src/lib.rs:22-27 | every child id that any node lists is the id of a node in the snapshot |
| `Context.SnapshotIdsDistinct` | src/lib.rs:26-28 | the snapshot's ids are pairwise distinct if and only if the registered widgets and the root are pairwise distinct widgets |
| `Context.FocusedIdInSnapshot` | src/lib.rs:59-60 | a focused widget's id names a node of the snapshot if and only if that widget is registered or is the root |
| `Context.InitialTreeWellFormed` | src/lib.rs:26-29 | the initial tree's root is its last node, which is a Window node; every child id is a node; and its focus names a node if and only if nothing has focus or the focused widget is registered or is the root |
| `Context.AccessibilityContext.constructor` | src/lib.rs:20-35 | the activation handler receives the snapshot and the root's id as `win_id`, which is the id of its last node |
| `Context.AccessibilityContext.HandleEvent` | src/lib.rs:44-72 | each registered widget keeps its pointer and its concrete type; every event is reported unhandled; on `KeyUp` with a focused widget and an attached consumer, exactly one update is published, holding the fresh snapshot, no tree root and the focused widget's id as focus; otherwise nothing is published |

## Left out

- `src/platform_adapter.rs` is not part of this model. It selects a native accesskit adapter per platform and calls into native code. Its observable effect is represented by `Adapter.active` and `Adapter.published`. The `events.raise()` performed on Windows and macOS is not modelled.
- `FltkActionHandler::do_action` is not modelled. It turns an action code into a raw FLTK event by an unsafe transmute, which is a foreign call with no logic to state. `Adapter::on_event` is a raw event forward and is also not modelled.
- `FltkDeactivationHandler::deactivate_accessibility` does nothing. When the consumer attaches or detaches is up to the transport, so `active` is a constructor parameter.
- The shared `Rc<RefCell<…>>` ownership of the platform adapter is not modelled. Neither is the registration of the resize closure. `OnResize` stands for one call of that closure.
- The resize callback is modelled as it runs on Linux and the BSDs. On Windows and macOS its body is compiled out and a resize does nothing.
- `Accessible.BoundsOf`: for a child widget, the width and height are stated only when `x + w` and `y + h` fit in `i32`. Otherwise `WrappingAdd` gives the wrapped result of a release build. A debug build would panic instead.
- `FltkAdapter.RootWindowBounds`: accesskit's `Rect::from_origin_size` is not part of this model. It is taken as `(x, y, x + w, y + h)`, which is what it yields for non-negative sizes.
- Floating point: valuator value, minimum, maximum and step are `f64` bit patterns that are only copied through. The screen scale is an `f32` bit pattern. Its conversion to `f64` inside `Affine::scale` is not modelled.
- accesskit's `NodeBuilder` and `NodeClassSet` are not part of this model. `make_node` is modelled in the one-argument form that `src/lib.rs` calls. The builder is taken to overwrite a field on each setter call, to add to the action set, and to append children. Under that overwrite assumption, a widget whose trigger contains "release" ends with the Click verb even when its kind set Focus first, as `VerbRule` states. accesskit's own handling of the second setter call is not part of this model.
- The pointer-to-`NonZeroU128` cast is replaced by `NodeId(handle)` over a positive handle. Whether a handle still denotes a live widget is not modelled.
- The `update_if_active` closure is only called when a consumer is attached. Its laziness is not modelled: the update value is built before the call, which changes nothing observable.
- `Context`: only widgets of the crate's own `impl Accessible` kinds are modelled, as the closed `Kind` datatype. `Accessible` is a public trait, and a user implementation may return any id and any children. `SnapshotShape`, `SnapshotChildrenClosed`, `SnapshotIdsDistinct`, `FocusedIdInSnapshot` and `InitialTreeWellFormed` do not cover such widgets.
- The example programs are not part of this model.
