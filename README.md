# Pass contexts of a widget-tree UI engine, modelled in Dafny

This project models the context protocol of masonry's `src/contexts.rs`. During
every pass over the widget tree (event, lifecycle, layout, paint), the tree driver
builds a context for each widget it visits. The context borrows two things: the
pass-wide `GlobalPassCtx` and the widget's own `WidgetState` record. Widgets use the
context to raise flags on their record, to record focus and cursor intents, to queue
commands, actions and timers, and, while painting, to defer z-ordered paint
operations.

The model covers debug builds: `init` and `check_init` are compiled only under
`debug_assertions`, and there a violation panics. In the model:

- `Ctx.Init` requires `!isInit`, so a second activation is a protocol violation.
- Every operation that calls `check_init` requires `isInit`.
- The operations the source leaves unchecked do not require it: `register_child`,
  `request_pan_to_this`, `depth`, `region`, `paint_with_z_index` and
  `with_child_ctx`.
- `u32` overflow in `depth + 1` also panics in debug builds. It is a precondition
  of `WithChildCtx`.

Layout of the model:

- `types.dfy` (`Types`): identifiers, cursor and focus changes, targets, commands,
  notifications and actions. Geometry (`Rect`, `Region`, `Affine`) is kept opaque.
- `widget_state.dfy` (`WidgetStates`): the `WidgetState` class, holding the fields the
  contexts touch. `Record()` gives a snapshot of all those fields, so each setter can
  state its whole effect, including what it leaves unchanged.
- `global.dfy` (`Global`): `GlobalPassCtx` with its command queue, action queue and
  timer table. `TimerSource` stands in for the mock timer queue and the window's
  timers. It only promises to return a token it has never returned before.
- `focus.dfy` (`Focus`): the five focus calls as a pure step function on the pending
  intent. It proves that the last call that writes wins.
- `zorder.dfy` (`ZOrder`): z-ordered paint operations. It also models the closure
  passed to `with_child_ctx` as a script of paint steps (activate, schedule a z-op,
  change the render context's transform, paint a nested region). This makes it
  possible to state what a nested context leaves on its parent's list.
- `contexts.dfy` (`Contexts`): the contexts themselves.
  - `Ctx` holds what all five Rust context structs share: `global_state`,
    `widget_state` and `is_init`. A `kind` tag says which struct it stands for.
  - Each method block the source generates for a group of structs becomes a method of
    `Ctx` that requires a kind from that group.
  - `EventCtx`, `LifeCycleCtx` and `PaintCtx` wrap a `Ctx` and add their own fields
    and methods.

Where the code departs from the init protocol as designed (every operation checked,
each diagnostic naming its own operation), the model follows the code:

- Not every context operation is guarded by the initialisation check (see the list
  above).
- `register_as_portal` checks initialisation under the name `register_text_input`.
  That name only affects the diagnostic, so the model just requires `isInit`.

Three functions the contexts call are defined in files that are not part of this model:

- `WidgetState::is_disabled` is modelled as "explicitly disabled or disabled through an
  ancestor", as the doc comment of `is_disabled` states.
- `Command::default_to` is modelled as "an `Auto` target becomes the fallback, an
  explicit target is kept", as the doc comment of `submit_command` states.
- `Command::into_notification` is modelled as "selector and payload are kept, the
  target is dropped, and the given widget becomes the source", as the doc comment of
  `submit_notification` states.

## Model

| member | source | states |
|---|---|---|
| Types.Command.DefaultTo | src/contexts.rs:588-596 | only the target can change: selector and payload are kept, an explicit target is kept, and an explicit fallback leaves the command with an explicit target |
| Types.IntoNotification | src/contexts.rs:670-698 | selector and payload are kept, the command's target is dropped, and the source is the given widget |
| Types.DefaultToIdempotent | src/contexts.rs:1069-1073 | after defaulting to an explicit target the command has an explicit target, and defaulting it again changes nothing |
| Focus.FocusStep | src/contexts.rs:747-828 | `request_focus` and `set_focus` always overwrite the intent; `focus_next`, `focus_prev` and `resign_focus` overwrite it with Next, Previous or Resign only when the widget has focus, and otherwise leave it unchanged |
| Focus.UnwrittenKeepsIntent | src/contexts.rs:776-828 | a sequence of calls none of which writes leaves the pending intent as it was |
| Focus.LastRequestWins | src/contexts.rs:738-767 | on one widget's record: after any sequence of that widget's focus calls, its pending intent is the one recorded by the last call that writes, whatever came before |
| Focus.NoFocusOnlyExplicitRequests | src/contexts.rs:776-828 | for a widget without focus, calls other than `request_focus`/`set_focus` never change the intent |
| WidgetStates.MarkChildrenChanged | src/contexts.rs:525-531 | children-changed, update-focus-chain and needs-layout become true and every other field of the record is unchanged |
| Global.TimerSource.AddTimer | src/contexts.rs:1084-1090 | the timer source returns a token it has never issued and adds it to its issued set |
| Global.GlobalPassCtx.constructor | src/contexts.rs:1044-1067 | every field is taken from the arguments, and no timer has been issued during this pass yet |
| Global.GlobalPassCtx.SubmitCommand | src/contexts.rs:1069-1073 | exactly one command, with its target defaulted to this window, is appended after the existing queue; it has an explicit target, so a queue in which every command has one keeps that property |
| Global.GlobalPassCtx.SubmitAction | src/contexts.rs:1075-1079 | exactly `(action, widget_id, window_id)` is appended after the existing action queue |
| Global.GlobalPassCtx.RequestTimer | src/contexts.rs:1081-1094 | the token comes from the mock queue when one is present and from the window otherwise; afterwards `timers[token] == widget_id` and every other key keeps its value; the token is new to this pass, so the tokens of one pass stay pairwise distinct |
| Contexts.Ctx.constructor | src/contexts.rs:425-429 | a widget context is built already active, so `Init` (which requires an inactive context) can never run on it; every other kind is built inactive, as the paint context literal at 982 is |
| Contexts.Ctx.Init | src/contexts.rs:170-183 | activation requires an inactive context and leaves it active |
| Contexts.Ctx.WidgetId | src/contexts.rs:199-203 | checked: returns the id of the widget's record |
| Contexts.Ctx.WindowId | src/contexts.rs:211-215 | checked: returns the window id of the pass |
| Contexts.Ctx.IsHot | src/contexts.rs:291-294 | checked, not on layout contexts: returns the hot flag |
| Contexts.Ctx.IsActive | src/contexts.rs:306-309 | checked, not on layout contexts: returns the active flag |
| Contexts.Ctx.IsFocused | src/contexts.rs:330-333 | true iff the focused widget of the pass is this very widget |
| Contexts.Ctx.HasFocus | src/contexts.rs:341-344 | checked: returns the has-focus flag (this widget or a descendant) |
| Contexts.Ctx.IsDisabled | src/contexts.rs:346-362 | true iff the widget is explicitly disabled or disabled through an ancestor |
| Contexts.Ctx.IsStashed | src/contexts.rs:364-368 | checked: returns the stashed flag |
| Contexts.Ctx.RequestLayout | src/contexts.rs:509-513 | sets needs-layout and changes nothing else in the record |
| Contexts.Ctx.RequestAnimFrame | src/contexts.rs:516-520 | sets request-anim and changes nothing else in the record |
| Contexts.Ctx.ChildrenChanged | src/contexts.rs:525-531 | the record becomes `MarkChildrenChanged` of the old record |
| Contexts.Ctx.SetDisabled | src/contexts.rs:542-547 | only the pending explicit-disabled value changes; the current one does not |
| Contexts.Ctx.SetStashed | src/contexts.rs:550-554 | the child's stashed flag becomes the argument, nothing else of the child changes, and the parent's record is marked children-changed |
| Contexts.Ctx.InvalidateTextInput | src/contexts.rs:561-571 | appends one IME-invalidation command for this widget, addressed to this window |
| Contexts.Ctx.SubmitCommand | src/contexts.rs:592-596 | checked, not on paint contexts: appends the command, defaulted to this window; the appended command has an explicit target, and a queue of explicitly targeted commands stays so |
| Contexts.Ctx.SubmitAction | src/contexts.rs:599-604 | checked, not on paint contexts: appends `(action, own id, window id)` |
| Contexts.Ctx.RequestTimer | src/contexts.rs:648-653 | checked, not on paint contexts: the new timer is owned by this widget, and its token is fresh for this pass |
| Contexts.EventCtx.SetCursor | src/contexts.rs:384-388 | cursor change becomes `Set(c)`; nothing else changes |
| Contexts.EventCtx.OverrideCursor | src/contexts.rs:400-404 | cursor change becomes `Override(c)`; nothing else changes |
| Contexts.EventCtx.ClearCursor | src/contexts.rs:412-416 | cursor change becomes `Default`; nothing else changes |
| Contexts.EventCtx.SubmitNotification | src/contexts.rs:693-698 | exactly one notification, sourced at this widget, is pushed at the back of the outbox |
| Contexts.EventCtx.NewWindow | src/contexts.rs:700-708 | appends one new-window command with the global target |
| Contexts.EventCtx.RequestPanToThis | src/contexts.rs:710-712 | unchecked: the pan request becomes this widget's layout rectangle |
| Contexts.EventCtx.SetActive | src/contexts.rs:717-722 | only the active flag changes, to the argument |
| Contexts.EventCtx.SetHandled | src/contexts.rs:726-730 | afterwards the event is handled |
| Contexts.EventCtx.IsHandled | src/contexts.rs:733-736 | checked: returns the handled flag |
| Contexts.EventCtx.RequestFocus | src/contexts.rs:747-756 | the intent becomes `Focus(own id)` whatever it was; nothing else changes |
| Contexts.EventCtx.SetFocus | src/contexts.rs:763-767 | the intent becomes `Focus(target)` whatever it was; nothing else changes |
| Contexts.EventCtx.FocusNext | src/contexts.rs:776-787 | the intent becomes `Next` when the widget has focus, and is unchanged otherwise |
| Contexts.EventCtx.FocusPrev | src/contexts.rs:796-807 | the intent becomes `Previous` when the widget has focus, and is unchanged otherwise |
| Contexts.EventCtx.ResignFocus | src/contexts.rs:816-828 | the intent becomes `Resign` when the widget has focus, and is unchanged otherwise |
| Contexts.LifeCycleCtx.RegisterChild | src/contexts.rs:844-847 | unchecked: the child id is added to the registered children; nothing else changes |
| Contexts.LifeCycleCtx.RegisterForFocus | src/contexts.rs:857-861 | the widget's own id is appended to the focus chain; nothing else changes |
| Contexts.LifeCycleCtx.RegisterTextInput | src/contexts.rs:864-871 | one registration for this widget is appended; nothing else changes |
| Contexts.LifeCycleCtx.RegisterAsPortal | src/contexts.rs:874-877 | only the portal flag changes, to true |
| Contexts.PaintCtx.constructor | src/contexts.rs:979-987 | a paint context starts with an empty z-op list at the given depth and region |
| Contexts.PaintCtx.Depth | src/contexts.rs:963-965 | unchecked: returns the depth |
| Contexts.PaintCtx.Region | src/contexts.rs:969-971 | unchecked: returns the visible region |
| Contexts.PaintCtx.PaintWithZIndex | src/contexts.rs:1029-1040 | exactly one op, with the given z-index and the current transform, is appended after the existing ops |
| Contexts.PaintCtx.WithChildCtx | src/contexts.rs:953-990 | the child context is built inactive and exactly one level deeper than its parent, so its depth is greater; afterwards the parent's list is the old list followed by everything the child scheduled, and the shared render context keeps the transform the child left |
| Contexts.PaintCtx.RunScript | src/contexts.rs:988 | running a closure on a context appends what it schedules, leaves the render context at the transform the closure set last, and leaves the context active iff it was active before or the closure activates it |
| ZOrder.ScheduledMatchesFlat | src/contexts.rs:1029-1040 | every z-op scheduled at any nesting depth reaches the root list in the order it ran, carrying the transform set last before it ran (read from the flattened run back to front), and the final transform is the one set last of all |
| ZOrder.LatestTransformAppend | src/contexts.rs:1029-1040 | the transform in effect after two runs is the one the second sets last, or what the first left if the second sets none |
| ZOrder.DeferredAppend | src/contexts.rs:1029-1040 | the ops of two flat runs are those of the first followed by those of the second, which starts from the first one's transform |
| ZOrder.TransformAfterAppend | src/contexts.rs:978-990 | the transform after two closures run one after the other is the second's result started from the first's |
| ZOrder.ScheduledAppend | src/contexts.rs:978-990 | the ops scheduled by two closures run one after the other are the first closure's ops followed by the second's, which start from the transform the first left |
| ZOrder.NestingTransparent | src/contexts.rs:978-990 | painting a body in a nested region schedules exactly the same ops, and leaves the same transform, as painting it in place |

## Left out

- Floating-point geometry is not modelled, because rectangles and regions are opaque
  here. This covers `size`, `window_origin`, `to_window` and `to_screen`, and
  `request_paint` and `request_paint_rect` with their invalid-region arithmetic. It
  also covers `set_paint_insets` and `set_baseline_offset` on the layout context.
- `place_child` is left out. Its hot-state recomputation (`WidgetPod::update_hot_state`)
  and `WidgetState::merge_up` are defined in files that are not part of this model, and
  its paint-rectangle union is floating-point arithmetic.
- `skip_child` is left out: `WidgetPod::mark_as_visited` is not part of this model.
- `run_in_background` and `compute_in_background` are left out: they spawn threads and
  post results through `ExtEventSink`, which is outside this model.
- `with_save` and the drawing calls reached through the `Deref`/`DerefMut` to the
  render context are drawing-surface calls. Of them, the model keeps only what a
  closure leaves as the current transform (the `SetTransform` step); how Piet composes
  transforms is floating-point arithmetic and is not modelled. `window()` and `text()`
  hand out platform handles. All of these are foreign calls.
- `get_mut` is left out: it builds a `WidgetMut` from foreign types. `ctx_name` and the
  wording of the diagnostics are left out: they are string manipulation of type names.
- Release builds are not modelled. There the initialisation guard is compiled out, and
  `is_init` is never even set.
- Constructing the event, lifecycle and layout contexts belongs to the tree driver, in
  files that are not part of this model. Widget contexts are built active by the three
  `get_mut`s, which are themselves left out; `Ctx`'s constructor builds them active. The constructors here only give each field its
  value. Layout contexts carry no exclusive operations in this model.
- Contexts.LifeCycleCtx.RegisterChild: the registered children are a Bloom filter in the
  source. The model uses an exact set, so Bloom false positives are not captured.
- Global.TimerSource.AddTimer: what `MockTimerQueue::add_timer` and
  `WindowHandle::request_timer` actually do lies outside this model. The stand-in issues
  tokens from a counter. Deadlines, advancing the mock clock, and the harness test in
  `widget-cruncher/src/widget/tests/timers.rs` are not modelled.
- After the paint pass, the root list of z-ops is sorted by z-index and executed. That
  step runs after the paint traversal, outside `contexts.rs`, and is not modelled.
  The deferred work of each op is kept only as an opaque tag.
- `EventCtx` keeps its notification outbox as a field of its own. In the source it is
  a borrowed queue, so aliasing with the parent's outbox is not captured.
- Focus arbitration across widgets is not modelled. Each widget's pending intent is
  merged up the tree by `WidgetState::merge_up` and resolved after the pass, both in
  files that are not part of this model, so "the last widget to ask wins" is not
  proved. The `Focus` lemmas are about the intent on one widget's record.
- The `trace!` and `warn!` logging of the contexts is left out, including the warnings
  of `focus_next`, `focus_prev` and `resign_focus` when the widget does not have focus
  (src/contexts.rs:782-785, 802-805 and 822-826). Logging does not change any state.
