/** The capability-restricted contexts handed to widgets during a pass, with
    the initialisation guard of debug builds: every checked operation
    requires an activated context, and activating twice is refused. */
module Contexts {
  import opened Types
  import opened WidgetStates
  import opened Global
  import opened Focus
  import opened ZOrder

  /** Which of the five context structs a `Ctx` stands for. The groups below
      are the sets of structs each block of shared methods is generated for. */
  datatype CtxKind = WidgetKind | EventKind | LifeCycleKind | LayoutKind | PaintKind
  {
    /** Status queries: every context but the layout one. */
    predicate HasStatus() { !LayoutKind? }

    /** Invalidation and structure changes: widget, event and lifecycle contexts. */
    predicate CanInvalidate() { WidgetKind? || EventKind? || LifeCycleKind? }

    /** Commands, actions and timers: every context but the paint one. */
    predicate CanSubmit() { !PaintKind? }
  }

  /** What all five context structs share: the pass state, the current
      widget's record and the activation flag. */
  class Ctx {
    const kind: CtxKind
    const global: GlobalPassCtx
    const state: WidgetState
    var isInit: bool

    /** A widget context is built active, by `get_mut`, and can never be
        activated again; every other context is built inactive and waits for
        its own activation. */
    constructor (kind: CtxKind, global: GlobalPassCtx, state: WidgetState)
      ensures this.kind == kind && this.global == global && this.state == state
      ensures isInit == kind.WidgetKind?
    {
      this.kind := kind;
      this.global := global;
      this.state := state;
      isInit := kind.WidgetKind?;
    }

    /** Activate the context; a second activation is a protocol violation. */
    method Init()
      requires !isInit
      modifies this`isInit
      ensures isInit
    {
      isInit := true;
    }

    method WidgetId() returns (id: Types.WidgetId)
      requires isInit
      ensures id == state.id
    {
      id := state.id;
    }

    method WindowId() returns (id: Types.WindowId)
      requires isInit
      ensures id == global.windowId
    {
      id := global.windowId;
    }

    method IsHot() returns (hot: bool)
      requires isInit && kind.HasStatus()
      ensures hot == state.isHot
    {
      hot := state.isHot;
    }

    method IsActive() returns (active: bool)
      requires isInit && kind.HasStatus()
      ensures active == state.isActive
    {
      active := state.isActive;
    }

    /** This very widget holds focus (a focused descendant does not count). */
    method IsFocused() returns (focused: bool)
      requires isInit && kind.HasStatus()
      ensures focused <==> global.focusWidget == Some(state.id)
    {
      var id := WidgetId();
      focused := global.focusWidget == Some(id);
    }

    /** This widget or one of its descendants holds focus. */
    method HasFocus() returns (focus: bool)
      requires isInit && kind.HasStatus()
      ensures focus == state.hasFocus
    {
      focus := state.hasFocus;
    }

    /** Disabled explicitly or through an ancestor. */
    method IsDisabled() returns (disabled: bool)
      requires isInit && kind.HasStatus()
      ensures disabled <==> state.isExplicitlyDisabled || state.ancestorDisabled
    {
      disabled := state.isExplicitlyDisabled || state.ancestorDisabled;
    }

    method IsStashed() returns (stashed: bool)
      requires isInit && kind.HasStatus()
      ensures stashed == state.isStashed
    {
      stashed := state.isStashed;
    }

    method RequestLayout()
      requires isInit && kind.CanInvalidate()
      modifies state
      ensures state.Record() == old(state.Record()).(needsLayout := true)
    {
      state.needsLayout := true;
    }

    method RequestAnimFrame()
      requires isInit && kind.CanInvalidate()
      modifies state
      ensures state.Record() == old(state.Record()).(requestAnim := true)
    {
      state.requestAnim := true;
    }

    method ChildrenChanged()
      requires isInit && kind.CanInvalidate()
      modifies state
      ensures state.Record() == MarkChildrenChanged(old(state.Record()))
    {
      state.childrenChanged := true;
      state.updateFocusChain := true;
      RequestLayout();
    }

    /** Record the explicit-disabled value to commit; the effective value
        does not change during the pass. */
    method SetDisabled(disabled: bool)
      requires isInit && kind.CanInvalidate()
      modifies state
      ensures state.Record() == old(state.Record()).(isExplicitlyDisabledNew := disabled)
      ensures state.isExplicitlyDisabled == old(state.isExplicitlyDisabled)
    {
      state.isExplicitlyDisabledNew := disabled;
    }

    /** Stash or unstash a child; the child's own record is a different one. */
    method SetStashed(child: WidgetState, stashed: bool)
      requires isInit && kind.CanInvalidate()
      requires child != state
      modifies child, state
      ensures child.Record() == old(child.Record()).(isStashed := stashed)
      ensures state.Record() == MarkChildrenChanged(old(state.Record()))
    {
      child.isStashed := stashed;
      ChildrenChanged();
    }

    /** Queue an IME invalidation for this widget, addressed to this window. */
    method InvalidateTextInput(event: ImeEvent)
      requires isInit && kind.CanInvalidate()
      modifies global`commandQueue
      ensures global.commandQueue ==
        old(global.commandQueue) + [Command(InvalidateIme, ImeInvalidation(state.id, event), Window(global.windowId))]
    {
      var widget := WidgetId();
      var window := WindowId();
      var cmd := Command(InvalidateIme, ImeInvalidation(widget, event), Window(window));
      SubmitCommand(cmd);
    }

    method SubmitCommand(cmd: Command)
      requires isInit && kind.CanSubmit()
      modifies global`commandQueue
      ensures global.commandQueue == old(global.commandQueue) + [cmd.DefaultTo(Window(global.windowId))]
      ensures !global.commandQueue[|global.commandQueue| - 1].target.Auto?
      ensures old(global.QueueTargeted()) ==> global.QueueTargeted()
    {
      global.SubmitCommand(cmd);
    }

    method SubmitAction(action: Action)
      requires isInit && kind.CanSubmit()
      modifies global`actionQueue
      ensures global.actionQueue == old(global.actionQueue) + [(action, state.id, global.windowId)]
    {
      global.SubmitAction(action, state.id);
    }

    /** Ask for a timer owned by this widget. */
    method RequestTimer(deadline: Duration) returns (token: TimerToken)
      requires isInit && kind.CanSubmit() && global.Valid()
      modifies global`timers, global`passTokens, global.Source()
      ensures global.Valid()
      ensures global.timers == old(global.timers)[token := state.id]
      ensures token !in old(global.passTokens) && global.passTokens == old(global.passTokens) + [token]
      ensures global.Source().issued == old(global.Source().issued) + {token}
    {
      token := global.RequestTimer(deadline, state.id);
    }
  }

  /** The context of event delivery. */
  class EventCtx {
    const ctx: Ctx
    /** The outbox of notifications bubbling up to the parent. */
    var notifications: seq<Notification>
    var isHandled: bool
    const isRoot: bool
    var requestPanToChild: Option<Rect>

    predicate Valid() { ctx.kind.EventKind? }

    constructor (ctx: Ctx, notifications: seq<Notification>, isHandled: bool, isRoot: bool)
      requires ctx.kind.EventKind?
      ensures Valid() && this.ctx == ctx && this.notifications == notifications
      ensures this.isHandled == isHandled && this.isRoot == isRoot && requestPanToChild == None
    {
      this.ctx := ctx;
      this.notifications := notifications;
      this.isHandled := isHandled;
      this.isRoot := isRoot;
      requestPanToChild := None;
    }

    method SetCursor(cursor: Cursor)
      requires Valid() && ctx.isInit
      modifies ctx.state
      ensures ctx.state.Record() == old(ctx.state.Record()).(cursorChange := Set(cursor))
    {
      ctx.state.cursorChange := Set(cursor);
    }

    method OverrideCursor(cursor: Cursor)
      requires Valid() && ctx.isInit
      modifies ctx.state
      ensures ctx.state.Record() == old(ctx.state.Record()).(cursorChange := Override(cursor))
    {
      ctx.state.cursorChange := Override(cursor);
    }

    method ClearCursor()
      requires Valid() && ctx.isInit
      modifies ctx.state
      ensures ctx.state.Record() == old(ctx.state.Record()).(cursorChange := Default)
    {
      ctx.state.cursorChange := Default;
    }

    /** Push one notification, sourced at this widget, at the back of the outbox. */
    method SubmitNotification(note: Command)
      requires Valid() && ctx.isInit
      modifies this`notifications
      ensures notifications == old(notifications) + [IntoNotification(note, ctx.state.id)]
      ensures notifications[|notifications| - 1].source == ctx.state.id
    {
      var n := IntoNotification(note, ctx.state.id);
      notifications := notifications + [n];
    }

    /** Ask the host to open a window; the command goes to the global target. */
    method NewWindow(desc: WindowDesc)
      requires Valid() && ctx.isInit
      modifies ctx.global`commandQueue
      ensures ctx.global.commandQueue ==
        old(ctx.global.commandQueue) + [Command(Types.NewWindow, NewWindowPayload(desc), Global)]
    {
      ctx.SubmitCommand(Command(Types.NewWindow, NewWindowPayload(desc), Global));
    }

    /** Ask the enclosing portal to scroll this widget into view; unchecked. */
    method RequestPanToThis()
      modifies this`requestPanToChild
      ensures requestPanToChild == Some(ctx.state.layoutRect)
    {
      requestPanToChild := Some(ctx.state.layoutRect);
    }

    method SetActive(active: bool)
      requires Valid() && ctx.isInit
      modifies ctx.state
      ensures ctx.state.Record() == old(ctx.state.Record()).(isActive := active)
    {
      ctx.state.isActive := active;
    }

    /** Stop the event from propagating further. */
    method SetHandled()
      requires Valid() && ctx.isInit
      modifies this`isHandled
      ensures isHandled
    {
      isHandled := true;
    }

    method IsHandled() returns (handled: bool)
      requires Valid() && ctx.isInit
      ensures handled == isHandled
    {
      handled := isHandled;
    }

    /** Ask for focus on this widget, overriding any earlier intent. */
    method RequestFocus()
      requires Valid() && ctx.isInit
      modifies ctx.state
      ensures ctx.state.requestFocus == Some(Focus(ctx.state.id))
      ensures ctx.state.Record() == old(ctx.state.Record()).(requestFocus :=
        FocusStep(old(ctx.state.requestFocus), RequestFocusCall, ctx.state.id, old(ctx.state.hasFocus)))
    {
      var id := ctx.WidgetId();
      ctx.state.requestFocus := Some(Focus(id));
    }

    /** Ask for focus on `target`, overriding any earlier intent. */
    method SetFocus(target: Types.WidgetId)
      requires Valid() && ctx.isInit
      modifies ctx.state
      ensures ctx.state.requestFocus == Some(Focus(target))
      ensures ctx.state.Record() == old(ctx.state.Record()).(requestFocus :=
        FocusStep(old(ctx.state.requestFocus), SetFocusCall(target), ctx.state.id, old(ctx.state.hasFocus)))
    {
      ctx.state.requestFocus := Some(Focus(target));
    }

    /** Move focus forward; only a widget that has focus may (otherwise a warning). */
    method FocusNext()
      requires Valid() && ctx.isInit
      modifies ctx.state
      ensures ctx.state.requestFocus == if old(ctx.state.hasFocus) then Some(Next) else old(ctx.state.requestFocus)
      ensures ctx.state.Record() == old(ctx.state.Record()).(requestFocus :=
        FocusStep(old(ctx.state.requestFocus), FocusNextCall, ctx.state.id, old(ctx.state.hasFocus)))
    {
      var focus := ctx.HasFocus();
      if focus {
        ctx.state.requestFocus := Some(Next);
      }
    }

    /** Move focus backward; only a widget that has focus may (otherwise a warning). */
    method FocusPrev()
      requires Valid() && ctx.isInit
      modifies ctx.state
      ensures ctx.state.requestFocus == if old(ctx.state.hasFocus) then Some(Previous) else old(ctx.state.requestFocus)
      ensures ctx.state.Record() == old(ctx.state.Record()).(requestFocus :=
        FocusStep(old(ctx.state.requestFocus), FocusPrevCall, ctx.state.id, old(ctx.state.hasFocus)))
    {
      var focus := ctx.HasFocus();
      if focus {
        ctx.state.requestFocus := Some(Previous);
      }
    }

    /** Give focus up; only a widget that has focus may (otherwise a warning). */
    method ResignFocus()
      requires Valid() && ctx.isInit
      modifies ctx.state
      ensures ctx.state.requestFocus == if old(ctx.state.hasFocus) then Some(Resign) else old(ctx.state.requestFocus)
      ensures ctx.state.Record() == old(ctx.state.Record()).(requestFocus :=
        FocusStep(old(ctx.state.requestFocus), ResignFocusCall, ctx.state.id, old(ctx.state.hasFocus)))
    {
      var focus := ctx.HasFocus();
      if focus {
        ctx.state.requestFocus := Some(Resign);
      } else {
        var id := ctx.WidgetId();  // named in the warning
      }
    }
  }

  /** The context of lifecycle notification. */
  class LifeCycleCtx {
    const ctx: Ctx

    predicate Valid() { ctx.kind.LifeCycleKind? }

    constructor (ctx: Ctx)
      requires ctx.kind.LifeCycleKind?
      ensures Valid() && this.ctx == ctx
    {
      this.ctx := ctx;
    }

    /** Called by the tree driver; unchecked. */
    method RegisterChild(childId: Types.WidgetId)
      modifies ctx.state
      ensures ctx.state.Record() == old(ctx.state.Record()).(children := old(ctx.state.children) + {childId})
    {
      ctx.state.children := ctx.state.children + {childId};
    }

    /** Append this widget to the focus chain being built. */
    method RegisterForFocus()
      requires Valid() && ctx.isInit
      modifies ctx.state
      ensures ctx.state.Record() == old(ctx.state.Record()).(focusChain := old(ctx.state.focusChain) + [ctx.state.id])
    {
      var id := ctx.WidgetId();
      ctx.state.focusChain := ctx.state.focusChain + [id];
    }

    method RegisterTextInput(document: DocumentRef)
      requires Valid() && ctx.isInit
      modifies ctx.state
      ensures ctx.state.Record() == old(ctx.state.Record()).(textRegistrations :=
        old(ctx.state.textRegistrations) + [TextFieldRegistration(document, ctx.state.id)])
    {
      var id := ctx.WidgetId();
      ctx.state.textRegistrations := ctx.state.textRegistrations + [TextFieldRegistration(document, id)];
    }

    method RegisterAsPortal()
      requires Valid() && ctx.isInit
      modifies ctx.state
      ensures ctx.state.Record() == old(ctx.state.Record()).(isPortal := true)
    {
      ctx.state.isPortal := true;
    }
  }

  /** The render surface, reduced to the transform currently in effect. */
  class RenderContext {
    var transform: Affine

    constructor (transform: Affine)
      ensures this.transform == transform
    {
      this.transform := transform;
    }
  }

  /** The context of painting, with its list of deferred z-ordered operations. */
  class PaintCtx {
    const ctx: Ctx
    const render: RenderContext
    var zOps: seq<ZOp>
    const region: Types.Region
    /** Approximate depth in the tree: a child's is greater than its parent's. */
    const depth: u32

    predicate Valid() { ctx.kind.PaintKind? }

    constructor (ctx: Ctx, render: RenderContext, region: Types.Region, depth: u32)
      requires ctx.kind.PaintKind?
      ensures Valid() && this.ctx == ctx && this.render == render
      ensures this.region == region && this.depth == depth && zOps == []
    {
      this.ctx := ctx;
      this.render := render;
      this.region := region;
      this.depth := depth;
      zOps := [];
    }

    /** Unchecked. */
    method Depth() returns (d: u32)
      ensures d == depth
    {
      d := depth;
    }

    /** The region to repaint; unchecked. */
    method Region() returns (r: Types.Region)
      ensures r == region
    {
      r := region;
    }

    /** Defer `paint` to after the pass, with priority `zIndex` and the
        transform in effect now. */
    method PaintWithZIndex(zIndex: u32, paint: DeferredPaint)
      modifies this`zOps
      ensures zOps == old(zOps) + [ZOp(zIndex, paint, render.transform)]
    {
      var current := render.transform;
      zOps := zOps + [ZOp(zIndex, paint, current)];
    }

    /** Run `body` in a fresh, inactive paint context one level deeper and
        restricted to `region`, then move what it deferred onto this list.
        The child shares the render context, so a transform it sets stays
        set. The ghost results report the child's depth and its activation
        flag as the child was built. */
    method WithChildCtx(region: Types.Region, body: seq<PaintStep>)
        returns (ghost childDepth: u32, ghost childStartedInit: bool)
      requires Valid() && Runnable(body, false)
      requires depth as int + 1 + NestingDepth(body) <= U32_MAX
      modifies this`zOps, render`transform
      ensures childDepth as int == depth as int + 1 && depth < childDepth && !childStartedInit
      ensures zOps == old(zOps) + Scheduled(body, old(render.transform))
      ensures render.transform == TransformAfter(body, old(render.transform))
      decreases body, 1
    {
      var childBase := new Ctx(PaintKind, ctx.global, ctx.state);
      var child := new PaintCtx(childBase, render, region, depth + 1);
      childDepth, childStartedInit := child.depth, childBase.isInit;
      child.RunScript(body);
      zOps := zOps + child.zOps;
    }

    /** Run a paint closure, given as a script of steps, on this context. */
    method RunScript(steps: seq<PaintStep>)
      requires Valid() && Runnable(steps, ctx.isInit)
      requires depth as int + NestingDepth(steps) <= U32_MAX
      modifies this`zOps, ctx`isInit, render`transform
      ensures zOps == old(zOps) + Scheduled(steps, old(render.transform))
      ensures render.transform == TransformAfter(steps, old(render.transform))
      ensures ctx.isInit == (old(ctx.isInit) || Init in steps)
      decreases steps, 0
    {
      if steps != [] {
        assert steps == [steps[0]] + steps[1..];
        match steps[0] {
          case Init => ctx.Init();
          case ZIndexed(z, f) => PaintWithZIndex(z, f);
          case SetTransform(a) => render.transform := a;  // through the deref to the render context
          case Nested(r, body) =>
            ghost var childDepth, childStartedInit := WithChildCtx(r, body);
        }
        RunScript(steps[1..]);
      }
    }
  }
}
