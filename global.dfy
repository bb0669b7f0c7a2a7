/** The state shared by every context of one pass: the outbound command and
    action queues, the timer table and the timer sources behind it. */
module Global {
  import opened Types

  /** The timer service of the window handle, or the mock timer queue used by
      the test harness. Both live outside `contexts.rs`; what the contexts rely on
      is only that each request gets a token the source has never issued. */
  class TimerSource {
    var nextToken: nat
    ghost var issued: set<TimerToken>

    ghost predicate Valid()
      reads this
    {
      forall t :: t in issued ==> t.raw < nextToken
    }

    constructor ()
      ensures Valid() && issued == {}
    {
      nextToken := 0;
      issued := {};
    }

    /** Schedule a timer for `duration` and hand back its token. */
    method AddTimer(duration: Duration) returns (token: TimerToken)
      requires Valid()
      modifies this
      ensures Valid()
      ensures token !in old(issued) && issued == old(issued) + {token}
    {
      token := TimerToken(nextToken);
      nextToken := nextToken + 1;
      issued := issued + {token};
    }
  }

  class GlobalPassCtx {
    var commandQueue: seq<Command>
    var actionQueue: seq<(Action, WidgetId, WindowId)>
    /** Which widget asked for each live timer. */
    var timers: map<TimerToken, WidgetId>
    /** Present in unit tests, where it replaces the platform timers. */
    const mockTimerQueue: Option<TimerSource>
    /** The window handle, reduced to its timer service. */
    const window: TimerSource
    const windowId: WindowId
    /** The widget that currently has focus; read-only during the pass. */
    const focusWidget: Option<WidgetId>
    /** The tokens `request_timer` has returned during this pass, in order. */
    ghost var passTokens: seq<TimerToken>

    /** The source `request_timer` draws from: the mock queue when present. */
    function Source(): TimerSource
    {
      if mockTimerQueue.Some? then mockTimerQueue.value else window
    }

    /** Every queued command has an explicit target. */
    ghost predicate QueueTargeted()
      reads this`commandQueue
    {
      forall i :: 0 <= i < |commandQueue| ==> !commandQueue[i].target.Auto?
    }

    /** Every token of this pass came from the source and none came twice. */
    ghost predicate Valid()
      reads this`passTokens, Source()
    {
      && Source().Valid()
      && (forall i :: 0 <= i < |passTokens| ==> passTokens[i] in Source().issued)
      && (forall i, j :: 0 <= i < j < |passTokens| ==> passTokens[i] != passTokens[j])
    }

    constructor (commandQueue: seq<Command>, actionQueue: seq<(Action, WidgetId, WindowId)>,
                 timers: map<TimerToken, WidgetId>, mockTimerQueue: Option<TimerSource>,
                 window: TimerSource, windowId: WindowId, focusWidget: Option<WidgetId>)
      requires (if mockTimerQueue.Some? then mockTimerQueue.value else window).Valid()
      ensures Valid() && passTokens == []
      ensures this.commandQueue == commandQueue && this.actionQueue == actionQueue && this.timers == timers
      ensures this.mockTimerQueue == mockTimerQueue && this.window == window
      ensures this.windowId == windowId && this.focusWidget == focusWidget
    {
      this.commandQueue := commandQueue;
      this.actionQueue := actionQueue;
      this.timers := timers;
      this.mockTimerQueue := mockTimerQueue;
      this.window := window;
      this.windowId := windowId;
      this.focusWidget := focusWidget;
      passTokens := [];
    }

    /** Queue `command` after everything already queued, sending a command
        without an explicit target to this window. */
    method SubmitCommand(command: Command)
      modifies this`commandQueue
      ensures commandQueue == old(commandQueue) + [command.DefaultTo(Window(windowId))]
      ensures !commandQueue[|commandQueue| - 1].target.Auto?
      ensures old(QueueTargeted()) ==> QueueTargeted()
    {
      commandQueue := commandQueue + [command.DefaultTo(Window(windowId))];
    }

    /** Queue `action`, tagged with the widget that raised it and this window. */
    method SubmitAction(action: Action, widgetId: WidgetId)
      modifies this`actionQueue
      ensures actionQueue == old(actionQueue) + [(action, widgetId, windowId)]
    {
      actionQueue := actionQueue + [(action, widgetId, windowId)];
    }

    /** Ask the current source for a timer and remember that `widgetId` owns it. */
    method RequestTimer(duration: Duration, widgetId: WidgetId) returns (token: TimerToken)
      requires Valid()
      modifies this`timers, this`passTokens, Source()
      ensures Valid()
      ensures timers == old(timers)[token := widgetId]
      ensures token !in old(passTokens) && passTokens == old(passTokens) + [token]
      ensures token !in old(Source().issued) && Source().issued == old(Source().issued) + {token}
    {
      if mockTimerQueue.Some? {
        token := mockTimerQueue.value.AddTimer(duration);
      } else {
        token := window.AddTimer(duration);
      }
      timers := timers[token := widgetId];
      passTokens := passTokens + [token];
    }
  }
}
