/** The focus-intent calls of an event context, as a pure step function on the
    widget's pending `request_focus`, and what any sequence of them leaves
    behind: the last call that writes wins. */
module Focus {
  import opened Types

  /** The five focus calls of `EventCtx`. */
  datatype FocusCall =
    | RequestFocusCall
    | SetFocusCall(target: WidgetId)
    | FocusNextCall
    | FocusPrevCall
    | ResignFocusCall

  /** Whether `call` overwrites the pending intent: `request_focus` and
      `set_focus` always do, the other three only while the widget has focus. */
  predicate Writes(call: FocusCall, hasFocus: bool)
  {
    call.RequestFocusCall? || call.SetFocusCall? || hasFocus
  }

  /** The intent a writing call records. */
  function Intent(call: FocusCall, self: WidgetId): FocusChange
  {
    match call
    case RequestFocusCall => Focus(self)
    case SetFocusCall(t) => Focus(t)
    case FocusNextCall => Next
    case FocusPrevCall => Previous
    case ResignFocusCall => Resign
  }

  /** The pending intent after one call by widget `self`. */
  function FocusStep(current: Option<FocusChange>, call: FocusCall, self: WidgetId, hasFocus: bool): (r: Option<FocusChange>)
    ensures Writes(call, hasFocus) ==> r == Some(Intent(call, self))
    ensures !Writes(call, hasFocus) ==> r == current
  {
    match call
    case RequestFocusCall => Some(Focus(self))
    case SetFocusCall(t) => Some(Focus(t))
    case FocusNextCall => if hasFocus then Some(Next) else current
    case FocusPrevCall => if hasFocus then Some(Previous) else current
    case ResignFocusCall => if hasFocus then Some(Resign) else current
  }

  /** The pending intent after `calls`, made in order during one event. */
  function FocusAfter(current: Option<FocusChange>, calls: seq<FocusCall>, self: WidgetId, hasFocus: bool): Option<FocusChange>
    decreases |calls|
  {
    if calls == [] then current
    else FocusAfter(FocusStep(current, calls[0], self, hasFocus), calls[1..], self, hasFocus)
  }

  /** Calls that do not write leave the pending intent alone; in particular
      `focus_next`, `focus_prev` and `resign_focus` by a widget without focus. */
  lemma {:induction false} UnwrittenKeepsIntent(current: Option<FocusChange>, calls: seq<FocusCall>, self: WidgetId, hasFocus: bool)
    requires forall j :: 0 <= j < |calls| ==> !Writes(calls[j], hasFocus)
    ensures FocusAfter(current, calls, self, hasFocus) == current
    decreases |calls|
  {
    if calls != [] {
      UnwrittenKeepsIntent(current, calls[1..], self, hasFocus);
    }
  }

  /** Last request wins: the pending intent after a sequence of calls is the
      one recorded by the last call that writes, whatever came before it. */
  lemma {:induction false} LastRequestWins(current: Option<FocusChange>, calls: seq<FocusCall>, self: WidgetId, hasFocus: bool, i: nat)
    requires i < |calls| && Writes(calls[i], hasFocus)
    requires forall j :: i < j < |calls| ==> !Writes(calls[j], hasFocus)
    ensures FocusAfter(current, calls, self, hasFocus) == Some(Intent(calls[i], self))
    decreases |calls|
  {
    var next := FocusStep(current, calls[0], self, hasFocus);
    if i == 0 {
      UnwrittenKeepsIntent(next, calls[1..], self, hasFocus);
    } else {
      LastRequestWins(next, calls[1..], self, hasFocus, i - 1);
    }
  }

  /** A widget without focus can change its intent only through
      `request_focus` and `set_focus`: if it made neither, nothing changed. */
  lemma {:induction false} NoFocusOnlyExplicitRequests(current: Option<FocusChange>, calls: seq<FocusCall>, self: WidgetId)
    requires forall j :: 0 <= j < |calls| ==> !calls[j].RequestFocusCall? && !calls[j].SetFocusCall?
    ensures FocusAfter(current, calls, self, false) == current
  {
    UnwrittenKeepsIntent(current, calls, self, false);
  }
}
