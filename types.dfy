/** Value types the pass contexts pass around: identifiers, cursor and focus
    intents, commands, notifications, actions and the opaque geometry and
    rendering values whose arithmetic is not modelled. */
module Types {

  datatype Option<+T> = None | Some(value: T)

  /** Unsigned 32-bit integers, the type of `z_index` and `depth`. */
  newtype u32 = x: int | 0 <= x < 0x1_0000_0000

  const U32_MAX: int := 0xFFFF_FFFF

  /** Identifiers; `raw` is what `to_raw()` returns. */
  datatype WidgetId = WidgetId(raw: nat)
  datatype WindowId = WindowId(raw: nat)
  datatype TimerToken = TimerToken(raw: nat)

  datatype Duration = Duration(nanos: nat)

  /** Opaque geometry and rendering values: this model never computes with them. */
  datatype Rect = Rect(x0: real, y0: real, x1: real, y1: real)
  datatype Region = Region(rects: seq<Rect>)
  datatype Affine = Affine(coeffs: seq<real>)
  datatype Cursor = Cursor(name: string)

  /** A pending cursor change recorded on a widget. */
  datatype CursorChange = Default | Set(cursor: Cursor) | Override(cursor: Cursor)

  /** A pending focus change recorded on a widget; resolved after the pass. */
  datatype FocusChange = Resign | Focus(target: WidgetId) | Next | Previous

  /** Where a command is delivered. `Auto` means "no explicit target". */
  datatype Target = Global | Window(window: WindowId) | Widget(widget: WidgetId) | Auto

  /** Opaque payloads built by the contexts themselves or handed in by widgets. */
  datatype ImeEvent = ImeEvent(code: nat)
  datatype WindowDesc = WindowDesc(tag: nat)
  datatype DocumentRef = DocumentRef(tag: nat)

  datatype Selector = InvalidateIme | NewWindow | UserSelector(name: string)

  datatype Payload =
    | NoPayload
    | ImeInvalidation(widget: WidgetId, event: ImeEvent)
    | NewWindowPayload(desc: WindowDesc)
    | UserPayload(tag: nat)

  datatype Command = Command(selector: Selector, payload: Payload, target: Target)
  {
    /** `Command::default_to`: only the target can change; an explicit one
        is kept, and an explicit fallback leaves no command without one. */
    function DefaultTo(fallback: Target): (r: Command)
      ensures r.selector == selector && r.payload == payload
      ensures !target.Auto? ==> r.target == target
      ensures !fallback.Auto? ==> !r.target.Auto?
    {
      if target.Auto? then this.(target := fallback) else this
    }
  }

  /** A command turned into a notification travelling up from `source`. */
  datatype Notification = Notification(selector: Selector, payload: Payload, source: WidgetId)

  /** `Command::into_notification`: the target is dropped, the source recorded. */
  function IntoNotification(cmd: Command, source: WidgetId): (r: Notification)
    ensures r.selector == cmd.selector && r.payload == cmd.payload && r.source == source
  {
    Notification(cmd.selector, cmd.payload, source)
  }

  datatype Action = Action(tag: nat)

  /** A widget's registration as a text-input handler. */
  datatype TextFieldRegistration = TextFieldRegistration(document: DocumentRef, widgetId: WidgetId)

  /** Defaulting is idempotent once the fallback is itself explicit: a command
      that went through the queue once keeps its target if it is queued again. */
  lemma DefaultToIdempotent(cmd: Command, fallback: Target, other: Target)
    requires !fallback.Auto?
    ensures !cmd.DefaultTo(fallback).target.Auto?
    ensures cmd.DefaultTo(fallback).DefaultTo(other) == cmd.DefaultTo(fallback)
  {
  }
}
