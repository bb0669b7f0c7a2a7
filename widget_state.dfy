/** The per-widget mutable record that every context borrows, reduced to the
    fields the contexts read or write. */
module WidgetStates {
  import opened Types

  /** A snapshot of every mutable field of a `WidgetState`, so that a setter
      can state its whole effect as one functional update. */
  datatype WidgetRecord = WidgetRecord(
    layoutRect: Rect,
    isHot: bool,
    isActive: bool,
    hasFocus: bool,
    isExplicitlyDisabled: bool,
    ancestorDisabled: bool,
    isExplicitlyDisabledNew: bool,
    isStashed: bool,
    isPortal: bool,
    needsLayout: bool,
    requestAnim: bool,
    childrenChanged: bool,
    updateFocusChain: bool,
    requestFocus: Option<FocusChange>,
    cursorChange: CursorChange,
    focusChain: seq<WidgetId>,
    children: set<WidgetId>,
    textRegistrations: seq<TextFieldRegistration>)

  /** What `children_changed` does to a record: the three flags go up and
      nothing else moves. */
  function MarkChildrenChanged(r: WidgetRecord): (r': WidgetRecord)
    ensures r'.childrenChanged && r'.updateFocusChain && r'.needsLayout
    ensures r'.(childrenChanged := r.childrenChanged, updateFocusChain := r.updateFocusChain,
                needsLayout := r.needsLayout) == r
  {
    r.(childrenChanged := true, updateFocusChain := true, needsLayout := true)
  }

  class WidgetState {
    const id: WidgetId
    var layoutRect: Rect
    var isHot: bool
    var isActive: bool
    /** This widget or one of its descendants has focus. */
    var hasFocus: bool
    var isExplicitlyDisabled: bool
    /** Some ancestor is disabled. */
    var ancestorDisabled: bool
    /** The explicit-disabled value to commit after the pass. */
    var isExplicitlyDisabledNew: bool
    var isStashed: bool
    var isPortal: bool
    var needsLayout: bool
    var requestAnim: bool
    var childrenChanged: bool
    var updateFocusChain: bool
    var requestFocus: Option<FocusChange>
    var cursorChange: CursorChange
    var focusChain: seq<WidgetId>
    /** The registered children (a Bloom filter in the source, a set here). */
    var children: set<WidgetId>
    var textRegistrations: seq<TextFieldRegistration>

    ghost function Record(): WidgetRecord
      reads this
    {
      WidgetRecord(layoutRect, isHot, isActive, hasFocus, isExplicitlyDisabled, ancestorDisabled,
                   isExplicitlyDisabledNew, isStashed, isPortal, needsLayout, requestAnim,
                   childrenChanged, updateFocusChain, requestFocus, cursorChange, focusChain,
                   children, textRegistrations)
    }

    /** A fresh record: nothing pending, nothing registered. */
    constructor (id: WidgetId, layoutRect: Rect)
      ensures this.id == id
      ensures Record() == WidgetRecord(layoutRect, false, false, false, false, false, false, false,
                                       false, false, false, false, false, None, Default, [], {}, [])
    {
      this.id := id;
      this.layoutRect := layoutRect;
      isHot, isActive, hasFocus := false, false, false;
      isExplicitlyDisabled, ancestorDisabled, isExplicitlyDisabledNew := false, false, false;
      isStashed, isPortal := false, false;
      needsLayout, requestAnim, childrenChanged, updateFocusChain := false, false, false, false;
      requestFocus, cursorChange := None, Default;
      focusChain, children, textRegistrations := [], {}, [];
    }
  }
}
