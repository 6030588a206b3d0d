/** What the blanket `impl<T: ViewWrapper> View for T` of
    src/view/view_wrapper.rs gives a whole stack of wrappers: when every
    layer is available the stack acts as its innermost component, and when
    any layer is blocked the stack gives that operation's default and
    nothing changes.  Also the unwrap operation after a run of forwarded
    calls. */
module Transparency {
  import opened Results
  import opened Geometry
  import opened ViewWrapper

  /** Every wrapper layer down to the innermost component lets reads through. */
  predicate AllReadable(v: View) {
    match v
    case Leaf(_, _) => true
    case Wrapped(w) => Readable(w) && AllReadable(w.child)
  }

  /** Every wrapper layer down to the innermost component lets updates through. */
  predicate AllWritable(v: View) {
    match v
    case Leaf(_, _) => true
    case Wrapped(w) => Writable(w) && AllWritable(w.child)
  }

  /** The innermost component, the one that is not a wrapper. */
  function Innermost(v: View): (leaf: View)
    ensures leaf.Leaf?
  {
    match v
    case Leaf(_, _) => v
    case Wrapped(w) => Innermost(w.child)
  }

  /** `v` with its innermost component replaced by `leaf`. */
  function WithInnermost(v: View, leaf: View): (r: View)
    ensures leaf.Leaf? ==> Layers(r) == Layers(v)
  {
    match v
    case Leaf(_, _) => leaf
    case Wrapped(w) => Wrapped(w.(child := WithInnermost(w.child, leaf)))
  }

  lemma {:induction false} DrawThroughLayers(v: View, printer: Printer)
    ensures AllReadable(v) ==>
      Draw(v, printer) == Draw(Innermost(v), printer)
    ensures !AllReadable(v) ==> Draw(v, printer) == []
  {
    match v
    case Leaf(_, _) =>
    case Wrapped(w) => DrawThroughLayers(w.child, printer);
  }

  lemma {:induction false} RequiredSizeThroughLayers(v: View, req: Vec2)
    ensures AllWritable(v) ==> RequiredSize(v, req).1 == RequiredSize(Innermost(v), req).1
    ensures AllWritable(v) ==> RequiredSize(v, req).0 == WithInnermost(v, RequiredSize(Innermost(v), req).0)
    ensures !AllWritable(v) ==> RequiredSize(v, req).1 == Zero
    ensures !AllWritable(v) ==> RequiredSize(v, req).0 == v
  {
    match v
    case Leaf(_, _) =>
    case Wrapped(w) => RequiredSizeThroughLayers(w.child, req);
  }

  lemma {:induction false} OnEventThroughLayers(v: View, event: Event)
    ensures AllWritable(v) ==> OnEvent(v, event).1 == OnEvent(Innermost(v), event).1
    ensures AllWritable(v) ==> OnEvent(v, event).0 == WithInnermost(v, OnEvent(Innermost(v), event).0)
    ensures !AllWritable(v) ==> OnEvent(v, event).1 == Ignored
    ensures !AllWritable(v) ==> OnEvent(v, event).0 == v
  {
    match v
    case Leaf(_, _) =>
    case Wrapped(w) => OnEventThroughLayers(w.child, event);
  }

  lemma {:induction false} LayoutThroughLayers(v: View, size: Vec2)
    ensures AllWritable(v) ==>
      Layout(v, size) == WithInnermost(v, Layout(Innermost(v), size))
    ensures !AllWritable(v) ==> Layout(v, size) == v
  {
    match v
    case Leaf(_, _) =>
    case Wrapped(w) => LayoutThroughLayers(w.child, size);
  }

  lemma {:induction false} TakeFocusThroughLayers(v: View, source: Direction)
    ensures AllWritable(v) ==> TakeFocus(v, source).1 == TakeFocus(Innermost(v), source).1
    ensures AllWritable(v) ==> TakeFocus(v, source).0 == WithInnermost(v, TakeFocus(Innermost(v), source).0)
    ensures !AllWritable(v) ==> TakeFocus(v, source).1 == false
    ensures !AllWritable(v) ==> TakeFocus(v, source).0 == v
  {
    match v
    case Leaf(_, _) =>
    case Wrapped(w) => TakeFocusThroughLayers(w.child, source);
  }

  lemma {:induction false} CallOnAnyThroughLayers(v: View, selector: Selector, callback: AnyCallback)
    ensures AllWritable(v) ==> CallOnAny(v, selector, callback).1 == CallOnAny(Innermost(v), selector, callback).1
    ensures AllWritable(v) ==> CallOnAny(v, selector, callback).0 == WithInnermost(v, CallOnAny(Innermost(v), selector, callback).0)
    ensures !AllWritable(v) ==> CallOnAny(v, selector, callback).1 == []
    ensures !AllWritable(v) ==> CallOnAny(v, selector, callback).0 == v
  {
    match v
    case Leaf(_, _) =>
    case Wrapped(w) => CallOnAnyThroughLayers(w.child, selector, callback);
  }

  lemma {:induction false} NeedsRelayoutThroughLayers(v: View)
    ensures AllReadable(v) ==>
      NeedsRelayout(v) == NeedsRelayout(Innermost(v))
    ensures !AllReadable(v) ==> NeedsRelayout(v)
  {
    match v
    case Leaf(_, _) =>
    case Wrapped(w) => NeedsRelayoutThroughLayers(w.child);
  }

  lemma {:induction false} FocusViewThroughLayers(v: View, selector: Selector)
    ensures AllWritable(v) ==> FocusView(v, selector).1 == FocusView(Innermost(v), selector).1
    ensures AllWritable(v) ==> FocusView(v, selector).0 == WithInnermost(v, FocusView(Innermost(v), selector).0)
    ensures !AllWritable(v) ==> FocusView(v, selector).1 == Err(())
    ensures !AllWritable(v) ==> FocusView(v, selector).0 == v
  {
    match v
    case Leaf(_, _) =>
    case Wrapped(w) => FocusViewThroughLayers(w.child, selector);
  }

  lemma {:induction false} ImportantAreaThroughLayers(v: View, size: Vec2)
    ensures AllReadable(v) ==>
      ImportantArea(v, size) == ImportantArea(Innermost(v), size)
    ensures !AllReadable(v) ==> ImportantArea(v, size) == FromPoint(Zero)
  {
    match v
    case Leaf(_, _) =>
    case Wrapped(w) => ImportantAreaThroughLayers(w.child, size);
  }

  /** A search for a named button inside a wrapper of a wrapper of that
      button invokes the callback exactly as the button alone does. */
  lemma NamedButtonFoundThroughTwoWrappers(button: LeafState, ops: LeafOps, callback: AnyCallback, hit: Visit)
    requires ops.callOnAny(button, Name("ok-button"), callback).1 == [hit]
    ensures CallOnAny(Wrapped(Wrapper(Field, Wrapped(Wrapper(Field, Leaf(button, ops))))),
                      Name("ok-button"), callback).1 == [hit]
  {
  }

  // ---------------------------------------------------------------------
  // Unwrapping after forwarded calls

  /** A call that a wrapper forwards through `with_view_mut`. */
  datatype Call =
    | RequiredSizeCall(req: Vec2)
    | OnEventCall(event: Event)
    | LayoutCall(size: Vec2)
    | TakeFocusCall(source: Direction)
    | CallOnAnyCall(selector: Selector, callback: AnyCallback)
    | FocusViewCall(selector: Selector)

  /** The wrapper after its default `wrap_*` method handled `call`. */
  function WrapperAfter(w: Wrapper, call: Call): (r: Wrapper)
    ensures Writable(w) ==> r == w.(child := ViewAfter(w.child, call))
    ensures !Writable(w) ==> r == w
  {
    match call
    case RequiredSizeCall(req) => WrapRequiredSize(w, req).0
    case OnEventCall(event) => WrapOnEvent(w, event).0
    case LayoutCall(size) => WrapLayout(w, size)
    case TakeFocusCall(source) => WrapTakeFocus(w, source).0
    case CallOnAnyCall(selector, callback) => WrapCallOnAny(w, selector, callback).0
    case FocusViewCall(selector) => WrapFocusView(w, selector).0
  }

  /** The component after its own `View` method handled `call`. */
  function ViewAfter(v: View, call: Call): (r: View) {
    match call
    case RequiredSizeCall(req) => RequiredSize(v, req).0
    case OnEventCall(event) => OnEvent(v, event).0
    case LayoutCall(size) => Layout(v, size)
    case TakeFocusCall(source) => TakeFocus(v, source).0
    case CallOnAnyCall(selector, callback) => CallOnAny(v, selector, callback).0
    case FocusViewCall(selector) => FocusView(v, selector).0
  }

  function RunWrapper(w: Wrapper, calls: seq<Call>): (r: Wrapper)
    decreases |calls|
  {
    if calls == [] then w else RunWrapper(WrapperAfter(w, calls[0]), calls[1..])
  }

  function RunView(v: View, calls: seq<Call>): (r: View)
    decreases |calls|
  {
    if calls == [] then v else RunView(ViewAfter(v, calls[0]), calls[1..])
  }

  /** A `wrap_impl!` wrapper gives back a child in exactly the state that
      the same calls, made on the child directly, leave it in. */
  lemma {:induction false} FieldUnwrapAfterCalls(w: Wrapper, calls: seq<Call>)
    requires w.storage.Field?
    ensures IntoInner(RunWrapper(w, calls)) == Ok(RunView(w.child, calls))
    decreases |calls|
  {
    if calls != [] {
      FieldUnwrapAfterCalls(WrapperAfter(w, calls[0]), calls[1..]);
    }
  }

  /** A wrapper with the default `into_inner` never gives its child up,
      however many calls it forwarded: it hands itself back, with its
      storage as it was. */
  lemma {:induction false} GuardedUnwrapAfterCalls(w: Wrapper, calls: seq<Call>)
    requires w.storage.Guarded?
    ensures RunWrapper(w, calls).storage == w.storage
    ensures IntoInner(RunWrapper(w, calls)) == Err(RunWrapper(w, calls))
    decreases |calls|
  {
    if calls != [] {
      GuardedUnwrapAfterCalls(WrapperAfter(w, calls[0]), calls[1..]);
    }
  }

  /** A wrapper whose child stays borrowed (shared or exclusive) is left
      exactly as it was by every call forwarded through `with_view_mut`. */
  lemma {:induction false} BorrowedWrapperUnchanged(w: Wrapper, calls: seq<Call>)
    requires !Writable(w)
    ensures RunWrapper(w, calls) == w
    decreases |calls|
  {
    if calls != [] {
      BorrowedWrapperUnchanged(WrapperAfter(w, calls[0]), calls[1..]);
    }
  }
}
