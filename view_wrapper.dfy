/** The delegating view wrapper of src/view/view_wrapper.rs, on values.

    A component tree is a `View`: either a component that is not a wrapper
    (a `Leaf`, given by its own state and its own implementation of every
    `View` method), or a `Wrapped` component, that is, a `Wrapper` holding
    exactly one child.  Each `Wrap*` function is one default `wrap_*` method
    of the `ViewWrapper` trait and gets every child result through `WithView`
    or `WithViewMut` (it names `w.child` otherwise only in its termination
    measure); each `View` function's `Wrapped` branch is the blanket
    `impl<T: ViewWrapper> View for T`.  `IntoInner` and `GetInner` read the
    field directly, as `into_inner` and `get_inner` do.

    Methods that take `&mut self` in the source return the new component
    together with their result. */
module ViewWrapper {
  import opened Results
  import opened Geometry

  /** Values the wrapper never looks into: it only passes them on. */
  type Event
  type Direction
  type Printer
  /** The deferred callback an event result may carry. */
  type Callback
  /** One painting command issued through a printer. */
  type Paint
  /** The type-erased search callback `AnyCb`. */
  type AnyCallback
  /** One invocation of a search callback on a matched component. */
  type Visit
  /** The internal state of a component that is not a wrapper. */
  type LeafState

  /** How a component is looked up in the tree. */
  datatype Selector = Name(name: string)

  /** The outcome of dispatching an event. */
  datatype EventResult = Ignored | Consumed(callback: Option<Callback>)

  /** A non-wrapper component's own implementation of each `View` method;
      the methods that take `&mut self` also give the component's new state. */
  datatype LeafOps = LeafOps(
    draw: (LeafState, Printer) -> seq<Paint>,
    requiredSize: (LeafState, Vec2) -> (LeafState, Vec2),
    onEvent: (LeafState, Event) -> (LeafState, EventResult),
    layout: (LeafState, Vec2) -> LeafState,
    takeFocus: (LeafState, Direction) -> (LeafState, bool),
    callOnAny: (LeafState, Selector, AnyCallback) -> (LeafState, seq<Visit>),
    needsRelayout: LeafState -> bool,
    focusView: (LeafState, Selector) -> (LeafState, Result<(), ()>),
    importantArea: (LeafState, Vec2) -> Rect)

  datatype View = Leaf(state: LeafState, ops: LeafOps) | Wrapped(wrapper: Wrapper)

  /** How far a guarded child is already borrowed by calls further up the
      stack: not at all, for reading only, or for updating. */
  datatype Borrow = Free | Shared | Exclusive

  /** How a wrapper holds its child.  `Field` is the plain struct field that
      `wrap_impl!` serves; `Guarded` is a storage whose access can fail while
      the child is already borrowed: a shared borrow blocks only updating
      access, an exclusive one blocks both kinds. */
  datatype Storage = Field | Guarded(borrow: Borrow)

  datatype Wrapper = Wrapper(storage: Storage, child: View)

  /** The storages of the wrapper layers from `v` down to its innermost
      non-wrapper component, outermost first. */
  function Layers(v: View): (layers: seq<Storage>) {
    match v
    case Leaf(_, _) => []
    case Wrapped(w) => [w.storage] + Layers(w.child)
  }

  /** Whether `with_view` reaches the child. */
  predicate Readable(w: Wrapper) {
    w.storage.Field? || w.storage.borrow != Exclusive
  }

  /** Whether `with_view_mut` reaches the child. */
  predicate Writable(w: Wrapper) {
    w.storage.Field? || w.storage.borrow == Free
  }

  // ---------------------------------------------------------------------
  // The two guarded-access primitives and the unwrap operation

  /** `with_view`: runs `f` on the child for reading. */
  function WithView<R>(w: Wrapper, f: View --> R): (r: Option<R>)
    requires f.requires(w.child)
    ensures r.Some? <==> Readable(w)
    ensures r.Some? ==> r.value == f(w.child)
  {
    match w.storage
    case Field => Some(f(w.child))
    case Guarded(borrow) => if borrow == Exclusive then None else Some(f(w.child))
  }

  /** `with_view_mut`: runs `f` on the child for updating; `f` gives the
      child's new value and a result. */
  function WithViewMut<R>(w: Wrapper, f: View --> (View, R)): (r: (Wrapper, Option<R>))
    requires f.requires(w.child)
    ensures r.1.Some? <==> Writable(w)
    ensures Writable(w) ==> r == (w.(child := f(w.child).0), Some(f(w.child).1))
    ensures !Writable(w) ==> r.0 == w
  {
    match w.storage
    case Field =>
      var (c, x) := f(w.child);
      (w.(child := c), Some(x))
    case Guarded(borrow) =>
      if borrow != Free then (w, None)
      else
        var (c, x) := f(w.child);
        (w.(child := c), Some(x))
  }

  /** `into_inner`: a `wrap_impl!` wrapper gives its field back; any other
      wrapper uses the trait's default, which hands the wrapper back. */
  function IntoInner(w: Wrapper): (r: Result<View, Wrapper>)
    ensures r.Ok? <==> w.storage.Field?
    ensures r.Ok? ==> r.value == w.child
    ensures r.Err? ==> r.error == w
  {
    match w.storage
    case Field => Ok(w.child)
    case Guarded(_) => Err(w)
  }

  /** `get_inner` of `inner_getters!`, defined on a wrapper whose child is a
      plain field. */
  function GetInner(w: Wrapper): (c: View)
    requires w.storage.Field?
    ensures IntoInner(w) == Ok(c)
  {
    w.child
  }

  // ---------------------------------------------------------------------
  // The default `wrap_*` methods

  /** `wrap_draw`. */
  function WrapDraw(w: Wrapper, printer: Printer): (r: seq<Paint>)
    decreases |Layers(w.child)| + 1, 0
    ensures Readable(w) ==> r == Draw(w.child, printer)
    ensures !Readable(w) ==> r == []
  {
    WithView(w, (c: View) requires |Layers(c)| <= |Layers(w.child)| => Draw(c, printer))
      .UnwrapOr([])
  }

  /** `wrap_required_size`. */
  function WrapRequiredSize(w: Wrapper, req: Vec2): (r: (Wrapper, Vec2))
    decreases |Layers(w.child)| + 1, 0
    ensures Writable(w) ==>
      var (c, size) := RequiredSize(w.child, req); r == (w.(child := c), size)
    ensures !Writable(w) ==> r == (w, Zero)
  {
    var (w', size) :=
      WithViewMut(w, (c: View) requires |Layers(c)| <= |Layers(w.child)| => RequiredSize(c, req));
    (w', size.UnwrapOr(Zero))
  }

  /** `wrap_on_event`. */
  function WrapOnEvent(w: Wrapper, event: Event): (r: (Wrapper, EventResult))
    decreases |Layers(w.child)| + 1, 0
    ensures Writable(w) ==>
      var (c, res) := OnEvent(w.child, event); r == (w.(child := c), res)
    ensures !Writable(w) ==> r == (w, Ignored)
  {
    var (w', res) :=
      WithViewMut(w, (c: View) requires |Layers(c)| <= |Layers(w.child)| => OnEvent(c, event));
    (w', res.UnwrapOr(Ignored))
  }

  /** `wrap_layout`. */
  function WrapLayout(w: Wrapper, size: Vec2): (r: Wrapper)
    decreases |Layers(w.child)| + 1, 0
    ensures Writable(w) ==> r == w.(child := Layout(w.child, size))
    ensures !Writable(w) ==> r == w
  {
    WithViewMut(w, (c: View) requires |Layers(c)| <= |Layers(w.child)| => (Layout(c, size), ())).0
  }

  /** `wrap_take_focus`. */
  function WrapTakeFocus(w: Wrapper, source: Direction): (r: (Wrapper, bool))
    decreases |Layers(w.child)| + 1, 0
    ensures Writable(w) ==>
      var (c, taken) := TakeFocus(w.child, source); r == (w.(child := c), taken)
    ensures !Writable(w) ==> r == (w, false)
  {
    var (w', taken) :=
      WithViewMut(w, (c: View) requires |Layers(c)| <= |Layers(w.child)| => TakeFocus(c, source));
    (w', taken.UnwrapOr(false))
  }

  /** `wrap_call_on_any`: the visits are those of the callback, which is
      handed to the child unchanged, or dropped unused when the child is
      unavailable. */
  function WrapCallOnAny(w: Wrapper, selector: Selector, callback: AnyCallback): (r: (Wrapper, seq<Visit>))
    decreases |Layers(w.child)| + 1, 0
    ensures Writable(w) ==>
      var (c, visits) := CallOnAny(w.child, selector, callback); r == (w.(child := c), visits)
    ensures !Writable(w) ==> r == (w, [])
  {
    var (w', visits) :=
      WithViewMut(w, (c: View) requires |Layers(c)| <= |Layers(w.child)| => CallOnAny(c, selector, callback));
    (w', visits.UnwrapOr([]))
  }

  /** `wrap_focus_view`. */
  function WrapFocusView(w: Wrapper, selector: Selector): (r: (Wrapper, Result<(), ()>))
    decreases |Layers(w.child)| + 1, 0
    ensures Writable(w) ==>
      var (c, res) := FocusView(w.child, selector); r == (w.(child := c), res)
    ensures !Writable(w) ==> r == (w, Err(()))
  {
    var (w', res) :=
      WithViewMut(w, (c: View) requires |Layers(c)| <= |Layers(w.child)| => FocusView(c, selector));
    (w', res.UnwrapOr(Err(())))
  }

  /** `wrap_needs_relayout`: an unavailable child asks for a relayout. */
  function WrapNeedsRelayout(w: Wrapper): (r: bool)
    decreases |Layers(w.child)| + 1, 0
    ensures Readable(w) ==> r == NeedsRelayout(w.child)
    ensures !Readable(w) ==> r
  {
    WithView(w, (c: View) requires |Layers(c)| <= |Layers(w.child)| => NeedsRelayout(c))
      .UnwrapOr(true)
  }

  /** `wrap_important_area`. */
  function WrapImportantArea(w: Wrapper, size: Vec2): (r: Rect)
    decreases |Layers(w.child)| + 1, 0
    ensures Readable(w) ==> r == ImportantArea(w.child, size)
    ensures !Readable(w) ==> r == FromPoint(Zero)
  {
    WithView(w, (c: View) requires |Layers(c)| <= |Layers(w.child)| => ImportantArea(c, size))
      .UnwrapOr(FromPoint(Zero))
  }

  // ---------------------------------------------------------------------
  // The `View` methods: a leaf's own, or the blanket impl for a wrapper.
  // The methods that update a component keep every wrapper layer's storage.

  function Draw(v: View, printer: Printer): (r: seq<Paint>)
    decreases |Layers(v)|, 1
  {
    match v
    case Leaf(s, ops) => ops.draw(s, printer)
    case Wrapped(w) => WrapDraw(w, printer)
  }

  function RequiredSize(v: View, req: Vec2): (r: (View, Vec2))
    decreases |Layers(v)|, 1
    ensures Layers(r.0) == Layers(v)
  {
    match v
    case Leaf(s, ops) =>
      var (s', size) := ops.requiredSize(s, req);
      (Leaf(s', ops), size)
    case Wrapped(w) =>
      var (w', size) := WrapRequiredSize(w, req);
      (Wrapped(w'), size)
  }

  function OnEvent(v: View, event: Event): (r: (View, EventResult))
    decreases |Layers(v)|, 1
    ensures Layers(r.0) == Layers(v)
  {
    match v
    case Leaf(s, ops) =>
      var (s', res) := ops.onEvent(s, event);
      (Leaf(s', ops), res)
    case Wrapped(w) =>
      var (w', res) := WrapOnEvent(w, event);
      (Wrapped(w'), res)
  }

  function Layout(v: View, size: Vec2): (r: View)
    decreases |Layers(v)|, 1
    ensures Layers(r) == Layers(v)
  {
    match v
    case Leaf(s, ops) => Leaf(ops.layout(s, size), ops)
    case Wrapped(w) => Wrapped(WrapLayout(w, size))
  }

  function TakeFocus(v: View, source: Direction): (r: (View, bool))
    decreases |Layers(v)|, 1
    ensures Layers(r.0) == Layers(v)
  {
    match v
    case Leaf(s, ops) =>
      var (s', taken) := ops.takeFocus(s, source);
      (Leaf(s', ops), taken)
    case Wrapped(w) =>
      var (w', taken) := WrapTakeFocus(w, source);
      (Wrapped(w'), taken)
  }

  function CallOnAny(v: View, selector: Selector, callback: AnyCallback): (r: (View, seq<Visit>))
    decreases |Layers(v)|, 1
    ensures Layers(r.0) == Layers(v)
  {
    match v
    case Leaf(s, ops) =>
      var (s', visits) := ops.callOnAny(s, selector, callback);
      (Leaf(s', ops), visits)
    case Wrapped(w) =>
      var (w', visits) := WrapCallOnAny(w, selector, callback);
      (Wrapped(w'), visits)
  }

  function NeedsRelayout(v: View): (r: bool)
    decreases |Layers(v)|, 1
  {
    match v
    case Leaf(s, ops) => ops.needsRelayout(s)
    case Wrapped(w) => WrapNeedsRelayout(w)
  }

  function FocusView(v: View, selector: Selector): (r: (View, Result<(), ()>))
    decreases |Layers(v)|, 1
    ensures Layers(r.0) == Layers(v)
  {
    match v
    case Leaf(s, ops) =>
      var (s', res) := ops.focusView(s, selector);
      (Leaf(s', ops), res)
    case Wrapped(w) =>
      var (w', res) := WrapFocusView(w, selector);
      (Wrapped(w'), res)
  }

  function ImportantArea(v: View, size: Vec2): (r: Rect)
    decreases |Layers(v)|, 1
  {
    match v
    case Leaf(s, ops) => ops.importantArea(s, size)
    case Wrapped(w) => WrapImportantArea(w, size)
  }
}
