/** A wrapper struct as an object: the `wrap_*` defaults of
    src/view/view_wrapper.rs that take `&mut self` update the child field in
    place, through the object's own `with_view_mut`.  The defaults that take
    `&self` are the functions of module ViewWrapper applied to `Value()`. */
module WrapperObject {
  import opened Results
  import opened Geometry
  import opened ViewWrapper

  class WrapperView {
    var storage: Storage
    var child: View

    /** The wrapper as a value. */
    function Value(): Wrapper
      reads this
    {
      Wrapper(storage, child)
    }

    /** A struct whose `ViewWrapper` implementation is generated by `wrap_impl!`. */
    constructor FromField(c: View)
      ensures storage == Field && child == c
    {
      storage := Field;
      child := c;
    }

    /** A struct with its own guarded storage, in the given borrow state. */
    constructor FromGuarded(c: View, borrow: Borrow)
      ensures storage == Guarded(borrow) && child == c
    {
      storage := Guarded(borrow);
      child := c;
    }

    /** `with_view_mut`: runs `f` on the child and stores the child it gives back. */
    method WithViewMut<R>(f: View -> (View, R)) returns (r: Option<R>)
      modifies this
      ensures (Value(), r) == ViewWrapper.WithViewMut(old(Value()), f)
    {
      if Writable(Value()) {
        var (c, x) := f(child);
        child := c;
        r := Some(x);
      } else {
        r := None;
      }
    }

    /** `into_inner`: the child of a `wrap_impl!` struct, else the object itself. */
    method IntoInner() returns (r: Result<View, WrapperView>)
      ensures r.Ok? <==> storage.Field?
      ensures r.Ok? ==> r.value == child
      ensures r.Err? ==> r.error == this
    {
      match storage
      case Field => r := Ok(child);
      case Guarded(_) => r := Err(this);
    }

    method WrapRequiredSize(req: Vec2) returns (size: Vec2)
      modifies this
      ensures storage == old(storage)
      ensures Writable(old(Value())) ==> (child, size) == RequiredSize(old(child), req)
      ensures !Writable(old(Value())) ==> child == old(child) && size == Zero
    {
      var r := WithViewMut((c: View) => RequiredSize(c, req));
      size := r.UnwrapOr(Zero);
    }

    method WrapOnEvent(event: Event) returns (res: EventResult)
      modifies this
      ensures storage == old(storage)
      ensures Writable(old(Value())) ==> (child, res) == OnEvent(old(child), event)
      ensures !Writable(old(Value())) ==> child == old(child) && res == Ignored
    {
      var r := WithViewMut((c: View) => OnEvent(c, event));
      res := r.UnwrapOr(Ignored);
    }

    method WrapLayout(size: Vec2)
      modifies this
      ensures storage == old(storage)
      ensures Writable(old(Value())) ==> child == Layout(old(child), size)
      ensures !Writable(old(Value())) ==> child == old(child)
    {
      var _ := WithViewMut((c: View) => (Layout(c, size), ()));
    }

    method WrapTakeFocus(source: Direction) returns (taken: bool)
      modifies this
      ensures storage == old(storage)
      ensures Writable(old(Value())) ==> (child, taken) == TakeFocus(old(child), source)
      ensures !Writable(old(Value())) ==> child == old(child) && !taken
    {
      var r := WithViewMut((c: View) => TakeFocus(c, source));
      taken := r.UnwrapOr(false);
    }

    method WrapCallOnAny(selector: Selector, callback: AnyCallback) returns (visits: seq<Visit>)
      modifies this
      ensures storage == old(storage)
      ensures Writable(old(Value())) ==> (child, visits) == CallOnAny(old(child), selector, callback)
      ensures !Writable(old(Value())) ==> child == old(child) && visits == []
    {
      var r := WithViewMut((c: View) => CallOnAny(c, selector, callback));
      visits := r.UnwrapOr([]);
    }

    method WrapFocusView(selector: Selector) returns (res: Result<(), ()>)
      modifies this
      ensures storage == old(storage)
      ensures Writable(old(Value())) ==> (child, res) == FocusView(old(child), selector)
      ensures !Writable(old(Value())) ==> child == old(child) && res == Err(())
    {
      var r := WithViewMut((c: View) => FocusView(c, selector));
      res := r.UnwrapOr(Err(()));
    }
  }

  /** While a call further up the stack holds a shared borrow of the child,
      a wrapper still answers `needs_relayout` from the child but ignores an
      event and leaves its child as it was; once the borrow is over, the same
      event reaches the child. */
  method NestedDispatch(c: View, event: Event)
  {
    var w := new WrapperView.FromGuarded(c, Shared);
    assert WrapNeedsRelayout(w.Value()) == NeedsRelayout(c);
    var res := w.WrapOnEvent(event);
    assert res == Ignored && w.child == c;
    w.storage := Guarded(Free);
    res := w.WrapOnEvent(event);
    assert (w.child, res) == OnEvent(c, event);
  }
}
