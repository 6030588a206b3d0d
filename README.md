# Delegating view wrapper (cursive `ViewWrapper`)

This project models the view delegation protocol of the cursive terminal UI
library, from `src/view/view_wrapper.rs`. A wrapper view, such as a border, a
padding or a scroll area, holds exactly one child view. It implements the whole
`View` contract by sending each call to that child. It reaches the child only
through two guarded-access primitives: `with_view` for reading and
`with_view_mut` for updating. Each primitive returns `None` when the child is
unavailable, which happens when the child is already borrowed by a call further
up the stack. The two can fail independently: a shared borrow blocks only
`with_view_mut`. Each default `wrap_*` method then returns a fixed neutral value:

| call | when the child is unavailable |
|---|---|
| `draw` | draws nothing |
| `required_size` | the zero size |
| `on_event` | `Ignored` |
| `layout` | does nothing |
| `take_focus` | `false` |
| `call_on_any` | calls nothing back |
| `focus_view` | `Err(())` |
| `needs_relayout` | `true` |
| `important_area` | the rectangle at the origin |

A blanket impl makes every `ViewWrapper` a `View`. The `wrap_impl!` macro gives
a struct field primitives that always succeed, plus an `into_inner` that always
returns the field. The trait's own default `into_inner` always fails and hands
the wrapper back.

Layout of the model:

- `results.dfy`, module `Results`: `Option` (with `unwrap_or`) and `Result`.
- `geometry.dfy`, module `Geometry`: `Vec2`, `Zero` and `Rect`, with `FromPoint`
  for `Rect::from(point)`.
- `view_wrapper.dfy`, module `ViewWrapper`: the value-level model.
  - A component is written `View`. It is either a `Leaf` or a `Wrapped`
    `Wrapper`.
  - A `Leaf` is any component that is not a wrapper. It is given by its state
    and by a table of its own `View` methods (`LeafOps`), the way a trait object
    carries its vtable.
  - A `Wrapper` holds a `Storage` and a child. The storage is either `Field`
    (the `wrap_impl!` case) or `Guarded(borrow)`, a storage whose access
    fails while the child is borrowed. The borrow is `Free`, `Shared` or
    `Exclusive`: `Readable` (what `with_view` needs) fails only under an
    exclusive borrow, `Writable` (what `with_view_mut` needs) under any borrow.
  - The `Wrap*` functions get every child result through `WithView` or
    `WithViewMut`; `w.child` appears in them only in termination measures.
    `IntoInner` and `GetInner` read the field directly, as `into_inner` and
    `get_inner` do.
  - There is one `Wrap*` function per default `wrap_*` method. The `Wrapped`
    branch of each `View` function is the blanket impl.
  - A source method that takes `&mut self` becomes a function that returns the
    updated component together with the result.
- `wrapper_object.dfy`, module `WrapperObject`: the wrapper struct as a class
  `WrapperView` with `storage` and `child` fields.
  - The `&mut self` defaults are methods. They update `child` in place through
    the object's own `WithViewMut` method.
  - The `&self` defaults are the value functions applied to `Value()`.
  - `NestedDispatch` is a client. Under a shared borrow from an outer call, a
    wrapper still answers `needs_relayout` from its child, but it ignores an
    event and leaves the child as it was. Once the borrow ends, the same event
    reaches the child.
- `transparency.dfy`, module `Transparency`: what the blanket impl gives a
  stack of wrappers, and what unwrapping gives after a run of forwarded calls.
  - If every layer lets the access through (readable for `draw`,
    `needs_relayout` and `important_area`, writable for the others), every
    operation acts as the innermost component's own operation. Only that
    component's state changes.
  - If any layer blocks it, the whole stack returns that operation's default
    and nothing changes.

## Model

| member | source | states |
|---|---|---|
| ViewWrapper.WithView | src/view/view_wrapper.rs:27-33 | Returns `Some(f(child))` exactly when the child is readable. A `Field` storage is always readable (lines 175-179). A `Guarded` storage under an exclusive borrow gives `None`. |
| ViewWrapper.WithViewMut | src/view/view_wrapper.rs:35-41 | When the child is writable, returns `Some` of `f`'s result and stores the child that `f` gives back. A `Field` storage is always writable (lines 181-185). Under any borrow, returns `None` and leaves the wrapper unchanged. |
| ViewWrapper.IntoInner | src/view/view_wrapper.rs:44-50 | Succeeds exactly for a `wrap_impl!` field and returns that child (lines 187-189). Any other wrapper falls back to the default and returns `Err` holding the same wrapper. |
| ViewWrapper.GetInner | src/view/view_wrapper.rs:219-230 | `get_inner` on a plain field returns the same child that `into_inner` would give back. |
| ViewWrapper.WrapDraw | src/view/view_wrapper.rs:53-55 | Paints what the child paints when it is readable. Paints nothing otherwise. |
| ViewWrapper.WrapRequiredSize | src/view/view_wrapper.rs:58-61 | When writable, gives the child's `required_size(req)` and the child's updated state. Otherwise gives `Vec2::zero()` and leaves the wrapper unchanged. |
| ViewWrapper.WrapOnEvent | src/view/view_wrapper.rs:64-67 | When writable, gives the child's `EventResult` for the same event and the child's updated state. Otherwise gives `Ignored` and leaves the wrapper unchanged. |
| ViewWrapper.WrapLayout | src/view/view_wrapper.rs:70-72 | When writable, lays out the child with the same size. Otherwise leaves the wrapper unchanged. |
| ViewWrapper.WrapTakeFocus | src/view/view_wrapper.rs:75-78 | When writable, gives the child's answer for the same direction. Otherwise gives `false` and leaves the wrapper unchanged. |
| ViewWrapper.WrapCallOnAny | src/view/view_wrapper.rs:81-87 | When writable, hands the same selector and the same callback to the child: the callback's visits are those the child makes. Otherwise the callback is dropped unused, there are no visits and the wrapper is unchanged. |
| ViewWrapper.WrapFocusView | src/view/view_wrapper.rs:90-93 | When writable, gives the child's result for the same selector. Otherwise gives `Err(())` and leaves the wrapper unchanged. |
| ViewWrapper.WrapNeedsRelayout | src/view/view_wrapper.rs:96-98 | When readable, gives the child's `needs_relayout()`. Otherwise gives `true`. |
| ViewWrapper.WrapImportantArea | src/view/view_wrapper.rs:101-104 | When readable, gives the child's `important_area(size)`. Otherwise gives `Rect::from((0, 0))`. |
| ViewWrapper.RequiredSize | src/view/view_wrapper.rs:113-115 | The blanket `required_size` keeps every wrapper layer and its storage: no call changes availability. |
| ViewWrapper.OnEvent | src/view/view_wrapper.rs:117-119 | The blanket `on_event` keeps every wrapper layer and its storage. |
| ViewWrapper.Layout | src/view/view_wrapper.rs:121-123 | The blanket `layout` keeps every wrapper layer and its storage. |
| ViewWrapper.TakeFocus | src/view/view_wrapper.rs:125-127 | The blanket `take_focus` keeps every wrapper layer and its storage. |
| ViewWrapper.CallOnAny | src/view/view_wrapper.rs:129-135 | The blanket `call_on_any` keeps every wrapper layer and its storage. |
| ViewWrapper.FocusView | src/view/view_wrapper.rs:141-143 | The blanket `focus_view` keeps every wrapper layer and its storage. |
| WrapperObject.WrapperView.WithViewMut | src/view/view_wrapper.rs:181-185 | The object's `with_view_mut` updates the `child` field in place. The new state and the result are exactly those of the value-level primitive. |
| WrapperObject.WrapperView.IntoInner | src/view/view_wrapper.rs:187-189 | A `wrap_impl!` object gives back its `child` field. Any other object gives back itself (`Err(self)`). |
| WrapperObject.WrapperView.WrapRequiredSize | src/view/view_wrapper.rs:58-61 | When writable, stores the child's new state in place and returns its required size. Otherwise leaves the child as it was and returns zero. The storage never changes. |
| WrapperObject.WrapperView.WrapOnEvent | src/view/view_wrapper.rs:64-67 | When writable, stores the child's new state in place and returns its event result. Otherwise leaves the child as it was and returns `Ignored`. |
| WrapperObject.WrapperView.WrapLayout | src/view/view_wrapper.rs:70-72 | When writable, stores the laid-out child in place. Otherwise leaves the child as it was. |
| WrapperObject.WrapperView.WrapTakeFocus | src/view/view_wrapper.rs:75-78 | When writable, stores the child's new state in place and returns its answer. Otherwise leaves the child as it was and returns `false`. |
| WrapperObject.WrapperView.WrapCallOnAny | src/view/view_wrapper.rs:81-87 | When writable, stores the child's new state in place and returns the visits the child makes with the same selector and callback. Otherwise leaves the child as it was and returns no visits. |
| WrapperObject.WrapperView.WrapFocusView | src/view/view_wrapper.rs:90-93 | When writable, stores the child's new state in place and returns its result. Otherwise leaves the child as it was and returns `Err(())`. |
| Transparency.DrawThroughLayers | src/view/view_wrapper.rs:109-111 | The blanket `draw` (`ViewWrapper.Draw`) on a stack of readable wrappers paints exactly what its innermost component paints. A layer under an exclusive borrow anywhere in the stack means nothing is painted. |
| Transparency.RequiredSizeThroughLayers | src/view/view_wrapper.rs:113-115 | A stack of writable wrappers gives the innermost component's size, and only that component's state changes. A borrowed layer anywhere gives zero and leaves the stack unchanged. |
| Transparency.OnEventThroughLayers | src/view/view_wrapper.rs:117-119 | A stack of writable wrappers gives the innermost component's event result, and only that component's state changes. A borrowed layer anywhere gives `Ignored` and leaves the stack unchanged. |
| Transparency.LayoutThroughLayers | src/view/view_wrapper.rs:121-123 | A stack of writable wrappers lays out only its innermost component. A borrowed layer anywhere leaves the stack unchanged. |
| Transparency.TakeFocusThroughLayers | src/view/view_wrapper.rs:125-127 | A stack of writable wrappers gives the innermost component's focus answer. A borrowed layer anywhere gives `false` and leaves the stack unchanged. |
| Transparency.CallOnAnyThroughLayers | src/view/view_wrapper.rs:129-135 | A stack of writable wrappers makes exactly the visits the innermost component makes with the same selector and callback. A borrowed layer anywhere makes none and leaves the stack unchanged. |
| Transparency.NeedsRelayoutThroughLayers | src/view/view_wrapper.rs:137-139 | The blanket `needs_relayout` (`ViewWrapper.NeedsRelayout`) on a stack of readable wrappers gives the innermost component's answer. A layer under an exclusive borrow anywhere gives `true`. |
| Transparency.FocusViewThroughLayers | src/view/view_wrapper.rs:141-143 | A stack of writable wrappers gives the innermost component's `focus_view` result. A borrowed layer anywhere gives `Err(())` and leaves the stack unchanged. |
| Transparency.ImportantAreaThroughLayers | src/view/view_wrapper.rs:145-147 | The blanket `important_area` (`ViewWrapper.ImportantArea`) on a stack of readable wrappers gives the innermost component's important area. A layer under an exclusive borrow anywhere gives the rectangle at the origin. |
| Transparency.NamedButtonFoundThroughTwoWrappers | src/view/view_wrapper.rs:129-135 | A search for `Name("ok-button")` in a wrapper of a wrapper of the button calls the callback exactly once, as the button alone does with the same callback. |
| Transparency.FieldUnwrapAfterCalls | src/view/view_wrapper.rs:187-189 | After any run of forwarded calls, a `wrap_impl!` wrapper's `into_inner` gives back the child in the state those calls, made on the child directly, would leave it in. |
| Transparency.GuardedUnwrapAfterCalls | src/view/view_wrapper.rs:44-50 | After any run of forwarded calls, a wrapper with the default `into_inner` still fails to unwrap, returns itself, and keeps its storage. |
| Transparency.BorrowedWrapperUnchanged | src/view/view_wrapper.rs:58-93 | A wrapper whose child stays borrowed (shared or exclusive) is left exactly as it was by any run of calls forwarded through `with_view_mut`. |

## Left out

- Drawing: `Printer` and the paint commands are opaque. `draw` is modelled only as the list of commands a component issues, with no rendering meaning.
- Events, directions and event callbacks are opaque values that are passed on unchanged. Selectors have only the `Name` variant.
- The type-erased `AnyCb` callback and downcasting: the callback is an opaque `AnyCallback` handed on unchanged, one call of it on a matched component is an opaque `Visit`, and a search gives the list of its visits. Effects of the callback on a matched component are part of that component's new state.
- The real borrow mechanism, such as a `RefCell` in other views, is not modelled. Unavailability is only the `Free`/`Shared`/`Exclusive` borrow state of a `Guarded` storage, which the caller sets. It follows the shared/exclusive discipline, so a storage that refuses reads but allows updates is not represented.
- Overriding individual `wrap_*` methods is not modelled: the model has only the trait's defaults, so override isolation is not stated.
- `get_inner_mut` of `inner_getters!` is not modelled: it hands out a mutable reference. In the object model the `child` field is directly assignable instead.
- The object model has no `with_view` method or `&self` defaults of its own. Those are the value-level functions applied to `WrapperView.Value()`.
- `into_inner` consumes `self` in Rust; the model does not track ownership. Lifetimes, `'static`, `?Sized` and the associated type `V` (here always `View`) are also left out.
- Geometry: `src/vec.rs` and `src/rect.rs` are not part of this model. `Vec2` uses unbounded naturals, and the wrapper does no arithmetic on them. `Rect::from((0, 0))` is modelled as a rectangle with both corners at the origin.
- The deferred callback in `EventResult::Consumed` is carried but never run, because the event loop is not part of this model.
