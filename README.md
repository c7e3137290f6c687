# bevy-inspector-egui: numeric options and list editing

This project models the two pieces of logic in `src/impls/mod.rs` of
bevy-inspector-egui that belong to the inspector itself rather than to the
egui widget library:

- **Numeric editors.** `NumberAttributes<T>` (bounds, drag speed, prefix,
  suffix), its `Default`, its `map`, and how the `ui` bodies of the
  `impl_for_num!` and `impl_for_num_delegate_f64!` impls turn the attributes
  into a drag-value widget configuration. `NumberWidgets.DirectUi` follows
  the builder reassignments of `impl_for_num!`. `NumberWidgets.DelegatedUi`
  casts the bounds to `f64` and replaces a zero speed by 1.0, then calls the
  `f64` editor. `NumberWidgets.NumberUi` dispatches on the numeric type.
  Its contract says, field by field, what the widget ends up with.
- **List editors.** One frame of `Vec<T>::ui`, with the clicks as inputs:
  per row, the value the row's own editor wrote (`None` if it wrote
  nothing) and whether its "-" was clicked; and whether "+" was clicked.
  `ListEditor.VecUi` mirrors the Rust loop. The mutable `toDelete` is
  overwritten on every clicked row. After the loop, "+" pushes the default
  element, and only then is the recorded row removed. `ListEditor.Frame`
  is the specification it is proved against. The fixed-size array editor
  `ListEditor.ArrayUi` edits an `array` in place.
- **String editor.** The choice between a single-line and a multi-line
  text box (`TextWidgets.TextEditFor`).

Modules: `Inspectable` (an `Option` type and the `Options` wrapper whose
`Map` changes only the `custom` field), `NumberWidgets`, `TextWidgets`,
`ListEditor`.

The casts the Rust code applies to numeric values (`as f32`, `as f64`) are an
abstract function `cast: T -> real` supplied by the caller. Both float types
are `real`. For the delegated types, the range test is made on the cast
values, as `impl_for_num_delegate_f64!` does. Two different integers that cast to the same `f64`
therefore give no range. `NumberWidgets.DelegatedRangeWithInjectiveCast`
states when the test is the same as `min != max`.

`Vec<T>::ui` takes `&mut self`, and that borrow is exclusive. So the frame
is modelled as a method from the old sequence to the new one.

## Model
| member | source | states |
|---|---|---|
| `NumberWidgets.NumberUi` | src/impls/mod.rs:44-109 | A prefix and a suffix are set exactly when their strings are non-empty. A range `min..=max`, in that order and never reordered, is set exactly when the bounds differ; for delegated types the bounds are compared after the cast to f64. The speed is the custom one when it is non-zero. Otherwise it is 0.1 for f32/f64, unset for u8/i32, and 1.0 for the delegated types. |
| `NumberWidgets.DelegateOptions` | src/impls/mod.rs:81-87 | The delegated options carry the cast bounds and the same prefix and suffix. A zero speed becomes exactly 1.0 and any other speed is kept, so the speed is never zero. |
| `NumberWidgets.NumberAttributes.Map` | src/impls/mod.rs:33-41 | `map` applies the function to `min` and `max` and copies `speed`, `prefix` and `suffix` unchanged. |
| `NumberWidgets.DefaultNumberAttributes` | src/impls/mod.rs:21-31 | The default attributes have both bounds equal to the type's default value, speed 0, and an empty prefix and suffix. |
| `NumberWidgets.DirectUi` | src/impls/mod.rs:49-70 | The `impl_for_num!` editor sets a prefix or suffix exactly when it is non-empty. It sets the range `min..=max` (cast to f32) exactly when `min != max`. Its speed is the custom speed when non-zero, otherwise the type's `default_speed`, and none when the type has no default. |
| `NumberWidgets.DelegatedUi` | src/impls/mod.rs:80-93 | The delegated editor sets a prefix or suffix exactly when it is non-empty. It sets the range `min..=max` of the f64-cast bounds exactly when those cast values differ. It always sets a speed: the custom one when it is non-zero, otherwise 1.0, never the f64 default 0.1. |
| `NumberWidgets.MapFunctorLaws` | src/impls/mod.rs:33-41 | Mapping the identity gives the attributes back. Mapping `f` then `g` equals one map with `g` composed after `f`. |
| `NumberWidgets.DefaultsGiveBareWidget` | src/impls/mod.rs:21-67 | The default attributes (equal bounds, speed 0, empty strings) give no prefix, no suffix and no range. The speed is only the type's default. |
| `NumberWidgets.DirectSpeed` | src/impls/mod.rs:63-106 | For f32, f64, u8 and i32, a non-zero custom speed is used. A zero speed gives 0.1 for f32 and f64 and leaves the speed unset for u8 and i32. |
| `NumberWidgets.DelegatedSpeedNeverZero` | src/impls/mod.rs:81-109 | u16, u32, u64, i8, i16 and i64 always get a speed, and it is never zero. The f64 default 0.1 reaches them only when 0.1 is their own custom speed. |
| `NumberWidgets.DelegatedRangeWithInjectiveCast` | src/impls/mod.rs:59-90 | For a delegated type whose cast to f64 keeps distinct values distinct, a range is set exactly when `min != max`. |
| `NumberWidgets.ReversedBoundsAreKept` | src/impls/mod.rs:59-61 | For every type and every pair of bounds whose cast values have min > max, the range is `cast(min)..=cast(max)`, reversed as given: nothing checks that min <= max. |
| `TextWidgets.TextEditFor` | src/impls/mod.rs:120-123 | The text box is multi-line exactly when `multiline` is set, and single-line exactly when it is not. |
| `TextWidgets.DefaultIsSingleLine` | src/impls/mod.rs:111-123 | The derived default attributes give a single-line text box. |
| `ListEditor.LastClicked` | src/impls/mod.rs:175-185 | `to_delete` ends up as the last row whose "-" was clicked. No later row was clicked, and it is `None` exactly when no row was clicked. |
| `ListEditor.VecUi` | src/impls/mod.rs:173-197 | The loop that overwrites `toDelete` row by row, followed by push then remove, yields exactly `Frame`: row edits, then the default appended, then the last clicked row removed. |
| `ListEditor.ArrayUi` | src/impls/mod.rs:207-216 | The array is edited in place. Each element becomes what its row's editor wrote, or stays as it was. |
| `ListEditor.ArrayEditsKeepShape` | src/impls/mod.rs:207-216 | The array editor keeps the length. An element no row editor wrote is kept, and one that was written becomes the written value. |
| `ListEditor.Frame` | src/impls/mod.rs:173-197 | The list after one frame: row edits, then the pushed default, then removal of the last clicked row. New length = old length + 1 if "+" was clicked, − 1 if any "-" was clicked. |
| `ListEditor.FrameKeepsPushedDefault` | src/impls/mod.rs:188-195 | When "+" was clicked, the last element is the default one. The removal in the same frame never takes the pushed element. |
| `ListEditor.FrameRemovesLastClicked` | src/impls/mod.rs:175-195 | Only the last clicked row is removed. Rows before it keep their positions, and later rows (and a pushed default) move down by one, in order. With no "-" clicked, nothing is removed. |
| `ListEditor.FrameRemovesAtMostOne` | src/impls/mod.rs:193-195 | What remains, plus the removed row's element, is exactly the multiset of the edited elements and any pushed default. So at most one element goes per frame. |
| `ListEditor.IdleFrameKeepsList` | src/impls/mod.rs:173-197 | A frame with no edit and no click leaves the list unchanged. |

## Left out
- Rendering and layout through egui (`DragValue`, `TextEdit`, labels, `vertical`/`horizontal`, button hit-testing): these are foreign library calls. Button clicks and what each row's editor writes are inputs of the model.
- The numeric casts (`as f32`, `as f64`, and the truncating `as $ty` that writes the value back) and float semantics such as NaN, rounding and f64-to-f32 narrowing: a cast is an abstract function, speeds and values are `real`, and on the delegated path (`NumberWidgets.DelegatedUi`) the `f64` editor's `as f32` on the f64 range ends is taken as the identity, while `NumberWidgets.NumberUi` for `f64` itself takes that narrowing as its `cast` argument.
- What the drag widget does with the value (dragging, clamping to the range): that is egui's behaviour. The model stops at the widget configuration.
- `Color::ui`: it is floating-point colour arithmetic over engine and egui types.
- `bool::ui`: it is a bare checkbox call.
- The submodules `bevy_impls` and `vec` and the definitions of `Inspectable` and `Options` are not part of this model. `Options` is reduced to its `custom` field.
- `ListEditor.VecUi`: it returns the new sequence instead of updating a vector in place. This is exact for the exclusive `&mut` borrow, but it does not model capacity or reallocation.
