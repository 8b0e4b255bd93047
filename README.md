# Button layer of the user interface

This project models the on-screen button layer of the game's user
interface (`src/gui.rs`), in Dafny, and proves its contracts:

- the tap/swipe classifier `is_tap`, which calls a press/release pair a
  tap when the pointer moved strictly less than 20 pixels along each axis;
- the `Button` value, reduced to its screen position and pixel size, with
  its `pos`, `size` and `set_pos` accessors;
- the `ButtonManager`, a store of buttons keyed by `ButtonId` with a
  counter that only grows. `add_button` stores a button under the counter
  and advances it, `remove_button` deletes an entry and faults on an
  absent id, and `get_clicked_button_id` flips the pointer's y coordinate
  against the window height (`h - y`) and looks for a button whose box
  holds the point, every edge included.

All of it lives in module `Gui` in `gui.dfy`. The manager is a class.
Its fields are the button map and the counter. A ghost set `Issued`
records every id handed out so far. `Valid()` says three things: the
issued ids are exactly those below the counter, every stored button has
an issued id, and the counter fits in 32 bits. `Valid()` is established
by the constructor and kept by every mutator, so an id is never handed
out twice, not even after its button was removed.

The hit test visits the map's keys in an order the model leaves open,
as a `HashMap` does. Its contract is relational. A `Some(id)` answer is a
stored id whose button's box holds the flipped point. `None` is answered
exactly when no stored button's box holds it. When boxes overlap, the
model does not fix which of them is answered.

## Model

| member | source | states |
|---|---|---|
| `Gui.Abs` | src/gui.rs:15 | the absolute value is the argument or its negation, and never negative |
| `Gui.IsTap` | src/gui.rs:11-16 | a tap exactly when the release lies strictly within 20 pixels of the press on both axes |
| `Gui.IsTapBoundary` | src/gui.rs:13-15 | a move of 19 on both axes is a tap; a move of exactly 20 on either axis, in either direction, is not |
| `Gui.IsTapSymmetric` | src/gui.rs:13-15 | swapping the press and release samples does not change the classification |
| `Gui.Button.SetPos` | src/gui.rs:87-89 | the moved button has the new position and keeps its size |
| `Gui.SetPosLaws` | src/gui.rs:83-93 | moving twice equals moving once to the later place; moving a button to its own position changes nothing; after a move the box holds its new corner exactly when the size is non-negative |
| `Gui.ButtonManager.constructor` | src/gui.rs:103-108 | a new manager holds no buttons, its counter is 0, no id has been issued, and the invariant holds |
| `Gui.ButtonManager.Buttons` | src/gui.rs:110-112 | every id in the returned map is non-negative and below the counter |
| `Gui.ButtonManager.AddButton` | src/gui.rs:118-123 | returns the old counter value and increases the counter by exactly 1; the returned id was never issued and was not a key before; afterwards it maps to the given button and every other entry is unchanged; the invariant is kept |
| `Gui.ButtonManager.RemoveButton` | src/gui.rs:125-127 | requires the id to be stored (the source panics otherwise); afterwards the id is absent, every other entry is unchanged, and the counter and the issued ids are untouched; the invariant is kept |
| `Gui.ButtonManager.GetClickedButtonId` | src/gui.rs:129-142 | a `Some(id)` answer is a stored id whose box, inclusive on all four edges, holds the pointer with y flipped against the window height; `None` is answered if and only if no stored box holds that point |
| `Gui.IdsAreNeverReused` | src/gui.rs:118-127 | on a fresh manager, three adds return ids 0, 1 and 2; after removing the middle one, a fourth add returns 3, above every earlier id |
| `Gui.HitTestBoundaries` | src/gui.rs:129-141 | a button at (10, 10) of size (50, 20) is hit at the flipped points (10, 10) and (60, 30) and missed at (61, 10) and (9, 10) |

## Left out

- `Button::new`, `Button::new_small` and `Button::new_with_size` (src/gui.rs:49-77) are left out. They rasterise the label with the font library, upload a GPU texture and build a mesh from floating-point vertices. A `Button` is therefore built directly from a position and a size, and its mesh is dropped.
- `Button::draw` and `ButtonManager::draw` (src/gui.rs:79-81, 144-155) are left out. They are render submission with floating-point translation matrices.
- `get_2d_screen_matrix`, `basic_text_size` and `small_text_size` (src/gui.rs:18-36) are left out. They are floating-point arithmetic.
- `map_pos_to_world_pos` and its radius constants (core/src/geom.rs:4-19) are left out. They are `f32` arithmetic with an approximated square-root constant.
- `buttons_mut` (src/gui.rs:114-116) is left out. It hands out unrestricted mutable access to the map, which could break the id invariant, and Dafny has no borrowed references to model it with.
- The `Context` collaborator is left out. `IsTap` takes the current and last-press pointer positions as parameters. `GetClickedButtonId` takes the pointer position and the window size as parameters.
- `Gui.Button.SetPos`: the source assigns the field through `&mut self`. The model returns the updated value instead. A button is owned by value, so no aliasing is lost.
- `Gui.IsTap`: coordinates are unbounded integers. The source subtracts and takes absolute values in 32 bits, which can overflow only for coordinates near the 32-bit limits.
- `Gui.ButtonManager.GetClickedButtonId`: coordinates are unbounded integers. The source's `h - y` and `pos + size` are 32-bit and could overflow only near the 32-bit limits.
- `Gui.ButtonManager.AddButton`: the source increments a 32-bit counter without a check. This would panic in a debug build and wrap in a release build. The model requires the counter to be below 2^31 - 1 instead of modelling the wrap.
- `Gui.ButtonManager.Buttons`: returns the map as a value rather than a shared reference.
- The `HashMap` iteration order is not modelled. The hit test visits keys in an unspecified order.
