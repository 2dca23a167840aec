# shctx: shader composition store and window-event loop

A Dafny model of the two pieces of self-contained logic in the shared-context
demo: the shader header/footer composition store of the ANGLE shader helpers
(`src/sdr_angle.c`) and the X11 event handling and redraw loop of the demo
program (`src/main.cc`).

**Shader composition** (`shader_composition.dfy`, module `ShaderComposition`).
Two static tables, `header[5]` and `footer[5]`, hold growable C strings
(`struct string {text, len}`), modelled as the class `Composer` with two
`array<Slot>` fields. A `Slot` is the C string the entry holds (`None` for a
null pointer) and its counted length. `AppendString` and `ClearString` update
one entry in place. `ClearSlots` and `AppendSlots` act on one slot, or on all
five when the type is 0; the four public `clear_*`/`add_*` functions call them.
`ShaderSources` builds the list of source strings that `create_shader_angle`
hands to the compiler. Every operation is proved against a specification
function (`Appended`, `ClearedTable`, `AppendedTable`). Every entry keeps the
`WellFormed` shape: a null text has length 0; any other text is non-empty,
ends in a newline and has at most one uncounted character.

The store has one quirk, proved rather than corrected. An append adds a newline
when the piece does not end in one, but that newline is not counted in `len`.
The next append copies only the counted characters, so it writes over the
newline. Pieces appended one after another are therefore joined with no
newline between them (`ComposedText`, `NewlineOverwritten`).

**Window events** (`window_events.dfy`, module `WindowEvents`). X events are a
datatype. The interned WM_PROTOCOLS and WM_DELETE_WINDOW atoms are given as
values. A key press carries the keysym the lookup returned. `Step` is
`handle_xevent` as a function of the state. The class `EventHandler` holds the
globals `win_width`, `win_height`, `redraw_pending` and the function-static
`mapped`. Its `HandleXEvent`, `LoopIteration` and `Run` methods are proved to
agree with `Step` and with `RunFrom`, the loop of `main` over a finite stream of
events. The lemmas about `RunFrom` state the following:
- the loop stops at the first quit request;
- no redraw is left pending;
- `display` runs once for each Expose that arrives while the window is mapped.

`reshape` and `display` have empty bodies in the program. The model records
them only as calls: the `reshape` sizes in order, and a count of `display`
calls. The X server, `XNextEvent` and `XLookupKeysym` are abstracted into the
event values.

`main` returns 1 only when `init` returns false (src/main.cc:40-43). It returns 0
after the loop is left and `cleanup` has run (src/main.cc:57-58).

## Model

| member | source | states |
|---|---|---|
| `ShaderComposition.ShaderTypeIndex` | src/sdr_angle.c:487-498 | the slot index is always below 5; it is 1 exactly for the fragment type and 0 for every other type (vertex, tessellation, geometry, unknown) |
| `ShaderComposition.ShaderTypeName` | src/sdr_angle.c:474-485 | the name is one of "vertex", "pixel", "<unknown>"; "vertex" exactly for the vertex type, "pixel" exactly for the fragment type |
| `ShaderComposition.OtherTypesShareVertexSlot` | src/sdr_angle.c:487-498 | the vertex type uses slot 0 and the fragment type slot 1; the geometry and both tessellation types share slot 0 with the vertex type, so their header and footer text is the vertex shader's |
| `ShaderComposition.Appended` | src/sdr_angle.c:381-408 | a null or empty piece leaves the entry unchanged; otherwise len grows by the piece's length, the counted text is the old counted text followed by the piece, the stored text gets an extra trailing newline exactly when the piece does not end in one, and the entry stays well formed |
| `ShaderComposition.AppendString` | src/sdr_angle.c:381-408 | the entry is replaced by `Appended` of its old value; no other entry of the table changes |
| `ShaderComposition.ClearString` | src/sdr_angle.c:374-379 | the entry becomes null text with length 0; no other entry changes |
| `ShaderComposition.ClearedTable` | src/sdr_angle.c:410-434 | exactly the targeted slots become empty (slot `ShaderTypeIndex(type)`, or all five for type 0); the others are unchanged and the table stays well formed |
| `ShaderComposition.AppendedTable` | src/sdr_angle.c:436-460 | exactly the targeted slots are appended to (slot `ShaderTypeIndex(type)`, or all five for type 0); the others are unchanged and the table stays well formed |
| `ShaderComposition.ClearTwice` | src/sdr_angle.c:410-434 | clearing the same type twice gives the same table as clearing it once |
| `ShaderComposition.ClearSlots` | src/sdr_angle.c:410-434 | the table becomes `ClearedTable` of its old contents; for type 0 the loop clears all five slots |
| `ShaderComposition.AppendSlots` | src/sdr_angle.c:436-460 | the table becomes `AppendedTable` of its old contents; for type 0 the loop appends to all five slots |
| `ShaderComposition.AppendAll` | src/sdr_angle.c:381-408 | any sequence of appends keeps the entry well formed, never shortens len and never turns a non-null text back to null |
| `ShaderComposition.AppendAllCounted` | src/sdr_angle.c:388-407 | after a sequence of appends the counted text is the old counted text followed by the concatenation of all pieces |
| `ShaderComposition.ComposedText` | src/sdr_angle.c:395-407 | appending pieces to a cleared entry stores null if they are all empty; otherwise it stores their plain concatenation, plus one final newline only when the concatenation does not already end in one |
| `ShaderComposition.NewlineOverwritten` | src/sdr_angle.c:395-407 | after appending a piece with no trailing newline the text ends in the added newline, and the next append puts its first character where that newline was |
| `ShaderComposition.Composer.constructor` | src/sdr_angle.c:370-372 | both tables have five slots, all with null text and length 0 |
| `ShaderComposition.Composer.ClearHeader` | src/sdr_angle.c:410-421 | the header table becomes `ClearedTable` of its old contents; the footer table is unchanged |
| `ShaderComposition.Composer.ClearFooter` | src/sdr_angle.c:423-434 | the footer table becomes `ClearedTable` of its old contents; the header table is unchanged |
| `ShaderComposition.Composer.AddHeader` | src/sdr_angle.c:436-447 | the header table becomes `AppendedTable` of its old contents; the footer table is unchanged |
| `ShaderComposition.Composer.AddFooter` | src/sdr_angle.c:449-460 | the footer table becomes `AppendedTable` of its old contents; the header table is unchanged |
| `ShaderComposition.Composer.GetHeader` | src/sdr_angle.c:462-466 | returns the text of header slot `ShaderTypeIndex(type)`, which is null or a non-empty text ending in a newline |
| `ShaderComposition.Composer.GetFooter` | src/sdr_angle.c:468-472 | returns the text of footer slot `ShaderTypeIndex(type)`, which is null or a non-empty text ending in a newline |
| `ShaderComposition.Composer.ShaderSources` | src/sdr_angle.c:70-80 | the list is [header if non-null] + [src] + [footer if non-null]; it has 1 to 3 entries; `src` comes right after the header, and every other entry is non-null |
| `WindowEvents.ToAtom` | src/main.cc:213 | the `(Atom)` cast gives a value below 2^64; it equals the `long` when the `long` is non-negative, and the `long` plus 2^64 when the `long` is negative |
| `WindowEvents.Keyboard` | src/main.cc:250-260 | returns false exactly for Escape and true for every other keysym |
| `WindowEvents.Step` | src/main.cc:188-232 | the handler returns false exactly for a WM_PROTOCOLS/WM_DELETE_WINDOW client message or a non-zero keysym that `Keyboard` rejects; Map and Unmap set `mapped`; Expose sets `redraw_pending` only while mapped; Configure overwrites the size and calls `reshape` with it exactly when it differs from the cached size; no other state changes |
| `WindowEvents.MapUnmapOnlyTouchMapped` | src/main.cc:195-200 | MapNotify sets `mapped`, UnmapNotify clears it; nothing else changes, no reshape, and the handler returns true |
| `WindowEvents.IgnoredEvents` | src/main.cc:218-229 | an Expose while unmapped, a key press whose keysym is 0 and any other event type change nothing and return true |
| `WindowEvents.RunFrom` | src/main.cc:46-58 | the loop over a finite stream of events consumes at most all of them; it consumes all of them when it does not exit, and at least one when it does; `display` runs at most once per consumed event |
| `WindowEvents.RunStopsAtFirstQuit` | src/main.cc:46-58 | the loop consumes events up to and including the first quit request and exits there; it does not exit while no quit request has arrived |
| `WindowEvents.RunLeavesNoRedrawPending` | src/main.cc:46-55 | starting with no redraw pending, a pending redraw is always consumed in the same iteration, so none is left when the loop stops |
| `WindowEvents.RunDisplaysOncePerShownExpose` | src/main.cc:46-55 | `display` is called exactly once for every consumed Expose that arrives while the window is mapped |
| `WindowEvents.EventHandler.constructor` | src/main.cc:35-36 | the window starts unmapped, with size 0x0 and no redraw pending |
| `WindowEvents.EventHandler.HandleXEvent` | src/main.cc:188-232 | the new state, the return value and the `reshape` call are exactly those of `Step` on the old state |
| `WindowEvents.EventHandler.LoopIteration` | src/main.cc:48-54 | the state, the return value and the `reshape` call are those of `Step`; when the handler returns true, a pending redraw is cleared and `display` is due exactly when it was pending |
| `WindowEvents.EventHandler.Run` | src/main.cc:38-59 | the final state, the `display` count and the `reshape` calls are those of `RunFrom`; the exit status is 0 exactly when the loop was left on a quit request; no redraw is left pending |

## Left out

- `src/mygl.cc` is not part of this model. It resolves driver entry points with `dlopen`/`dlsym` into global pointers.
- `src/sdr.c` is not part of this model. Every function in it calls into the GL driver, and its `sdrtypestr` duplicates `ShaderTypeName`.
- The compile, link, bind, uniform and attribute functions of `src/sdr_angle.c` are not modelled (lines 82-362). This includes the rest of `create_shader_angle` after the source list and the variadic `create_program_link_angle`. Each result depends on the GL driver.
- `load_shader_angle` reads files, so it is not modelled.
- X11/EGL setup and teardown are foreign calls and are not modelled: `init`, `egl_init`, `egl_choose_config`, `x_create_window` and `cleanup`. The exit status 1 after a failed `init` is therefore not modelled either. When `XOpenDisplay` fails, `init` prints a message but returns `1`, which converts to true (src/main.cc:64-67). So `main` does not take its own `return 1`. It goes on to `XNextEvent` with a null display.
- `display` and `reshape` have empty bodies; only their calls are recorded.
- `XNextEvent` blocks until the next event arrives. `RunFrom` and `EventHandler.Run` take a finite sequence of events. When it runs out, the model reports that the loop has not exited; the program would wait for more events at that point.
- `XLookupKeysym` is abstracted: a `KeyPress` event carries the keysym it would return.
- `AppendString`: the `abort` after a failed `malloc` is not modelled, because memory allocation cannot fail in the model.
- `AppendString`: C integer widths are not modelled. `strlen`'s `size_t` result is truncated into the `int len`, and `newlen + 2` can overflow a signed `int` (src/sdr_angle.c:388-390). The model uses unbounded lengths instead.
- `AppendSlots`: the piece is passed by value, so the model cannot express a piece that points into the table it is appended to. In C, a type-0 call such as `add_shader_header_angle(0, get_shader_header_angle(t))` frees that piece at the aliased slot (src/sdr_angle.c:405). Every later pass of the loop then reads freed memory, which is undefined behaviour. This case is not modelled. A single-slot append is modelled correctly, because the piece is copied before the old text is freed.
- `Slot`: the model keeps only the characters up to the NUL terminator, not the whole allocated buffer. Bytes past the terminator are never read.
