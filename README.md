# filament-glfw-imgui in Dafny

This project models the self-contained logic of filament-glfw-imgui, the glue between GLFW input, Dear ImGui and the Filament renderer. It covers four parts:

- **GLFW input tracking** (`glfw_input.dfy`, module `GlfwInput`).
  - The mouse-button and modifier bit masks, with `HasBits`, `SetBits` and `ClearBits`.
  - `KeyboardState`: per key, the event index at which the key was pressed (0 means released), and the `Axis` comparison over two keys.
  - `State`, and the `Handler` state machine.
    - Every GLFW callback advances `event_index` and records one event in `all_events`.
    - It records the event in `events` only when the child handler did not capture it.
    - It keeps the button and modifier masks, and the two key tables (`keys` and `all_keys`), in step.
  - `NoOpHandler`, the child handler that never captures.
- **The ImGui-to-Filament bridge** (`imgui_draw_data.dfy` and `filament_imgui.dfy`, modules `ImguiDrawData` and `FilamentImgui`).
  - ImGui's draw data is a sequence of draw lists. Each list has its own vertices, 16-bit indices and commands.
  - `FlatVertices` and `FlatIndices` define the staging vectors `Ui::UpdateView` builds: the lists one after the other, each later list's indices rebased by the vertices placed before it.
  - `Renderables` and `Callbacks` define the renderable slots and the user-callback invocations.
  - The `Ui` class keeps the source's fields: the buffers, the material-instance pool, the staging vectors and the font atlas.
  - Its `UpdateView`, `RebuildFontAtlas` and constructors are proved against those definitions.
  - The engine is abstract recorded state. Every created object is a fresh handle, and a GPU buffer is a handle with a capacity. The renderables, the uploads and the callback invocations are logs.
  - `SetScissor` is the function `ScissorFor`.
- **Sphere index topology** (`fs_primitives.dfy`, module `FsPrimitives`).
  - The vertex and index loops of the demo's `VisualSphere`, over any grid of rows and columns.
  - Proofs of the vertex and index counts, the index range, and which vertices each triangle joins.
- **The clamp helper and the orbit camera** (`fs_orbit_controller.dfy`, module `FsOrbitController`).
  - `Clamped` and `Clamp`, at `float` and at `int`.
  - The bound-keeping of `OrbitController`: the angle wrap loops of `EnforcePanBounds`, the `phi` clamp, and the radius clamp of the two dolly operations.

`wrappers.dfy` holds an `Option` type. `engine_objects.dfy` holds the handle and buffer types, and the invariants over the objects a `Ui` owns.

Floating point is modelled by exact reals or integers. The choices are listed under "Left out".

## Model

| member | source | states |
|---|---|---|
| GlfwInput.HasBits | filament_glfw_imgui/glfw_input_impl.h:22-25 | true exactly when every bit of `bits` is set in the mask |
| GlfwInput.SetBits | filament_glfw_imgui/glfw_input_impl.h:27-30 | afterwards a bit is set iff it was set before or is in `bits`; so every bit of `bits` is set and no other bit changed |
| GlfwInput.ClearBits | filament_glfw_imgui/glfw_input_impl.h:32-35 | afterwards a bit is set iff it was set before and is not in `bits`; no bit of `bits` remains |
| GlfwInput.ButtonToBits | filament_glfw_imgui/glfw_input_impl.h:37-39 | the mask holds exactly the one bit `1 << button` |
| GlfwInput.HasGlfwButton | filament_glfw_imgui/glfw_input_impl.h:41-43 | true iff the button's bit is set in the mask |
| GlfwInput.ModBitForKey | filament_glfw_imgui/glfw_input_impl.h:194-224 | a `GLFW_MOD_*` bit exists exactly for the left/right shift, control, alt and super keys, num lock and caps lock |
| GlfwInput.ModKeysAfter | filament_glfw_imgui/glfw_input_impl.h:194-224 | the modifier mask after a key event: a modifier key's press adds its mod bit, its release removes it, anything else keeps the mask (proved in `ModKeysAfterSpec`) |
| GlfwInput.ModKeysAfterSpec | filament_glfw_imgui/glfw_input_impl.h:194-224 | a modifier key's press sets its mod bit and its release clears it; a repeat or a non-modifier key leaves the mask alone; no other bit ever changes |
| GlfwInput.ModKeyPressThenRelease | filament_glfw_imgui/glfw_input_impl.h:194-224 | pressing and then releasing a modifier whose bit was clear restores the original mask |
| GlfwInput.ButtonsAfter | filament_glfw_imgui/glfw_input_impl.h:152-156 | the button mask after a button event: press adds the button's bit, release removes it, other actions keep the mask (proved in `ButtonsAfterSpec`) |
| GlfwInput.ButtonsAfterSpec | filament_glfw_imgui/glfw_input_impl.h:152-156 | press sets and release clears the button's bit; no other button's bit changes; other actions change nothing |
| GlfwInput.TypeTagsAreDistinctBits | filament_glfw_imgui/glfw_input.h:92-101 | every event tag is a single bit, is inside `kAllEvents` and differs from `kNone`; two tags are equal iff the events are of the same kind |
| GlfwInput.Uncaptured | filament_glfw_imgui/glfw_input.h:203-211 | the events of a list that no child captured, in order: what `events` holds beside `all_events` (proved in `UncapturedMembers`) |
| GlfwInput.UncapturedMembers | filament_glfw_imgui/glfw_input.h:203-211 | the uncaptured view of an event list is no longer than it and holds exactly its events whose capture flag is false |
| GlfwInput.UncapturedOfNoCapture | filament_glfw_imgui/glfw_input.h:245-256 | when no event is captured (the `NoOpHandler` child), `events` equals `all_events` |
| GlfwInput.UncapturedSnoc | filament_glfw_imgui/glfw_input_impl.h:95-96 | appending an event to the full list extends the uncaptured list by that event iff it was not captured |
| GlfwInput.ToInt32 | filament_glfw_imgui/glfw_input_impl.h:60-61 | the narrowed value is in the 32-bit range, is congruent to the input modulo 2^32, and equals the input when that is in `[0, 2^31)` |
| GlfwInput.AxisOf | filament_glfw_imgui/glfw_input.h:175-183 | -1 iff the minus index is larger, 0 iff the two are equal, 1 iff the plus index is larger |
| GlfwInput.AxisOfNarrowed | filament_glfw_imgui/glfw_input_impl.h:59-68 | the comparison after narrowing to `int` agrees with the true comparison while both indices are below 2^31 |
| GlfwInput.AxisNarrowingFlipsSign | filament_glfw_imgui/glfw_input_impl.h:60-61 | with the plus key pressed at event 2^31 and the minus key at event 5, the code as written answers -1 where the documented answer is 1 |
| GlfwInput.KeyboardState.constructor | filament_glfw_imgui/glfw_input.h:165 | the table tracks keys `0..max_key` inclusive, all released |
| GlfwInput.KeyboardState.PressedEventIndex | filament_glfw_imgui/glfw_input_impl.h:49-51 | the stored index for a tracked key; 0 for any other key, including negative ones |
| GlfwInput.KeyboardState.IsPressed | filament_glfw_imgui/glfw_input.h:167-169 | true iff the key is tracked and its stored index is non-zero |
| GlfwInput.KeyboardState.AxisAsWritten | filament_glfw_imgui/glfw_input_impl.h:59-68 | equals the documented `Axis` whenever both pressed indices are below 2^31 |
| GlfwInput.KeyboardState.Axis | filament_glfw_imgui/glfw_input.h:175-183 | -1 iff `key_minus` was pressed after `key_plus`, 1 iff `key_plus` was pressed after `key_minus`, 0 iff the two stored indices are equal (so when both are released); untracked keys count as released |
| GlfwInput.KeyboardState.SetKeyEventIndex | filament_glfw_imgui/glfw_input_impl.h:53-57 | stores the index at a tracked key and nowhere else; an untracked key leaves the table unchanged |
| GlfwInput.AxisAntisymmetric | filament_glfw_imgui/glfw_input_impl.h:59-68 | swapping the two keys negates `Axis`; a key compared with itself gives 0 |
| GlfwInput.KeysAfter | filament_glfw_imgui/glfw_input_impl.h:230-243 | a press stores the event index at the key, a release stores 0, a repeat changes nothing; other keys and the table size are unchanged |
| GlfwInput.State.constructor | filament_glfw_imgui/glfw_input.h:196-242 | event index 0, both event lists empty, both key tables of `GLFW_KEY_LAST + 1` released keys, empty masks, no valid mouse position |
| GlfwInput.NoOpHandler.OnGlfwWindowFocus | filament_glfw_imgui/glfw_input.h:249 | never claims the event |
| GlfwInput.NoOpHandler.OnGlfwCursorEnter | filament_glfw_imgui/glfw_input.h:250 | never claims the event |
| GlfwInput.NoOpHandler.OnGlfwCursorPos | filament_glfw_imgui/glfw_input.h:251 | never claims the event |
| GlfwInput.NoOpHandler.OnGlfwMouseButton | filament_glfw_imgui/glfw_input.h:252 | never claims the event |
| GlfwInput.NoOpHandler.OnGlfwScroll | filament_glfw_imgui/glfw_input.h:253 | never claims the event |
| GlfwInput.NoOpHandler.OnGlfwKey | filament_glfw_imgui/glfw_input.h:254 | never claims the event |
| GlfwInput.NoOpHandler.OnGlfwChar | filament_glfw_imgui/glfw_input.h:255 | never claims the event |
| GlfwInput.Handler.constructor | filament_glfw_imgui/glfw_input_impl.h:70-71 | a fresh state (as `State.constructor`), with no key pressed in either table and the handler invariant established |
| GlfwInput.Handler.ClearEvents | filament_glfw_imgui/glfw_input_impl.h:73-78 | both event lists become empty; the event index, key tables, masks and mouse position are outside its frame and so unchanged |
| GlfwInput.Handler.Push | filament_glfw_imgui/glfw_input_impl.h:95-96 | the event joins `all_events` always and `events` iff uncaptured; `events` stays the uncaptured sub-sequence of `all_events` |
| GlfwInput.Handler.Tick | filament_glfw_imgui/glfw_input_impl.h:84 | the event index grows by one and the key tables still hold no index from the future |
| GlfwInput.Handler.OnGlfwWindowFocus | filament_glfw_imgui/glfw_input_impl.h:81-99 | index +1, the event recorded in both views by capture, the child's flag returned; gaining focus invalidates the mouse position, losing it keeps it |
| GlfwInput.Handler.OnGlfwCursorEnter | filament_glfw_imgui/glfw_input_impl.h:101-115 | index +1, the event recorded by capture, the child's flag returned; nothing else changes |
| GlfwInput.Handler.OnGlfwCursorPos | filament_glfw_imgui/glfw_input_impl.h:117-142 | the offset is measured from the previous valid position (0 when there was none); the new position is stored; the event carries the current button and modifier masks |
| GlfwInput.Handler.UpdateMouseButtons | filament_glfw_imgui/glfw_input_impl.h:152-156 | the button mask becomes `ButtonsAfter` of the old one (see `ButtonsAfterSpec`) |
| GlfwInput.Handler.OnGlfwMouseButton | filament_glfw_imgui/glfw_input_impl.h:144-166 | index +1, event recorded by capture, flag returned; the button mask is updated whether or not the event is captured; the event carries the tracked modifier mask |
| GlfwInput.Handler.OnGlfwScroll | filament_glfw_imgui/glfw_input_impl.h:168-184 | index +1, event recorded by capture with the tracked modifier mask, flag returned |
| GlfwInput.Handler.UpdateKeyTable | filament_glfw_imgui/glfw_input_impl.h:230-243 | the table becomes `KeysAfter` of the old one at the current event index, and still holds no index from the future |
| GlfwInput.Handler.UpdateModKeys | filament_glfw_imgui/glfw_input_impl.h:194-224 | the modifier mask becomes `ModKeysAfter` of the old one (see `ModKeysAfterSpec`) |
| GlfwInput.Handler.OnGlfwKey | filament_glfw_imgui/glfw_input_impl.h:186-247 | index +1; the modifier mask is updated regardless of capture; `all_keys` always follows press/release; `keys` does only for an uncaptured event and is untouched otherwise; the event is recorded by capture |
| GlfwInput.Handler.OnGlfwChar | filament_glfw_imgui/glfw_input_impl.h:249-263 | index +1, event recorded by capture, flag returned |
| ImguiDrawData.Wrap16 | filament_glfw_imgui/filament_imgui_impl.h:308 | storing an int into an `ImDrawIdx` keeps values below 2^16 and subtracts 2^16 from values in `[2^16, 2^17)` |
| ImguiDrawData.Rebased | filament_glfw_imgui/filament_imgui_impl.h:307-309 | same length as the list's indices; entry k is index k plus the base, in 16-bit arithmetic |
| ImguiDrawData.FlatVertices | filament_glfw_imgui/filament_imgui_impl.h:297-298 | the staged vertex prefix: every list's vertices, one list after the other |
| ImguiDrawData.ListIndices | filament_glfw_imgui/filament_imgui_impl.h:301-310 | the indices staged for list i: list 0's verbatim, a later list's rebased by the vertices before it |
| ImguiDrawData.FlatIndices | filament_glfw_imgui/filament_imgui_impl.h:290-310 | the staged index prefix: every list's staged indices, one list after the other |
| ImguiDrawData.DrawCount | filament_glfw_imgui/filament_imgui_impl.h:313-337 | the number of commands of the frame that are not user callbacks, i.e. the renderable slots used |
| ImguiDrawData.FlatVerticesSnoc | filament_glfw_imgui/filament_imgui_impl.h:297-298 | staging one more list appends exactly its vertices |
| ImguiDrawData.FlatIndicesSnoc | filament_glfw_imgui/filament_imgui_impl.h:301-310 | staging list i appends its indices, verbatim for list 0 and rebased by the vertices before it otherwise |
| ImguiDrawData.FlatVerticesLength | filament_glfw_imgui/filament_imgui_impl.h:340 | the staged vertices number `TotalVtxCount` |
| ImguiDrawData.FlatIndicesLength | filament_glfw_imgui/filament_imgui_impl.h:341 | the staged indices number `TotalIdxCount` |
| ImguiDrawData.DrawCmdCountBound | filament_glfw_imgui/filament_imgui_impl.h:313-337 | a list has no more drawing commands than commands |
| ImguiDrawData.DrawCountBound | filament_glfw_imgui/filament_imgui_impl.h:267-284 | the frame has no more drawing commands than commands, so a pool sized by the command count covers every slot |
| ImguiDrawData.TotalsMonotone | filament_glfw_imgui/filament_imgui_impl.h:290-342 | the running vertex, index and slot cursors after any prefix of the lists never exceed the frame totals |
| ImguiDrawData.FlatVerticesAt | filament_glfw_imgui/filament_imgui_impl.h:297-298 | vertex k of list i sits in the staging vector at the count of vertices before list i, plus k |
| ImguiDrawData.FlatIndicesPrefix | filament_glfw_imgui/filament_imgui_impl.h:290-342 | the indices staged for the first m lists are a prefix of the frame's staged indices |
| ImguiDrawData.StagedIndexAt | filament_glfw_imgui/filament_imgui_impl.h:301-310 | list i's staged index k is its index k plus the vertices before it, mod 2^16, for list 0 as for the others |
| ImguiDrawData.FlatIndicesOfList | filament_glfw_imgui/filament_imgui_impl.h:305-309 | after list i is staged, its index k sits at the count of indices before it, plus k, rebased |
| ImguiDrawData.FlatIndicesAt | filament_glfw_imgui/filament_imgui_impl.h:301-310 | in the whole frame, list i's index k sits at the count of indices before it, plus k, and holds the rebased value |
| ImguiDrawData.FirstListNeedsNoRebase | filament_glfw_imgui/filament_imgui_impl.h:301-303 | copying list 0 verbatim is the same as rebasing it by the zero vertices before it |
| ImguiDrawData.RebasedIndexNamesSameVertex | filament_glfw_imgui/filament_imgui_impl.h:305-309 | when the frame has at most 2^16 vertices and each list's indices name its own vertices, every staged index names, in the staged vertices, the very vertex the list's index named |
| ImguiDrawData.RebaseWraps | filament_glfw_imgui/filament_imgui_impl.h:308 | once the base plus an index reaches 2^16, the staged index wraps and names an earlier vertex |
| FilamentImgui.ScissorFor | filament_glfw_imgui/filament_imgui_impl.h:113-118 | `SetScissor`: left edge `x`, bottom edge `height_px - w`, width `z - x` and height `w - y` each cast to 16 bits (read back in `ScissorRoundTrip`) |
| FilamentImgui.ScissorRoundTrip | filament_glfw_imgui/filament_imgui_impl.h:113-118 | for a clip rectangle less than 2^16 pixels in each direction, reading the scissor back in top-left coordinates gives the rectangle again; its top edge is `height_px - y` |
| FilamentImgui.ScissorWidthWraps | filament_glfw_imgui/filament_imgui_impl.h:116 | a clip rectangle 2^16 pixels wide gets a zero-width scissor |
| FilamentImgui.TextureFor | filament_glfw_imgui/filament_imgui_impl.h:326 | the command's texture when its id is non-null, the font atlas otherwise |
| FilamentImgui.CmdRenderables | filament_glfw_imgui/filament_imgui_impl.h:313-337 | one list's renderables: a drawing command takes the next slot, draws `ElemCount` indices from the list's index base plus `IdxOffset` with its texture and scissor; a callback takes none |
| FilamentImgui.Renderables | filament_glfw_imgui/filament_imgui_impl.h:290-342 | the frame's renderables: each list's, with the slot and index cursors left by the lists before it |
| FilamentImgui.CmdCallbacks | filament_glfw_imgui/filament_imgui_impl.h:316-319 | one list's callback invocations, in command order, each naming the list and the command |
| FilamentImgui.Callbacks | filament_glfw_imgui/filament_imgui_impl.h:290-319 | the frame's callback invocations, list after list |
| FilamentImgui.CmdRenderablesSlots | filament_glfw_imgui/filament_imgui_impl.h:313-337 | a list's renderables number its drawing commands and take consecutive slots from the first free one, each with blend order equal to its slot and that slot's material instance |
| FilamentImgui.RenderablesSlots | filament_glfw_imgui/filament_imgui_impl.h:313-337 | over the frame, the renderables number the drawing commands; renderable k has slot k, blend order k and pool entry k |
| FilamentImgui.CmdCallbacksCount | filament_glfw_imgui/filament_imgui_impl.h:316-319 | a list's callback invocations plus its drawing commands are all its commands |
| FilamentImgui.CallbacksAndDrawsPartitionCommands | filament_glfw_imgui/filament_imgui_impl.h:313-337 | every command of the frame is either one callback invocation or one renderable, never both |
| FilamentImgui.CmdRenderablesInRange | filament_glfw_imgui/filament_imgui_impl.h:330-333 | when each command's range lies in its list's indices, each renderable's range lies in that list's part of the staged indices |
| FilamentImgui.RenderablesInRange | filament_glfw_imgui/filament_imgui_impl.h:330-333 | under ImGui's guarantee, every renderable draws only indices of the staged frame |
| FilamentImgui.CountsStep | filament_glfw_imgui/filament_imgui_impl.h:340-341 | adding list i advances the vertex, index and slot cursors by its sizes, and they stay within the frame totals |
| FilamentImgui.VerticesStep | filament_glfw_imgui/filament_imgui_impl.h:297-298 | copying list i's vertices at the vertex cursor extends the staged prefix by them and keeps the rest of the old vector |
| FilamentImgui.IndicesStep | filament_glfw_imgui/filament_imgui_impl.h:301-310 | writing list i's indices (rebased unless i is 0) at the index cursor extends the staged prefix and keeps the rest of the old vector |
| FilamentImgui.RenderablesStep | filament_glfw_imgui/filament_imgui_impl.h:312-338 | list i's renderables come right after those of the lists before it |
| FilamentImgui.CallbacksStep | filament_glfw_imgui/filament_imgui_impl.h:316-318 | list i's callback invocations come right after those of the lists before it |
| FilamentImgui.Truncate | filament_glfw_imgui/filament_imgui_impl.h:213-214 | float-to-int conversion truncates toward zero: the result is within 1 of the input, on the side of zero |
| FilamentImgui.Resized | filament_glfw_imgui/filament_imgui_impl.h:258 | `std::vector::resize`: the new length, the old elements kept, the added ones value-initialised |
| FilamentImgui.Spliced | filament_glfw_imgui/filament_imgui_impl.h:297-298 | a memcpy into the staging vector: same length, the copied block at the offset, everything else as before |
| FilamentImgui.SpliceStep | filament_glfw_imgui/filament_imgui_impl.h:297-303 | a copy just after an already written prefix extends that prefix and keeps the old vector's remaining tail |
| FilamentImgui.GrownBuffer | filament_glfw_imgui/filament_imgui_impl.h:235-265 | the buffer kept for a frame exists and holds at least the total; capacity never decreases; it is replaced iff it was missing or too small, and a replacement holds exactly the total |
| FilamentImgui.GrownPool | filament_glfw_imgui/filament_imgui_impl.h:276-284 | the pool grows to n entries if shorter and never shrinks; old entries are kept as a prefix; each new entry is a newly created instance |
| FilamentImgui.GrownPoolIssued | filament_glfw_imgui/filament_imgui_impl.h:276-284 | every entry of the grown pool was created before the next free handle |
| FilamentImgui.CountRenderables | filament_glfw_imgui/filament_imgui_impl.h:267-271 | the renderable count is the number of commands of all lists, callbacks included, and covers every drawing command |
| FilamentImgui.Ui.Default | filament_glfw_imgui/filament_imgui.h:119-137 | `Ui()`: no engine, no view, scene, camera, atlas or buffers, an empty pool and empty staging vectors |
| FilamentImgui.Ui.constructor | filament_glfw_imgui/filament_imgui_impl.h:120-149 | with an engine, the view, scene and camera are created, and the atlas, buffers and pool are not yet; with a null engine nothing is created; the invariants hold |
| FilamentImgui.Ui.View | filament_glfw_imgui/filament_imgui.h:117 | `view()` is null without an engine |
| FilamentImgui.Ui.RebuildFontAtlas | filament_glfw_imgui/filament_imgui_impl.h:194-204 | without an engine nothing changes; otherwise the atlas is a newly created texture and the font atlas's texture id is the null sentinel |
| FilamentImgui.Ui.GrowBuffers | filament_glfw_imgui/filament_imgui_impl.h:235-265 | each buffer is independently kept or replaced as `GrownBuffer` says; a replaced buffer's staging vector is resized to exactly the total, a kept one is untouched |
| FilamentImgui.Ui.GrowPool | filament_glfw_imgui/filament_imgui_impl.h:276-284 | the pool becomes `GrownPool` of the old one, one new instance per added entry |
| FilamentImgui.Ui.CopyVertices | filament_glfw_imgui/filament_imgui_impl.h:297-298 | the list's vertices are copied at the cursor, and nothing else in the staging vector changes |
| FilamentImgui.Ui.CopyIndices | filament_glfw_imgui/filament_imgui_impl.h:301-303 | list 0's indices are copied verbatim at the cursor |
| FilamentImgui.Ui.RebaseIndices | filament_glfw_imgui/filament_imgui_impl.h:305-309 | a later list's indices are written at the cursor, each plus the base in 16 bits; nothing else changes |
| FilamentImgui.Ui.BuildCommands | filament_glfw_imgui/filament_imgui_impl.h:313-338 | the list's renderables are `CmdRenderables`; the slot cursor advances by its drawing commands; its callbacks are appended to the log in order |
| FilamentImgui.Ui.FillList | filament_glfw_imgui/filament_imgui_impl.h:290-342 | one turn of the list loop: the list's vertices and (rebased) indices spliced at the cursors, its renderables and callback invocations produced |
| FilamentImgui.Ui.FillStep | filament_glfw_imgui/filament_imgui_impl.h:290-342 | the loop invariant, that the staged prefixes, renderables, log and cursors describe the first i lists, carries over to i + 1 |
| FilamentImgui.Ui.FillLists | filament_glfw_imgui/filament_imgui_impl.h:286-342 | the cursors end at the frame totals; the staging vectors hold the flattened frame followed by their old tails; the renderables and callback log are those of the frame |
| FilamentImgui.Ui.Upload | filament_glfw_imgui/filament_imgui_impl.h:347-358 | the vertex upload covers exactly the first `i_vert` staged vertices, the index upload the first `i_ind` indices, each skipped when zero |
| FilamentImgui.Ui.Prepare | filament_glfw_imgui/filament_imgui_impl.h:234-284 | both buffers grown as `GrownBuffer` says and the pool as `GrownPool` says, with fresh handles in that order; staging tails beyond the totals kept unless the buffer was replaced |
| FilamentImgui.Ui.Stage | filament_glfw_imgui/filament_imgui_impl.h:286-358 | the staging vectors hold the flattened frame then their old tails; one renderable per drawing command; callbacks logged in order; uploads of exactly the flattened frame |
| FilamentImgui.Ui.BuildFrame | filament_glfw_imgui/filament_imgui_impl.h:234-358 | the whole of `FrameBuilt`: the growth rules, the flattened staging vectors, the renderables, the callback log and the uploads; the invariants are kept |
| FilamentImgui.Ui.UpdateView | filament_glfw_imgui/filament_imgui_impl.h:206-359 | without an engine or with a 0x0 display nothing changes; with no draw lists only the renderables are dropped; otherwise the frame is built as `FrameBuilt` states; the invariants are kept |
| FilamentImgui.DrawCmdCountPrefix | filament_glfw_imgui/filament_imgui_impl.h:313-337 | the drawing commands among the first j commands never exceed the list's drawing commands |
| FsPrimitives.RingStartStep | demo/fs_primitives.h:150 | consecutive rings start `n_cols` vertices apart |
| FsPrimitives.RingStartMonotone | demo/fs_primitives.h:143-174 | ring `row'` starts `(row' - row) * n_cols` vertices after ring `row` |
| FsPrimitives.RingsAt | demo/fs_primitives.h:143-174 | the rings hold `rows * n_cols` vertices, with column c of ring r at `r * n_cols + c` |
| FsPrimitives.RingsLength | demo/fs_primitives.h:143-174 | the rings hold `rows * n_cols` vertices |
| FsPrimitives.SphereVertexLayout | demo/fs_primitives.h:102 | the vertex list has `n_verts` entries, the top pole first, the bottom pole last, and column c of ring r at `1 + r * n_cols + c` |
| FsPrimitives.SphereVertices | demo/fs_primitives.h:120-180 | the vertices in push order: the top pole, rings 0..n_rows-2 of n_cols vertices each, the bottom pole |
| FsPrimitives.TopTriangle | demo/fs_primitives.h:128-130 | top-cap triangle i: `(v_top, v_cur, v_next)` with `v_base = 1` and the next column wrapping |
| FsPrimitives.TopCap | demo/fs_primitives.h:125-131 | the first n top-cap triangles, in push order |
| FsPrimitives.BandQuad | demo/fs_primitives.h:152-161 | quad i of a band: `(v_a, v_cur, v_next, v_a, v_next, v_b)`, with `v_a`, `v_b` one ring back |
| FsPrimitives.Band | demo/fs_primitives.h:151-162 | the first n quads of the band whose ring starts at `v_base` |
| FsPrimitives.Bands | demo/fs_primitives.h:143-174 | the bands of middle rows 1..rows-1, in push order |
| FsPrimitives.BottomTriangle | demo/fs_primitives.h:184-188 | bottom-cap triangle i: `(v_next, v_cur, v_bot)` with `v_base = v_bot - n_cols` |
| FsPrimitives.BottomCap | demo/fs_primitives.h:183-189 | the first n bottom-cap triangles, in push order |
| FsPrimitives.SphereIndices | demo/fs_primitives.h:120-189 | the whole index list in push order: top cap, middle bands, bottom cap |
| FsPrimitives.PushTopCap | demo/fs_primitives.h:120-141 | the loop pushes the top pole and ring 0, and the fan of top-cap triangles |
| FsPrimitives.PushBand | demo/fs_primitives.h:143-174 | one middle row pushes its ring and the band of quads joining it to the ring before |
| FsPrimitives.PushBottomCap | demo/fs_primitives.h:176-190 | the bottom pole is pushed, then the fan of bottom-cap triangles over the last ring |
| FsPrimitives.SphereTopology | demo/fs_primitives.h:99-190 | the three loops together push exactly the sphere's vertex list and index list |
| FsPrimitives.TopCapLength | demo/fs_primitives.h:125-131 | n top-cap triangles are 3n indices |
| FsPrimitives.BandLength | demo/fs_primitives.h:151-162 | n quads are 6n indices |
| FsPrimitives.BandsLength | demo/fs_primitives.h:143-174 | the middle bands are `6 * n_cols * (rows - 1)` indices |
| FsPrimitives.BottomCapLength | demo/fs_primitives.h:183-189 | n bottom-cap triangles are 3n indices |
| FsPrimitives.SphereIndexCount | demo/fs_primitives.h:103 | the index list has exactly `n_inds` entries, a whole number of triangles |
| FsPrimitives.IndexCountSplit | demo/fs_primitives.h:103 | `n_inds` is the two caps' triangles plus two triangles per middle quad |
| FsPrimitives.TopCapInRange | demo/fs_primitives.h:125-131 | the top cap uses only the top pole and ring 0 |
| FsPrimitives.BandInRange | demo/fs_primitives.h:150-161 | a band's indices reach back one ring (`v_cur - n_cols`), never to the top pole, and never past the ring being built |
| FsPrimitives.BandsInRange | demo/fs_primitives.h:143-174 | all middle bands use vertices from ring 0 up to the last ring built |
| FsPrimitives.BottomCapInRange | demo/fs_primitives.h:177-189 | the bottom cap uses only the last ring and the bottom pole |
| FsPrimitives.SphereIndicesInRange | demo/fs_primitives.h:120-190 | every pushed index names a vertex that exists once the loops end |
| FsPrimitives.TopTriangleVertices | demo/fs_primitives.h:125-131 | top triangle i joins the top pole to columns i and i + 1 of ring 0, wrapping to 0 after the last column |
| FsPrimitives.BandQuadVertices | demo/fs_primitives.h:151-161 | quad i joins columns i and i + 1 (wrapping) of a ring to the same columns of the ring before it |
| FsPrimitives.BottomTriangleVertices | demo/fs_primitives.h:182-189 | bottom triangle i joins columns i + 1 (wrapping) and i of the last ring to the bottom pole |
| FsPrimitives.TopCapAt | demo/fs_primitives.h:125-131 | top triangle i sits at indices `3i..3i+3` |
| FsPrimitives.BottomCapAt | demo/fs_primitives.h:183-189 | bottom triangle i sits at indices `3i..3i+3` of the bottom cap |
| FsPrimitives.CapsTouchPoles | demo/fs_primitives.h:120-189 | every top-cap triangle starts at vertex 0, and every bottom-cap triangle ends at `v_bot`, the last vertex |
| FsPrimitives.VisualSphereCounts | demo/fs_primitives.h:99-103 | the demo's 32 x 64 sphere has 1986 vertices and 11904 indices, so every index fits in `uint16_t` |
| FsPrimitives.SphereGeometryRange | demo/fs_primitives.h:236-237 | the range `[0, inds.size())` the renderable draws is all 11904 indices of the demo's sphere, each naming one of its vertices and fitting in `uint16_t` |
| FsOrbitController.Clamped | demo/fs_orbit_controller.h:27-30 | within `[lo, hi]` when `lo <= hi`; a value already in range is returned unchanged; below gives `lo`, above gives `hi`; `lo` when `hi < lo` |
| FsOrbitController.ClampedInt | demo/demo.cpp:174-176 | the same properties for the `int` instantiation |
| FsOrbitController.ClampedIdempotent | demo/fs_orbit_controller.h:27-30 | clamping twice is clamping once, for any bounds |
| FsOrbitController.Clamp | demo/fs_orbit_controller.h:32-35 | the value written back is `Clamped(value, lo, hi)`, inside the bounds when they are ordered |
| FsOrbitController.NextEnvironmentInBounds | demo/demo.cpp:174-176 | stepping the environment index gives a valid index of a non-empty list, and leaves an in-range step alone |
| FsOrbitController.DownWrapped | demo/fs_orbit_controller.h:72 | the angle the first loop leaves, subtracting 2π while above π |
| FsOrbitController.UpWrapped | demo/fs_orbit_controller.h:73 | the angle the second loop leaves, adding 2π while below -π |
| FsOrbitController.Wrapped | demo/fs_orbit_controller.h:71-73 | the angle both loops leave in `theta` (proved in `WrappedSpec`) |
| FsOrbitController.DownWrappedSpec | demo/fs_orbit_controller.h:72 | subtracting 2π while above π removes whole turns, ends at or below π, and does not overshoot below -π |
| FsOrbitController.UpWrappedSpec | demo/fs_orbit_controller.h:73 | adding 2π while below -π adds whole turns, ends at or above -π, and does not overshoot above π |
| FsOrbitController.WrappedSpec | demo/fs_orbit_controller.h:71-75 | the wrapped angle lies in [-π, π], differs from the input by whole turns, and an angle already in range is unchanged |
| FsOrbitController.DollyStep | demo/fs_orbit_controller.h:77-85 | one zoom step: the radius plus radius times gain times delta, clamped to the radius limits (proved in `DollyDirection`) |
| FsOrbitController.DollyDirection | demo/fs_orbit_controller.h:77-85 | for a positive in-range radius, a zoom step stays within the limits; it never moves in when gain and delta agree in sign, and never moves out when they disagree |
| FsOrbitController.OrbitController.constructor | demo/fs_orbit_controller.h:37-57 | the default pose, limits and gains; the limits are ordered and the pose is inside them |
| FsOrbitController.OrbitController.EnforcePanBounds | demo/fs_orbit_controller.h:71-75 | theta becomes the wrapped angle, in [-π, π]; phi becomes the clamped phi, within its limits when they are ordered; a controller inside ordered limits stays inside them |
| FsOrbitController.OrbitController.MousePan | demo/fs_orbit_controller.h:59-63 | theta moves by minus gain times dx and phi by gain times dy, then both are brought back into bounds; a controller inside ordered limits stays inside them |
| FsOrbitController.OrbitController.NonmousePan | demo/fs_orbit_controller.h:65-69 | theta moves by gain times dx and phi by gain times dy, then both are brought back into bounds; a controller inside ordered limits stays inside them |
| FsOrbitController.OrbitController.MouseDolly | demo/fs_orbit_controller.h:77-80 | the radius becomes one clamped zoom step, within the radius limits when they are ordered; a controller inside ordered limits stays inside them |
| FsOrbitController.OrbitController.NonmouseDolly | demo/fs_orbit_controller.h:82-85 | the same, with the non-mouse gain; a controller inside ordered limits stays inside them |
| FsOrbitController.PanAndZoom | demo/fs_orbit_controller.h:59-85 | a mouse pan, a keyboard pan and the two zooms, in that order, bring a controller with ordered limits inside them from any pose |

## Left out

- Bit masks are modelled as the set of their set bits' positions. The C++ `int` width is not modelled, since GLFW's buttons (0..7), modifier bits and event tags all fit.
- `ModKeyMask::HasGlfwKey` (filament_glfw_imgui/glfw_input.h:88) is declared but never defined in the source, so it is not modelled.
- `State::event_index` is a `uint64_t`; the model uses an unbounded `nat`, so its 2^64 wrap-around is not modelled.
- Cursor positions and scroll offsets are `double` in the source; here they are integers, with `None` for the infinite "invalid" position.
- The `GLFWwindow*` is an opaque number.
- The child handler is not modelled. Its capture decision is a parameter of each `Handler` callback, and `Handler::ClearEvents`'s call into the child is left out. `glfw_input_imgui.h` (the ImGui child) is not part of this model.
- The GLFW callback trampolines and `GlfwAttachInputCallbacksAndSetWindowUserPointer` are left out; they are pointer casts and library registration.
- Every Filament engine call is abstract recorded state: builders, fences, `setBuffer`/`setBufferAt`, `setParameter`, the `RenderableManager` and the view and camera setup. This includes the viewport and orthographic projection `UpdateView` sets, the entity handles, and the destructor and move operations.
- The warning `UpdateView` prints when the font atlas is not built has no effect on state and is left out.
- The pixel copy of `CreateFontTexture` and the bodies of user callbacks are left out; only the order of callback invocations is recorded.
- `ImDrawData::TotalVtxCount`/`TotalIdxCount` are taken to be the sums over the lists, which is ImGui's own definition.
- The `material_` pointer is assumed non-null. The source dereferences it without a check and documents a null material as memory corruption.
- FilamentImgui.Ui.BuildFrame: the renderable builder's own capacity is not modelled beyond the count it is given.
- FilamentImgui.Ui.BuildFrame: the count is computed before the buffers are grown, not after. It is a pure function of the draw data, so the order changes nothing.
- The previous renderables are dropped only on the paths that reach the `destroy` call. This matches the source, which returns earlier for a null engine or a minimised window.
- ImGui clip rectangles are floats; here they are integer pixels, and the float-to-`uint16_t` casts in `SetScissor` are reduction modulo 2^16.
- The display metrics are exact reals. Float rounding before the truncation to `int` is not modelled.
- `OrbitController::Update` and `ApplyTo` are trigonometry and a foreign camera call, so they are left out.
- `OrbitController`'s floats are exact reals, so rounding is not captured. `M_PI` is the decimal constant `3.141592653589793`.
- FsOrbitController.OrbitController.EnforcePanBounds: its loops are proved to end because exact reals always move by 2π. With `float` they do not end for a `theta` beyond about 2^27 in magnitude, where `theta - 2π` rounds back to `theta`, nor for an infinite `theta`; the model does not capture that.
- Sphere positions, tangents and colours are floating point and are left out. A vertex is identified by its place on the sphere (a pole, or a ring and column).
- The buffer and entity creation at the end of `VisualSphere` is left out. Only the index range given to its single renderable is modelled.

## Findings

| source | as written | input that shows it | evidently intended | confidence | as-written member | corrected member |
|---|---|---|---|---|---|---|
| filament_glfw_imgui/glfw_input_impl.h:59-68 | `Axis` stores the two `int64_t` pressed indices in `int` variables before comparing them | plus key pressed at event 2^31, minus key held since event 5: the narrowed plus index is -2^31, so `Axis` returns -1 instead of 1 | compare the `int64_t` indices themselves, as the documentation at filament_glfw_imgui/glfw_input.h:175-183 describes | not executed | GlfwInput.AxisNarrowingFlipsSign | GlfwInput.KeyboardState.Axis |
