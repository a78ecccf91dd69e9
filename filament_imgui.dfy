/**
 * The ImGui-to-Filament bridge (filament_imgui::Ui).
 *
 * The engine is abstract recorded state: every object the engine creates is a
 * fresh `Handle` drawn from `nextHandle`; a GPU buffer is its handle and its
 * capacity; the renderables of the UI entity are a list of descriptors; the
 * uploads and the user-callback invocations are logs, in call order.
 */
module FilamentImgui {
  import opened Wrappers
  import opened ImguiDrawData
  import opened EngineObjects

  // ---------------------------------------------------------------------------
  // SetScissor.

  /** MaterialInstance::setScissor arguments: origin at the bottom-left, with
    * width and height cast to 16 bits. */
  datatype Scissor = Scissor(left: int, bottom: int, width: Idx, height: Idx)

  /** SetScissor: ImGui clip rectangles have their origin at the top-left,
    * Filament scissors at the bottom-left, so the rectangle is flipped. */
  function ScissorFor(clip: ClipRect, heightPx: int): Scissor
  {
    Scissor(clip.x, heightPx - clip.w, Wrap16(clip.z - clip.x), Wrap16(clip.w - clip.y))
  }

  /** The clip rectangle a scissor stands for, read back in ImGui's
    * top-left coordinates. */
  function ClipOf(s: Scissor, heightPx: int): ClipRect
  {
    ClipRect(s.left, heightPx - s.bottom - s.height, s.left + s.width, heightPx - s.bottom)
  }

  /** A well-formed clip rectangle narrower and shorter than 2^16 pixels is
    * exactly the rectangle its scissor covers: the flip loses nothing. */
  lemma ScissorRoundTrip(clip: ClipRect, heightPx: int)
    requires clip.x <= clip.z < clip.x + IdxRange
    requires clip.y <= clip.w < clip.y + IdxRange
    ensures ClipOf(ScissorFor(clip, heightPx), heightPx) == clip
    ensures ScissorFor(clip, heightPx).bottom + ScissorFor(clip, heightPx).height == heightPx - clip.y
  {
  }

  /** Only the 16-bit casts lose information: a clip rectangle 2^16 pixels
    * wide gets a zero-width scissor. */
  lemma ScissorWidthWraps(clip: ClipRect, heightPx: int)
    requires clip.z == clip.x + IdxRange
    ensures ScissorFor(clip, heightPx).width == 0
  {
  }

  // ---------------------------------------------------------------------------
  // What UpdateView hands to the renderable builder.

  /** One renderable slot: its blend order, the index range it draws, the
    * material instance it uses and the texture and scissor set on that
    * instance. */
  datatype Renderable = Renderable(slot: nat, blendOrder: nat, firstIndex: int, indexCount: nat,
                                   material: Handle, texture: Option<Handle>, scissor: Scissor)

  /** One invocation of a command's user callback, with the draw list and the
    * command it was handed. */
  datatype CallbackCall = CallbackCall(callback: nat, list: nat, cmd: nat)

  /** The command's own texture, or the font atlas for the null texture id. */
  function TextureFor(cmd: DrawCmd, atlas: Option<Handle>): (t: Option<Handle>)
    ensures cmd.texId.Some? ==> t == cmd.texId
    ensures cmd.texId.None? ==> t == atlas
  {
    if cmd.texId.Some? then cmd.texId else atlas
  }

  /** The renderables of one list's commands: callbacks are skipped, drawing
    * commands take the slots from `firstSlot` on, and their index ranges are
    * shifted by the indices staged before the list. */
  function CmdRenderables(cmds: seq<DrawCmd>, firstSlot: nat, indBase: nat, heightPx: int,
                          atlas: Option<Handle>, pool: seq<Handle>): seq<Renderable>
    requires firstSlot + DrawCmdCount(cmds) <= |pool|
  {
    if |cmds| == 0 then []
    else
      var init := cmds[..|cmds| - 1];
      var c := cmds[|cmds| - 1];
      var slot := firstSlot + DrawCmdCount(init);
      CmdRenderables(init, firstSlot, indBase, heightPx, atlas, pool) +
      (if c.userCallback.Some? then []
       else [Renderable(slot, slot, indBase + c.idxOffset, c.elemCount, pool[slot],
                        TextureFor(c, atlas), ScissorFor(c.clipRect, heightPx))])
  }

  /** The renderables of all lists. */
  function Renderables(lists: seq<DrawList>, heightPx: int, atlas: Option<Handle>,
                       pool: seq<Handle>): seq<Renderable>
    requires DrawCount(lists) <= |pool|
  {
    if |lists| == 0 then []
    else
      var init := lists[..|lists| - 1];
      Renderables(init, heightPx, atlas, pool) +
      CmdRenderables(lists[|lists| - 1].cmds, DrawCount(init), TotalIdx(init), heightPx, atlas, pool)
  }

  /** The callback invocations of one list (number `listIndex`), in order. */
  function CmdCallbacks(cmds: seq<DrawCmd>, listIndex: nat): seq<CallbackCall>
  {
    if |cmds| == 0 then []
    else
      var c := cmds[|cmds| - 1];
      CmdCallbacks(cmds[..|cmds| - 1], listIndex) +
      (if c.userCallback.Some? then [CallbackCall(c.userCallback.value, listIndex, |cmds| - 1)] else [])
  }

  /** The callback invocations of all lists, in order. */
  function Callbacks(lists: seq<DrawList>): seq<CallbackCall>
  {
    if |lists| == 0 then []
    else Callbacks(lists[..|lists| - 1]) + CmdCallbacks(lists[|lists| - 1].cmds, |lists| - 1)
  }

  lemma {:induction false} CmdRenderablesSlots(cmds: seq<DrawCmd>, firstSlot: nat, indBase: nat,
                                               heightPx: int, atlas: Option<Handle>, pool: seq<Handle>)
    requires firstSlot + DrawCmdCount(cmds) <= |pool|
    ensures var rs := CmdRenderables(cmds, firstSlot, indBase, heightPx, atlas, pool);
            |rs| == DrawCmdCount(cmds) &&
            forall k :: 0 <= k < |rs| ==>
              rs[k].slot == firstSlot + k && rs[k].blendOrder == firstSlot + k &&
              rs[k].material == pool[firstSlot + k]
  {
    if |cmds| > 0 {
      CmdRenderablesSlots(cmds[..|cmds| - 1], firstSlot, indBase, heightPx, atlas, pool);
    }
  }

  /** Drawing commands get consecutive slots 0, 1, ..., each drawn in the
    * order of its slot with the pool's material instance for that slot. */
  lemma {:induction false} RenderablesSlots(lists: seq<DrawList>, heightPx: int,
                                            atlas: Option<Handle>, pool: seq<Handle>)
    requires DrawCount(lists) <= |pool|
    ensures var rs := Renderables(lists, heightPx, atlas, pool);
            |rs| == DrawCount(lists) &&
            forall k :: 0 <= k < |rs| ==>
              rs[k].slot == k && rs[k].blendOrder == k && rs[k].material == pool[k]
  {
    if |lists| > 0 {
      var init := lists[..|lists| - 1];
      var front := Renderables(init, heightPx, atlas, pool);
      var back := CmdRenderables(lists[|lists| - 1].cmds, DrawCount(init), TotalIdx(init), heightPx, atlas, pool);
      RenderablesSlots(init, heightPx, atlas, pool);
      CmdRenderablesSlots(lists[|lists| - 1].cmds, DrawCount(init), TotalIdx(init), heightPx, atlas, pool);
      var rs := front + back;
      assert Renderables(lists, heightPx, atlas, pool) == rs;
      forall k | 0 <= k < |rs|
        ensures rs[k].slot == k && rs[k].blendOrder == k && rs[k].material == pool[k]
      {
        if k >= |front| {
          assert rs[k] == back[k - |front|];
        }
      }
    }
  }

  lemma {:induction false} CmdCallbacksCount(cmds: seq<DrawCmd>, listIndex: nat)
    ensures |CmdCallbacks(cmds, listIndex)| + DrawCmdCount(cmds) == |cmds|
  {
    if |cmds| > 0 {
      CmdCallbacksCount(cmds[..|cmds| - 1], listIndex);
    }
  }

  /** Every command is either a callback invocation or a renderable, never
    * both: the two together account for all commands of the frame. */
  lemma {:induction false} CallbacksAndDrawsPartitionCommands(lists: seq<DrawList>)
    ensures |Callbacks(lists)| + DrawCount(lists) == TotalCmds(lists)
  {
    if |lists| > 0 {
      CallbacksAndDrawsPartitionCommands(lists[..|lists| - 1]);
      CmdCallbacksCount(lists[|lists| - 1].cmds, |lists| - 1);
    }
  }

  lemma {:induction false} CmdRenderablesInRange(cmds: seq<DrawCmd>, firstSlot: nat, indBase: nat,
                                                 heightPx: int, atlas: Option<Handle>,
                                                 pool: seq<Handle>, listIndices: nat)
    requires firstSlot + DrawCmdCount(cmds) <= |pool|
    requires forall c <- cmds :: c.idxOffset + c.elemCount <= listIndices
    ensures forall r <- CmdRenderables(cmds, firstSlot, indBase, heightPx, atlas, pool) ::
              indBase <= r.firstIndex && r.firstIndex + r.indexCount <= indBase + listIndices
  {
    if |cmds| > 0 {
      CmdRenderablesInRange(cmds[..|cmds| - 1], firstSlot, indBase, heightPx, atlas, pool, listIndices);
      assert cmds[|cmds| - 1] in cmds;
    }
  }

  /** When each command's range lies in its own list's indices (ImGui's
    * guarantee), every renderable draws only indices of the staged frame. */
  lemma {:induction false} RenderablesInRange(lists: seq<DrawList>, heightPx: int,
                                              atlas: Option<Handle>, pool: seq<Handle>)
    requires DrawCount(lists) <= |pool|
    requires forall l <- lists :: CmdsInList(l)
    ensures forall r <- Renderables(lists, heightPx, atlas, pool) ::
              0 <= r.firstIndex && r.firstIndex + r.indexCount <= TotalIdx(lists)
  {
    if |lists| > 0 {
      var init := lists[..|lists| - 1];
      var last := lists[|lists| - 1];
      assert forall l <- init :: l in lists;
      assert last in lists;
      RenderablesInRange(init, heightPx, atlas, pool);
      CmdRenderablesInRange(last.cmds, DrawCount(init), TotalIdx(init), heightPx, atlas, pool, |last.idx|);
    }
  }

  /** The running sums of UpdateView's list loop after list i is added. */
  lemma {:induction false} CountsStep(lists: seq<DrawList>, i: nat)
    requires i < |lists|
    ensures TotalVtx(lists[..i + 1]) == TotalVtx(lists[..i]) + |lists[i].vtx| <= TotalVtx(lists)
    ensures TotalIdx(lists[..i + 1]) == TotalIdx(lists[..i]) + |lists[i].idx| <= TotalIdx(lists)
    ensures DrawCount(lists[..i + 1]) == DrawCount(lists[..i]) + DrawCmdCount(lists[i].cmds) <= DrawCount(lists)
  {
    PrefixOfPrefix(lists, i);
    TotalsMonotone(lists, i + 1);
  }

  /** Staging list i's vertices right after those of the lists before it. */
  lemma {:induction false} VerticesStep(lists: seq<DrawList>, i: nat, vd0: seq<DrawVert>, vd: seq<DrawVert>)
    requires i < |lists|
    requires TotalVtx(lists[..i + 1]) == TotalVtx(lists[..i]) + |lists[i].vtx| <= |vd0|
    requires vd == FlatVertices(lists[..i]) + vd0[TotalVtx(lists[..i])..]
    ensures TotalVtx(lists[..i]) + |lists[i].vtx| <= |vd|
    ensures Spliced(vd, TotalVtx(lists[..i]), lists[i].vtx) ==
              FlatVertices(lists[..i + 1]) + vd0[TotalVtx(lists[..i + 1])..]
  {
    FlatVerticesLength(lists[..i]);
    FlatVerticesSnoc(lists, i);
    SpliceStep(FlatVertices(lists[..i]), vd0, lists[i].vtx);
  }

  /** Staging list i's indices (rebased unless it is list 0) right after
    * those of the lists before it. */
  lemma {:induction false} IndicesStep(lists: seq<DrawList>, i: nat, id0: seq<Idx>, id: seq<Idx>)
    requires i < |lists|
    requires TotalIdx(lists[..i + 1]) == TotalIdx(lists[..i]) + |lists[i].idx| <= |id0|
    requires id == FlatIndices(lists[..i]) + id0[TotalIdx(lists[..i])..]
    ensures TotalIdx(lists[..i]) + |lists[i].idx| <= |id|
    ensures Spliced(id, TotalIdx(lists[..i]),
                    if i == 0 then lists[i].idx else Rebased(lists[i].idx, TotalVtx(lists[..i]))) ==
              FlatIndices(lists[..i + 1]) + id0[TotalIdx(lists[..i + 1])..]
  {
    FlatIndicesLength(lists[..i]);
    FlatIndicesSnoc(lists, i);
    var staged := if i == 0 then lists[i].idx else Rebased(lists[i].idx, TotalVtx(lists[..i]));
    SpliceStep(FlatIndices(lists[..i]), id0, staged);
  }

  /** List i's renderables follow those of the lists before it. */
  lemma {:induction false} RenderablesStep(lists: seq<DrawList>, i: nat, heightPx: int, atlas: Option<Handle>, pool: seq<Handle>)
    requires i < |lists| && DrawCount(lists) <= |pool|
    ensures DrawCount(lists[..i]) + DrawCmdCount(lists[i].cmds) <= |pool|
    ensures DrawCount(lists[..i + 1]) <= |pool|
    ensures Renderables(lists[..i + 1], heightPx, atlas, pool) ==
              Renderables(lists[..i], heightPx, atlas, pool) +
              CmdRenderables(lists[i].cmds, DrawCount(lists[..i]), TotalIdx(lists[..i]), heightPx, atlas, pool)
  {
    CountsStep(lists, i);
    PrefixOfPrefix(lists, i);
  }

  /** List i's callback invocations follow those of the lists before it,
    * after whatever the log held before the loop. */
  lemma {:induction false} CallbacksStep(lists: seq<DrawList>, i: nat, log0: seq<CallbackCall>, log: seq<CallbackCall>)
    requires i < |lists|
    requires log == log0 + Callbacks(lists[..i])
    ensures log + CmdCallbacks(lists[i].cmds, i) == log0 + Callbacks(lists[..i + 1])
  {
    PrefixOfPrefix(lists, i);
    assert Callbacks(lists[..i + 1]) == Callbacks(lists[..i]) + CmdCallbacks(lists[i].cmds, i);
  }

  // ---------------------------------------------------------------------------
  // Engine state.

  /** An asynchronous copy to the GPU (setBufferAt / setBuffer). */
  datatype Upload =
    | VertexUpload(buffer: Handle, vertices: seq<DrawVert>)
    | IndexUpload(buffer: Handle, indices: seq<Idx>)

  /** The fields of ImGuiIO that UpdateView reads. */
  datatype Io = Io(displayWidth: real, displayHeight: real, scaleX: real, scaleY: real)

  /** C++'s float-to-int conversion, which truncates toward zero. */
  function Truncate(x: real): (r: int)
    ensures 0.0 <= x ==> r as real <= x < r as real + 1.0
    ensures x < 0.0 ==> r as real - 1.0 < x <= r as real
  {
    if x >= 0.0 then x.Floor else -((-x).Floor)
  }

  /** The framebuffer height in pixels. */
  function HeightPx(io: Io): int
  {
    Truncate(io.displayHeight * io.scaleY)
  }

  /** A minimised window reports a 0x0 display. */
  predicate Minimized(io: Io)
  {
    io.displayWidth == 0.0 && io.displayHeight == 0.0
  }

  /** A buffer is replaced when it is missing or holds fewer than `total`
    * elements. */
  predicate NeedsRebuild(b: Option<GpuBuffer>, total: nat)
  {
    b.None? || b.value.capacity < total
  }

  /** std::vector::resize: keeps the first n elements, pads with `fill`. */
  function Resized<T>(s: seq<T>, n: nat, fill: T): (r: seq<T>)
    ensures |r| == n
    ensures forall k :: 0 <= k < n && k < |s| ==> r[k] == s[k]
    ensures forall k :: |s| <= k < n ==> r[k] == fill
  {
    if n <= |s| then s[..n] else s + seq(n - |s|, _ => fill)
  }

  /** A value-initialised ImDrawVert. */
  const ZeroVert := DrawVert(0.0, 0.0, 0.0, 0.0, 0)

  /** Splicing `v` into `a` at `at` (a memcpy into a staging vector). */
  function Spliced<T>(a: seq<T>, at: nat, v: seq<T>): (r: seq<T>)
    requires at + |v| <= |a|
    ensures |r| == |a|
    ensures r[..at] == a[..at]
    ensures r[at..at + |v|] == v
    ensures r[at + |v|..] == a[at + |v|..]
  {
    a[..at] + v + a[at + |v|..]
  }

  /** The first |front| elements of front + back are front. */
  lemma FrontOfConcat<T>(front: seq<T>, back: seq<T>)
    ensures (front + back)[..|front|] == front
  {
  }

  /** Writing `v` just after an already written prefix extends the prefix
    * and leaves the rest of the original untouched. */
  lemma SpliceStep<T>(front: seq<T>, orig: seq<T>, v: seq<T>)
    requires |front| + |v| <= |orig|
    ensures Spliced(front + orig[|front|..], |front|, v) == (front + v) + orig[|front| + |v|..]
  {
    var a := front + orig[|front|..];
    assert a[..|front|] == front;
    assert a[|front| + |v|..] == orig[|front| + |v|..];
  }

  /** The buffer UpdateView keeps for a frame of `total` elements: the old
    * one if it is big enough, otherwise a new one (handle `h`) of exactly
    * that size. */
  function GrownBuffer(b: Option<GpuBuffer>, total: nat, h: Handle): (r: Option<GpuBuffer>)
    ensures r.Some? && r.value.capacity >= total
    ensures b.Some? ==> r.value.capacity >= b.value.capacity
    ensures r != b <==> NeedsRebuild(b, total)
    ensures NeedsRebuild(b, total) ==> r.value.capacity == total
  {
    if NeedsRebuild(b, total) then Some(GpuBuffer(h, total)) else b
  }

  /** The material-instance pool after growing to `n` entries, the new
    * instances getting the handles from `h` on. */
  function GrownPool(pool: seq<Handle>, n: nat, h: Handle): (r: seq<Handle>)
    ensures |r| == if |pool| < n then n else |pool|
    ensures pool <= r
    ensures forall k :: |pool| <= k < |r| ==> r[k] == h + (k - |pool|)
  {
    if |pool| < n then pool + seq(n - |pool|, k requires 0 <= k => h + k) else pool
  }

  /** The grown pool's new instances were all created before the handle
    * after the last of them. */
  lemma GrownPoolIssued(pool: seq<Handle>, n: nat, h: Handle)
    requires forall k :: 0 <= k < |pool| ==> pool[k] < h
    ensures var r := GrownPool(pool, n, h);
            forall k :: 0 <= k < |r| ==> r[k] < h + (|r| - |pool|)
  {
  }

  /** The number of renderables UpdateView asks for: every command of every
    * list, callbacks included. */
  method CountRenderables(lists: seq<DrawList>) returns (n: nat)
    ensures n == TotalCmds(lists)
    ensures n >= DrawCount(lists)
  {
    n := 0;
    for i := 0 to |lists|
      invariant n == TotalCmds(lists[..i])
    {
      PrefixOfPrefix(lists, i);
      n := n + |lists[i].cmds|;
    }
    assert lists[..|lists|] == lists;
    DrawCountBound(lists);
  }

  /** ImFontAtlas: only its texture id is touched here. */
  class FontAtlas {
    var texId: Option<Handle>

    constructor(texId: Option<Handle>)
      ensures this.texId == texId
    {
      this.texId := texId;
    }
  }

  /** filament_imgui::Ui. `hasEngine` stands for a non-null engine pointer;
    * `None` stands for a null Filament object. */
  class Ui {
    var hasEngine: bool
    var material: Handle

    var view: Option<Handle>
    var scene: Option<Handle>
    var camera: Option<Handle>

    var fontAtlas: Option<Handle>
    var vertexBuffer: Option<GpuBuffer>
    var indexBuffer: Option<GpuBuffer>
    var materialInstances: seq<Handle>

    /** Staging vectors, cached between frames. */
    var vertexData: seq<DrawVert>
    var indexData: seq<Idx>

    /** The renderable component of the UI entity. */
    var renderables: seq<Renderable>
    var callbackLog: seq<CallbackCall>
    var uploads: seq<Upload>

    /** The handle the engine gives to the next object it creates. */
    var nextHandle: Handle

    /** Each staging vector is exactly as long as its GPU buffer's capacity
      * (empty while there is no buffer). */
    predicate StagingMatches()
      reads this`vertexBuffer, this`indexBuffer, this`vertexData, this`indexData
    {
      StagedFor(vertexBuffer, |vertexData|) && StagedFor(indexBuffer, |indexData|)
    }

    /** Every engine object the UI owns was created before `nextHandle`. */
    predicate HandlesIssued()
      reads this`view, this`scene, this`camera, this`fontAtlas, this`vertexBuffer,
            this`indexBuffer, this`materialInstances, this`nextHandle
    {
      AllIssuedBefore(view, scene, camera, fontAtlas, vertexBuffer, indexBuffer, materialInstances, nextHandle)
    }

    /** Without an engine every UI component stays null. */
    predicate NullWithoutEngine()
      reads this`hasEngine, this`view, this`scene, this`camera, this`fontAtlas,
            this`vertexBuffer, this`indexBuffer, this`materialInstances
    {
      AllNull(hasEngine, view, scene, camera, fontAtlas, vertexBuffer, indexBuffer, materialInstances)
    }

    predicate Valid()
      reads this`hasEngine, this`view, this`scene, this`camera, this`fontAtlas, this`vertexBuffer,
            this`indexBuffer, this`vertexData, this`indexData, this`materialInstances, this`nextHandle
    {
      StagingMatches() && HandlesIssued() && NullWithoutEngine()
    }

    /** Ui() = default: no engine, nothing created. */
    constructor Default()
      ensures !hasEngine && view.None? && scene.None? && camera.None?
      ensures fontAtlas.None? && vertexBuffer.None? && indexBuffer.None?
      ensures materialInstances == [] && vertexData == [] && indexData == []
      ensures renderables == [] && callbackLog == [] && uploads == []
      ensures Valid()
    {
      hasEngine := false;
      material := 0;
      view, scene, camera := None, None, None;
      fontAtlas, vertexBuffer, indexBuffer := None, None, None;
      materialInstances, vertexData, indexData := [], [], [];
      renderables, callbackLog, uploads := [], [], [];
      nextHandle := 0;
    }

    /** Ui(engine, material): with an engine, creates the view, the scene and
      * the camera; the atlas, the buffers and the pool come later. With a
      * null engine, creates nothing. */
    constructor(hasEngine: bool, material: Handle)
      ensures this.hasEngine == hasEngine && this.material == material
      ensures hasEngine ==> view == Some(0) && scene == Some(1) && camera == Some(2)
      ensures !hasEngine ==> view.None? && scene.None? && camera.None?
      ensures fontAtlas.None? && vertexBuffer.None? && indexBuffer.None?
      ensures materialInstances == [] && vertexData == [] && indexData == []
      ensures renderables == [] && callbackLog == [] && uploads == []
      ensures Valid()
    {
      this.hasEngine := hasEngine;
      this.material := material;
      if hasEngine {
        view, scene, camera := Some(0), Some(1), Some(2);
        nextHandle := 3;
      } else {
        view, scene, camera := None, None, None;
        nextHandle := 0;
      }
      fontAtlas, vertexBuffer, indexBuffer := None, None, None;
      materialInstances, vertexData, indexData := [], [], [];
      renderables, callbackLog, uploads := [], [], [];
    }

    /** view(): null without an engine. */
    function View(): (v: Option<Handle>)
      reads this`view, this`hasEngine, this`scene, this`camera, this`fontAtlas,
            this`vertexBuffer, this`indexBuffer, this`materialInstances
      requires NullWithoutEngine()
      ensures !hasEngine ==> v.None?
    {
      view
    }

    /** Replaces the font atlas texture with a new one and marks the atlas's
      * texture id with the null sentinel. Nothing happens without an engine. */
    method RebuildFontAtlas(fonts: FontAtlas)
      requires Valid()
      modifies this`fontAtlas, this`nextHandle, fonts`texId
      ensures Valid()
      ensures !hasEngine ==>
                fontAtlas == old(fontAtlas) && nextHandle == old(nextHandle) &&
                fonts.texId == old(fonts.texId)
      ensures hasEngine ==>
                fontAtlas == Some(old(nextHandle)) && nextHandle == old(nextHandle) + 1 &&
                fonts.texId.None? && fontAtlas != old(fontAtlas)
    {
      if !hasEngine {
        return;
      }
      fontAtlas := Some(nextHandle);
      nextHandle := nextHandle + 1;
      fonts.texId := None;
    }

    /** Replaces each buffer that is missing or too small by one of exactly
      * the frame's size, resizing its staging vector to match. */
    method GrowBuffers(totalVtx: nat, totalIdx: nat)
      requires StagingMatches()
      modifies this`vertexBuffer, this`indexBuffer, this`vertexData, this`indexData, this`nextHandle
      ensures StagingMatches()
      ensures vertexBuffer == GrownBuffer(old(vertexBuffer), totalVtx, old(nextHandle))
      ensures indexBuffer == GrownBuffer(old(indexBuffer), totalIdx,
                                         old(nextHandle) + (if NeedsRebuild(old(vertexBuffer), totalVtx) then 1 else 0))
      ensures vertexData == if NeedsRebuild(old(vertexBuffer), totalVtx)
                            then Resized(old(vertexData), totalVtx, ZeroVert) else old(vertexData)
      ensures indexData == if NeedsRebuild(old(indexBuffer), totalIdx)
                           then Resized(old(indexData), totalIdx, 0) else old(indexData)
      ensures nextHandle == old(nextHandle) + (if NeedsRebuild(old(vertexBuffer), totalVtx) then 1 else 0)
                                            + (if NeedsRebuild(old(indexBuffer), totalIdx) then 1 else 0)
    {
      var rebuildVertexBuffer := NeedsRebuild(vertexBuffer, totalVtx);
      var rebuildIndexBuffer := NeedsRebuild(indexBuffer, totalIdx);
      if rebuildVertexBuffer || rebuildIndexBuffer {
        if rebuildVertexBuffer {
          vertexBuffer := Some(GpuBuffer(nextHandle, totalVtx));
          nextHandle := nextHandle + 1;
          vertexData := Resized(vertexData, totalVtx, ZeroVert);
        }
        if rebuildIndexBuffer {
          indexBuffer := Some(GpuBuffer(nextHandle, totalIdx));
          nextHandle := nextHandle + 1;
          indexData := Resized(indexData, totalIdx, 0);
        }
      }
    }

    /** Extends the material-instance pool to `n` entries, creating one new
      * instance per added entry; existing entries are kept. */
    method GrowPool(n: nat)
      modifies this`materialInstances, this`nextHandle
      ensures materialInstances == GrownPool(old(materialInstances), n, old(nextHandle))
      ensures nextHandle == old(nextHandle) + (|materialInstances| - old(|materialInstances|))
    {
      if |materialInstances| < n {
        var first := |materialInstances|;
        materialInstances := Resized(materialInstances, n, 0);
        for i := first to n
          invariant |materialInstances| == n
          invariant materialInstances[..first] == old(materialInstances)
          invariant forall k :: first <= k < i ==> materialInstances[k] == old(nextHandle) + (k - first)
          invariant nextHandle == old(nextHandle) + (i - first)
        {
          materialInstances := materialInstances[i := nextHandle];
          nextHandle := nextHandle + 1;
        }
        assert materialInstances == GrownPool(old(materialInstances), n, old(nextHandle));
      }
    }

    /** memcpy of a list's vertices into the staging vector at `at`. */
    method CopyVertices(at: nat, vtx: seq<DrawVert>)
      requires at + |vtx| <= |vertexData|
      modifies this`vertexData
      ensures vertexData == Spliced(old(vertexData), at, vtx)
    {
      vertexData := vertexData[..at] + vtx + vertexData[at + |vtx|..];
    }

    /** memcpy of list 0's indices into the staging vector at `at`. */
    method CopyIndices(at: nat, idx: seq<Idx>)
      requires at + |idx| <= |indexData|
      modifies this`indexData
      ensures indexData == Spliced(old(indexData), at, idx)
    {
      indexData := indexData[..at] + idx + indexData[at + |idx|..];
    }

    /** The rewrite loop for a later list: each index plus the vertices staged
      * before the list, stored as 16 bits. */
    method RebaseIndices(at: nat, idx: seq<Idx>, base: nat)
      requires at + |idx| <= |indexData|
      modifies this`indexData
      ensures indexData == Spliced(old(indexData), at, Rebased(idx, base))
    {
      for k := 0 to |idx|
        invariant |indexData| == |old(indexData)|
        invariant forall j :: 0 <= j < |indexData| ==>
                    indexData[j] == if at <= j < at + k then Wrap16(idx[j - at] + base) else old(indexData)[j]
      {
        indexData := indexData[at + k := Wrap16(idx[k] + base)];
      }
      assert indexData == Spliced(old(indexData), at, Rebased(idx, base));
    }

    /** The command loop of one list: callbacks are invoked and skip; every
      * drawing command gets the next slot. */
    method BuildCommands(listIndex: nat, cmds: seq<DrawCmd>, firstSlot: nat, indBase: nat,
                         heightPx: int)
      returns (built: seq<Renderable>, slot: nat)
      requires firstSlot + DrawCmdCount(cmds) <= |materialInstances|
      modifies this`callbackLog
      ensures built == CmdRenderables(cmds, firstSlot, indBase, heightPx, fontAtlas, materialInstances)
      ensures slot == firstSlot + DrawCmdCount(cmds)
      ensures callbackLog == old(callbackLog) + CmdCallbacks(cmds, listIndex)
    {
      built := [];
      slot := firstSlot;
      for j := 0 to |cmds|
        invariant DrawCmdCount(cmds[..j]) <= DrawCmdCount(cmds)
        invariant slot == firstSlot + DrawCmdCount(cmds[..j])
        invariant built == CmdRenderables(cmds[..j], firstSlot, indBase, heightPx, fontAtlas, materialInstances)
        invariant callbackLog == old(callbackLog) + CmdCallbacks(cmds[..j], listIndex)
      {
        PrefixOfPrefix(cmds, j);
        DrawCmdCountPrefix(cmds, j + 1);
        var cmd := cmds[j];
        if cmd.userCallback.Some? {
          callbackLog := callbackLog + [CallbackCall(cmd.userCallback.value, listIndex, j)];
          continue;
        }
        var instance := materialInstances[slot];
        built := built + [Renderable(slot, slot, indBase + cmd.idxOffset, cmd.elemCount, instance,
                                     TextureFor(cmd, fontAtlas), ScissorFor(cmd.clipRect, heightPx))];
        slot := slot + 1;
      }
      assert cmds[..|cmds|] == cmds;
    }

    /** The body of the loop over the draw lists, for list number `i`. */
    method FillList(i: nat, drawList: DrawList, iVert: nat, iInd: nat, iRenderable: nat, heightPx: int)
      returns (listBuilt: seq<Renderable>, slot: nat)
      requires iVert + |drawList.vtx| <= |vertexData| && iInd + |drawList.idx| <= |indexData|
      requires iRenderable + DrawCmdCount(drawList.cmds) <= |materialInstances|
      modifies this`vertexData, this`indexData, this`callbackLog
      ensures vertexData == Spliced(old(vertexData), iVert, drawList.vtx)
      ensures indexData == Spliced(old(indexData), iInd,
                                   if i == 0 then drawList.idx else Rebased(drawList.idx, iVert))
      ensures listBuilt == CmdRenderables(drawList.cmds, iRenderable, iInd, heightPx, fontAtlas, materialInstances)
      ensures slot == iRenderable + DrawCmdCount(drawList.cmds)
      ensures callbackLog == old(callbackLog) + CmdCallbacks(drawList.cmds, i)
    {
      CopyVertices(iVert, drawList.vtx);
      if i == 0 {
        CopyIndices(iInd, drawList.idx);
      } else {
        RebaseIndices(iInd, drawList.idx, iVert);
      }
      listBuilt, slot := BuildCommands(i, drawList.cmds, iRenderable, iInd, heightPx);
    }

    /** What the loop over the draw lists has done after the first `i` lists,
      * starting from staging vectors `vd0` and `id0` and callback log `log0`. */
    predicate FilledUpTo(lists: seq<DrawList>, i: nat, heightPx: int, built: seq<Renderable>,
                         iVert: nat, iInd: nat, iRenderable: nat,
                         vd0: seq<DrawVert>, id0: seq<Idx>, log0: seq<CallbackCall>)
      reads this`vertexData, this`indexData, this`callbackLog, this`fontAtlas, this`materialInstances
    {
      i <= |lists| &&
      TotalVtx(lists[..i]) <= TotalVtx(lists) <= |vd0| &&
      TotalIdx(lists[..i]) <= TotalIdx(lists) <= |id0| &&
      DrawCount(lists[..i]) <= DrawCount(lists) <= |materialInstances| &&
      iVert == TotalVtx(lists[..i]) && iInd == TotalIdx(lists[..i]) &&
      iRenderable == DrawCount(lists[..i]) &&
      vertexData == FlatVertices(lists[..i]) + vd0[iVert..] &&
      indexData == FlatIndices(lists[..i]) + id0[iInd..] &&
      built == Renderables(lists[..i], heightPx, fontAtlas, materialInstances) &&
      callbackLog == log0 + Callbacks(lists[..i])
    }

    /** One turn of the loop over the draw lists. */
    method FillStep(lists: seq<DrawList>, i: nat, heightPx: int, built: seq<Renderable>,
                    iVert: nat, iInd: nat, iRenderable: nat,
                    ghost vd0: seq<DrawVert>, ghost id0: seq<Idx>, ghost log0: seq<CallbackCall>)
      returns (built': seq<Renderable>, iVert': nat, iInd': nat, iRenderable': nat)
      requires i < |lists|
      requires FilledUpTo(lists, i, heightPx, built, iVert, iInd, iRenderable, vd0, id0, log0)
      modifies this`vertexData, this`indexData, this`callbackLog
      ensures FilledUpTo(lists, i + 1, heightPx, built', iVert', iInd', iRenderable', vd0, id0, log0)
    {
      CountsStep(lists, i);
      VerticesStep(lists, i, vd0, vertexData);
      IndicesStep(lists, i, id0, indexData);
      RenderablesStep(lists, i, heightPx, fontAtlas, materialInstances);
      CallbacksStep(lists, i, log0, callbackLog);
      var drawList := lists[i];
      var listBuilt, slot := FillList(i, drawList, iVert, iInd, iRenderable, heightPx);
      built' := built + listBuilt;
      iRenderable' := slot;
      iVert' := iVert + |drawList.vtx|;
      iInd' := iInd + |drawList.idx|;
    }

    /** The loop over the draw lists: stages vertices and indices, builds the
      * renderables and invokes the callbacks, with running cursors. */
    method FillLists(lists: seq<DrawList>, heightPx: int)
      returns (built: seq<Renderable>, iVert: nat, iInd: nat)
      requires TotalVtx(lists) <= |vertexData| && TotalIdx(lists) <= |indexData|
      requires DrawCount(lists) <= |materialInstances|
      modifies this`vertexData, this`indexData, this`callbackLog
      ensures iVert == TotalVtx(lists) && iInd == TotalIdx(lists)
      ensures vertexData == FlatVertices(lists) + old(vertexData)[iVert..]
      ensures indexData == FlatIndices(lists) + old(indexData)[iInd..]
      ensures built == Renderables(lists, heightPx, fontAtlas, materialInstances)
      ensures callbackLog == old(callbackLog) + Callbacks(lists)
    {
      built, iVert, iInd := [], 0, 0;
      var iRenderable := 0;
      assert lists[..0] == [];
      TotalsMonotone(lists, 0);
      for i := 0 to |lists|
        invariant FilledUpTo(lists, i, heightPx, built, iVert, iInd, iRenderable,
                             old(vertexData), old(indexData), old(callbackLog))
      {
        built, iVert, iInd, iRenderable :=
          FillStep(lists, i, heightPx, built, iVert, iInd, iRenderable,
                   old(vertexData), old(indexData), old(callbackLog));
      }
      assert lists[..|lists|] == lists;
    }

    /** The asynchronous copies to the GPU, skipped when there is nothing to
      * copy. */
    method Upload(iVert: nat, iInd: nat)
      requires vertexBuffer.Some? && indexBuffer.Some?
      requires iVert <= |vertexData| && iInd <= |indexData|
      modifies this`uploads
      ensures uploads == old(uploads) +
                (if iVert > 0 then [VertexUpload(vertexBuffer.value.handle, vertexData[..iVert])] else []) +
                (if iInd > 0 then [IndexUpload(indexBuffer.value.handle, indexData[..iInd])] else [])
    {
      if iVert != 0 {
        uploads := uploads + [VertexUpload(vertexBuffer.value.handle, vertexData[..iVert])];
      }
      if iInd != 0 {
        uploads := uploads + [IndexUpload(indexBuffer.value.handle, indexData[..iInd])];
      }
    }

    /** The state after UpdateView has drawn a frame with at least one list. */
    twostate predicate FrameBuilt(lists: seq<DrawList>, heightPx: int)
      requires old(StagingMatches())
      reads this
    {
      var tv := TotalVtx(lists);
      var ti := TotalIdx(lists);
      var rebuildVertices := NeedsRebuild(old(vertexBuffer), tv);
      var rebuildIndices := NeedsRebuild(old(indexBuffer), ti);
      var indexHandle := old(nextHandle) + (if rebuildVertices then 1 else 0);
      var poolStart := indexHandle + (if rebuildIndices then 1 else 0);
      // Each buffer is replaced on its own, only when missing or too small.
      vertexBuffer == GrownBuffer(old(vertexBuffer), tv, old(nextHandle)) &&
      indexBuffer == GrownBuffer(old(indexBuffer), ti, indexHandle) &&
      // The pool grows to the command count, keeping its old entries.
      materialInstances == GrownPool(old(materialInstances), TotalCmds(lists), poolStart) &&
      nextHandle == poolStart + (|materialInstances| - old(|materialInstances|)) &&
      // The staging vectors hold the flattened frame, then what was there.
      vertexData == FlatVertices(lists) + (if rebuildVertices then [] else old(vertexData)[tv..]) &&
      indexData == FlatIndices(lists) + (if rebuildIndices then [] else old(indexData)[ti..]) &&
      // One renderable per drawing command; callbacks invoked in order.
      DrawCount(lists) <= |materialInstances| &&
      renderables == Renderables(lists, heightPx, fontAtlas, materialInstances) &&
      callbackLog == old(callbackLog) + Callbacks(lists) &&
      // Both uploads, each skipped when empty.
      uploads == old(uploads) +
                 (if tv > 0 then [VertexUpload(vertexBuffer.value.handle, FlatVertices(lists))] else []) +
                 (if ti > 0 then [IndexUpload(indexBuffer.value.handle, FlatIndices(lists))] else [])
    }

    /** The first half of a frame: each buffer grown to the frame's vertex or
      * index total, and the material-instance pool to the renderable count. */
    method Prepare(totalVtx: nat, totalIdx: nat, numRenderables: nat)
      requires Valid() && hasEngine
      modifies this`vertexBuffer, this`indexBuffer, this`vertexData, this`indexData,
               this`materialInstances, this`nextHandle
      ensures Valid()
      ensures vertexBuffer == GrownBuffer(old(vertexBuffer), totalVtx, old(nextHandle))
      ensures indexBuffer == GrownBuffer(old(indexBuffer), totalIdx,
                                         old(nextHandle) + (if NeedsRebuild(old(vertexBuffer), totalVtx) then 1 else 0))
      ensures totalVtx <= |vertexData| && totalIdx <= |indexData|
      ensures vertexData[totalVtx..] ==
                if NeedsRebuild(old(vertexBuffer), totalVtx) then [] else old(vertexData)[totalVtx..]
      ensures indexData[totalIdx..] ==
                if NeedsRebuild(old(indexBuffer), totalIdx) then [] else old(indexData)[totalIdx..]
      ensures materialInstances ==
                GrownPool(old(materialInstances), numRenderables,
                          old(nextHandle) + (if NeedsRebuild(old(vertexBuffer), totalVtx) then 1 else 0)
                                          + (if NeedsRebuild(old(indexBuffer), totalIdx) then 1 else 0))
      ensures nextHandle == old(nextHandle) + (if NeedsRebuild(old(vertexBuffer), totalVtx) then 1 else 0)
                                            + (if NeedsRebuild(old(indexBuffer), totalIdx) then 1 else 0)
                                            + (|materialInstances| - old(|materialInstances|))
    {
      GrowBuffers(totalVtx, totalIdx);
      assert HandlesIssued();
      ghost var h := nextHandle;
      GrowPool(numRenderables);
      GrownPoolIssued(old(materialInstances), numRenderables, h);
    }

    /** The second half of a frame: the lists copied and rebased into the
      * staging vectors (what lay beyond the frame's totals is kept), one
      * renderable per drawing command, callbacks invoked, then both uploads.
      * The ghost parameters name the staging tails and the logs as they were
      * before the frame. */
    method Stage(lists: seq<DrawList>, heightPx: int, ghost vertexTail: seq<DrawVert>, ghost indexTail: seq<Idx>,
                 ghost priorCallbacks: seq<CallbackCall>, ghost priorUploads: seq<Upload>)
      requires StagingMatches() && vertexBuffer.Some? && indexBuffer.Some?
      requires callbackLog == priorCallbacks && uploads == priorUploads
      requires TotalVtx(lists) <= |vertexData| && TotalIdx(lists) <= |indexData|
      requires vertexData[TotalVtx(lists)..] == vertexTail && indexData[TotalIdx(lists)..] == indexTail
      requires DrawCount(lists) <= |materialInstances|
      modifies this`vertexData, this`indexData, this`renderables, this`callbackLog, this`uploads
      ensures StagingMatches()
      ensures vertexData == FlatVertices(lists) + vertexTail
      ensures indexData == FlatIndices(lists) + indexTail
      ensures renderables == Renderables(lists, heightPx, fontAtlas, materialInstances)
      ensures callbackLog == priorCallbacks + Callbacks(lists)
      ensures uploads == priorUploads +
                (if TotalVtx(lists) > 0 then [VertexUpload(vertexBuffer.value.handle, FlatVertices(lists))] else []) +
                (if TotalIdx(lists) > 0 then [IndexUpload(indexBuffer.value.handle, FlatIndices(lists))] else [])
    {
      var built, iVert, iInd := FillLists(lists, heightPx);
      FlatVerticesLength(lists);
      FlatIndicesLength(lists);
      FrontOfConcat(FlatVertices(lists), vertexTail);
      FrontOfConcat(FlatIndices(lists), indexTail);
      assert |vertexData| == old(|vertexData|) && |indexData| == old(|indexData|);
      renderables := built;
      Upload(iVert, iInd);
    }

    /** Everything UpdateView does once it has an engine, a visible display
      * and at least one draw list. */
    method BuildFrame(lists: seq<DrawList>, heightPx: int)
      requires Valid() && hasEngine
      modifies this`vertexBuffer, this`indexBuffer, this`vertexData, this`indexData,
               this`materialInstances, this`nextHandle, this`renderables, this`callbackLog, this`uploads
      ensures Valid()
      ensures FrameBuilt(lists, heightPx)
    {
      var numRenderables := CountRenderables(lists);
      Prepare(TotalVtx(lists), TotalIdx(lists), numRenderables);
      assert materialInstances ==
               GrownPool(old(materialInstances), TotalCmds(lists),
                         old(nextHandle) + (if NeedsRebuild(old(vertexBuffer), TotalVtx(lists)) then 1 else 0)
                                         + (if NeedsRebuild(old(indexBuffer), TotalIdx(lists)) then 1 else 0));
      Stage(lists, heightPx,
            if NeedsRebuild(old(vertexBuffer), TotalVtx(lists)) then [] else old(vertexData)[TotalVtx(lists)..],
            if NeedsRebuild(old(indexBuffer), TotalIdx(lists)) then [] else old(indexData)[TotalIdx(lists)..],
            old(callbackLog), old(uploads));
    }

    /** Rebuilds the UI entity's renderables from the frame's draw lists.
      * Without an engine, or for a minimised window, nothing changes; with no
      * draw lists only the old renderables are dropped. */
    method UpdateView(lists: seq<DrawList>, io: Io)
      requires Valid()
      modifies this`vertexBuffer, this`indexBuffer, this`vertexData, this`indexData,
               this`materialInstances, this`nextHandle, this`renderables, this`callbackLog, this`uploads
      ensures Valid()
      ensures !hasEngine || Minimized(io) ==> unchanged(this)
      ensures hasEngine && !Minimized(io) && |lists| == 0 ==>
                renderables == [] &&
                unchanged(this`vertexBuffer, this`indexBuffer, this`vertexData, this`indexData,
                          this`materialInstances, this`nextHandle, this`callbackLog, this`uploads)
      ensures hasEngine && !Minimized(io) && |lists| > 0 ==> FrameBuilt(lists, HeightPx(io))
    {
      if !hasEngine {
        return;
      }
      if Minimized(io) {
        return;
      }
      var heightPx := HeightPx(io);
      // The entity's renderables are destroyed every frame; with draw lists
      // BuildFrame puts the new ones in their place.
      if |lists| == 0 {
        renderables := [];
        return;
      }
      BuildFrame(lists, heightPx);
    }
  }

  lemma {:induction false} DrawCmdCountPrefix(cmds: seq<DrawCmd>, j: nat)
    requires j <= |cmds|
    ensures DrawCmdCount(cmds[..j]) <= DrawCmdCount(cmds)
    decreases |cmds| - j
  {
    if j < |cmds| {
      DrawCmdCountPrefix(cmds, j + 1);
      PrefixOfPrefix(cmds, j);
    } else {
      assert cmds[..j] == cmds;
    }
  }
}
