/**
 * ImGui's per-frame draw data, as Ui::UpdateView reads it, and the
 * flattened vertex and index streams it produces from it.
 *
 * Every list-level function is defined by peeling off the LAST draw list,
 * so that it follows a loop that walks the lists in order.
 */
module ImguiDrawData {
  import opened Wrappers

  /** Number of values an ImDrawIdx (unsigned short) can hold. */
  const IdxRange: int := 0x1_0000

  /** ImDrawIdx: a 16-bit unsigned vertex index. */
  type Idx = x: int | 0 <= x < 0x1_0000

  /** Conversion of an int to an unsigned 16-bit value: reduction modulo 2^16. */
  function Wrap16(n: int): (r: Idx)
    ensures 0 <= n < IdxRange ==> r == n
    ensures IdxRange <= n < 2 * IdxRange ==> r == n - IdxRange
  {
    n % IdxRange
  }

  /** ImDrawVert: position, texture coordinate and packed colour. */
  datatype DrawVert = DrawVert(posX: real, posY: real, u: real, v: real, col: nat)

  /** ImVec4 clip rectangle (x1, y1, x2, y2) in framebuffer pixels. */
  datatype ClipRect = ClipRect(x: int, y: int, z: int, w: int)

  /** ImDrawCmd. A present `userCallback` makes the command a callback command;
    * `texId` is None for the null texture id. */
  datatype DrawCmd = DrawCmd(clipRect: ClipRect, texId: Option<nat>, idxOffset: nat,
                             elemCount: nat, userCallback: Option<nat>)

  /** ImDrawList: its own vertices, its indices into them, and its commands. */
  datatype DrawList = DrawList(vtx: seq<DrawVert>, idx: seq<Idx>, cmds: seq<DrawCmd>)

  /** ImDrawData::TotalVtxCount. */
  function TotalVtx(lists: seq<DrawList>): nat
  {
    if |lists| == 0 then 0
    else TotalVtx(lists[..|lists| - 1]) + |lists[|lists| - 1].vtx|
  }

  /** ImDrawData::TotalIdxCount. */
  function TotalIdx(lists: seq<DrawList>): nat
  {
    if |lists| == 0 then 0
    else TotalIdx(lists[..|lists| - 1]) + |lists[|lists| - 1].idx|
  }

  /** Number of commands over all lists, callback commands included. */
  function TotalCmds(lists: seq<DrawList>): nat
  {
    if |lists| == 0 then 0
    else TotalCmds(lists[..|lists| - 1]) + |lists[|lists| - 1].cmds|
  }

  /** Number of commands of one list that draw (are not callbacks). */
  function DrawCmdCount(cmds: seq<DrawCmd>): nat
  {
    if |cmds| == 0 then 0
    else DrawCmdCount(cmds[..|cmds| - 1]) + (if cmds[|cmds| - 1].userCallback.Some? then 0 else 1)
  }

  /** Number of drawing commands over all lists. */
  function DrawCount(lists: seq<DrawList>): nat
  {
    if |lists| == 0 then 0
    else DrawCount(lists[..|lists| - 1]) + DrawCmdCount(lists[|lists| - 1].cmds)
  }

  /** The vertices of all lists, one list after the other. */
  function FlatVertices(lists: seq<DrawList>): seq<DrawVert>
  {
    if |lists| == 0 then []
    else FlatVertices(lists[..|lists| - 1]) + lists[|lists| - 1].vtx
  }

  /** A list's indices shifted by `base`, in 16-bit arithmetic. */
  function Rebased(idx: seq<Idx>, base: int): (r: seq<Idx>)
    ensures |r| == |idx|
    ensures forall k :: 0 <= k < |idx| ==> r[k] == Wrap16(idx[k] + base)
  {
    seq(|idx|, k requires 0 <= k < |idx| => Wrap16(idx[k] + base))
  }

  /** The indices UpdateView stages for list `i`: list 0 verbatim, every later
    * list rebased by the number of vertices staged before it. */
  function ListIndices(lists: seq<DrawList>, i: nat): seq<Idx>
    requires i < |lists|
  {
    if i == 0 then lists[0].idx
    else Rebased(lists[i].idx, TotalVtx(lists[..i]))
  }

  /** The indices of all lists, rebased, one list after the other. */
  function FlatIndices(lists: seq<DrawList>): seq<Idx>
  {
    if |lists| == 0 then []
    else FlatIndices(lists[..|lists| - 1]) + ListIndices(lists, |lists| - 1)
  }

  /** ImGui's own guarantee about a list: each index names one of its vertices. */
  predicate IndicesInList(l: DrawList)
  {
    forall k :: 0 <= k < |l.idx| ==> l.idx[k] < |l.vtx|
  }

  /** ImGui's own guarantee about a list: each command's index range lies in
    * the list's indices. */
  predicate CmdsInList(l: DrawList)
  {
    forall c <- l.cmds :: c.idxOffset + c.elemCount <= |l.idx|
  }

  // ---------------------------------------------------------------------------
  // Counting.

  lemma PrefixOfPrefix<T>(s: seq<T>, i: nat)
    requires i < |s|
    ensures s[..i + 1][..i] == s[..i]
    ensures s[..i + 1][i] == s[i]
  {
  }

  /** Adding list i to the first i lists appends its vertices. */
  lemma {:induction false} FlatVerticesSnoc(lists: seq<DrawList>, i: nat)
    requires i < |lists|
    ensures FlatVertices(lists[..i + 1]) == FlatVertices(lists[..i]) + lists[i].vtx
  {
    PrefixOfPrefix(lists, i);
  }

  /** Adding list i to the first i lists appends its indices, rebased by the
    * vertices before it unless it is the first list. */
  lemma {:induction false} FlatIndicesSnoc(lists: seq<DrawList>, i: nat)
    requires i < |lists|
    ensures FlatIndices(lists[..i + 1]) == FlatIndices(lists[..i]) +
              (if i == 0 then lists[i].idx else Rebased(lists[i].idx, TotalVtx(lists[..i])))
  {
    var front := lists[..i + 1];
    PrefixOfPrefix(lists, i);
    assert FlatIndices(front) == FlatIndices(front[..i]) + ListIndices(front, i);
  }

  lemma {:induction false} FlatVerticesLength(lists: seq<DrawList>)
    ensures |FlatVertices(lists)| == TotalVtx(lists)
  {
    if |lists| > 0 {
      FlatVerticesLength(lists[..|lists| - 1]);
    }
  }

  lemma {:induction false} FlatIndicesLength(lists: seq<DrawList>)
    ensures |FlatIndices(lists)| == TotalIdx(lists)
  {
    if |lists| > 0 {
      FlatIndicesLength(lists[..|lists| - 1]);
    }
  }

  lemma {:induction false} DrawCmdCountBound(cmds: seq<DrawCmd>)
    ensures DrawCmdCount(cmds) <= |cmds|
  {
    if |cmds| > 0 {
      DrawCmdCountBound(cmds[..|cmds| - 1]);
    }
  }

  /** Drawing commands never outnumber commands, so a pool grown to the total
    * command count has an instance for every drawing command. */
  lemma {:induction false} DrawCountBound(lists: seq<DrawList>)
    ensures DrawCount(lists) <= TotalCmds(lists)
  {
    if |lists| > 0 {
      DrawCountBound(lists[..|lists| - 1]);
      DrawCmdCountBound(lists[|lists| - 1].cmds);
    }
  }

  /** The running sums only grow as lists are added. */
  lemma {:induction false} TotalsMonotone(lists: seq<DrawList>, i: nat)
    requires i <= |lists|
    ensures TotalVtx(lists[..i]) <= TotalVtx(lists)
    ensures TotalIdx(lists[..i]) <= TotalIdx(lists)
    ensures DrawCount(lists[..i]) <= DrawCount(lists)
    decreases |lists| - i
  {
    if i < |lists| {
      TotalsMonotone(lists, i + 1);
      PrefixOfPrefix(lists, i);
    } else {
      assert lists[..i] == lists;
    }
  }

  // ---------------------------------------------------------------------------
  // What the flattened streams contain.

  /** Vertex k of list i sits at position TotalVtx(lists[..i]) + k of the
    * flattened vertices. */
  lemma {:induction false} FlatVerticesAt(lists: seq<DrawList>, i: nat, k: nat)
    requires i < |lists| && k < |lists[i].vtx|
    ensures TotalVtx(lists[..i]) + k < |FlatVertices(lists)|
    ensures FlatVertices(lists)[TotalVtx(lists[..i]) + k] == lists[i].vtx[k]
    decreases |lists|
  {
    var n := |lists| - 1;
    var init := lists[..n];
    FlatVerticesLength(init);
    FlatVerticesLength(lists);
    if i < n {
      FlatVerticesAt(init, i, k);
      assert init[..i] == lists[..i];
      assert init[i] == lists[i];
    } else {
      assert lists[..i] == init;
    }
  }

  /** The indices staged for the first m lists are a prefix of those staged
    * for all of them. */
  lemma {:induction false} FlatIndicesPrefix(lists: seq<DrawList>, m: nat)
    requires m <= |lists|
    ensures FlatIndices(lists[..m]) <= FlatIndices(lists)
    decreases |lists|
  {
    if m < |lists| {
      var init := lists[..|lists| - 1];
      FlatIndicesPrefix(init, m);
      assert init[..m] == lists[..m];
    } else {
      assert lists[..m] == lists;
    }
  }

  /** Element k of the indices UpdateView stages for list i. */
  lemma {:induction false} StagedIndexAt(lists: seq<DrawList>, i: nat, k: nat)
    requires i < |lists| && k < |lists[i].idx|
    ensures (if i == 0 then lists[i].idx else Rebased(lists[i].idx, TotalVtx(lists[..i])))[k]
            == Wrap16(lists[i].idx[k] + TotalVtx(lists[..i]))
  {
    if i == 0 {
      assert lists[..0] == [];
    }
  }

  lemma ConcatAt<T>(whole: seq<T>, front: seq<T>, back: seq<T>, k: nat, v: T)
    requires whole == front + back && k < |back| && back[k] == v
    ensures |front| + k < |whole| && whole[|front| + k] == v
  {
  }

  /** Index k of list i, once list i is staged after the lists before it. */
  lemma {:induction false} FlatIndicesOfList(lists: seq<DrawList>, i: nat, k: nat)
    requires i < |lists| && k < |lists[i].idx|
    ensures TotalIdx(lists[..i]) + k < |FlatIndices(lists[..i + 1])|
    ensures FlatIndices(lists[..i + 1])[TotalIdx(lists[..i]) + k] == Wrap16(lists[i].idx[k] + TotalVtx(lists[..i]))
  {
    FlatIndicesSnoc(lists, i);
    FlatIndicesLength(lists[..i]);
    StagedIndexAt(lists, i, k);
    ConcatAt(FlatIndices(lists[..i + 1]), FlatIndices(lists[..i]),
             if i == 0 then lists[i].idx else Rebased(lists[i].idx, TotalVtx(lists[..i])),
             k, Wrap16(lists[i].idx[k] + TotalVtx(lists[..i])));
  }

  /** Index k of list i sits at position TotalIdx(lists[..i]) + k of the
    * flattened indices, shifted by the vertices before list i. */
  lemma {:induction false} FlatIndicesAt(lists: seq<DrawList>, i: nat, k: nat)
    requires i < |lists| && k < |lists[i].idx|
    ensures TotalIdx(lists[..i]) + k < |FlatIndices(lists)|
    ensures FlatIndices(lists)[TotalIdx(lists[..i]) + k] == Wrap16(lists[i].idx[k] + TotalVtx(lists[..i]))
  {
    FlatIndicesOfList(lists, i, k);
    FlatIndicesPrefix(lists, i + 1);
  }

  /** Copying list 0 verbatim is the same as rebasing it by zero. */
  lemma {:induction false} FirstListNeedsNoRebase(lists: seq<DrawList>)
    requires |lists| > 0
    ensures ListIndices(lists, 0) == Rebased(lists[0].idx, TotalVtx(lists[..0]))
  {
    assert TotalVtx(lists[..0]) == 0;
  }

  /** The point of the rebase: while the whole frame has at most 2^16 vertices,
    * every staged index names, in the flattened vertices, the very vertex the
    * list's own index named. */
  lemma {:induction false} RebasedIndexNamesSameVertex(lists: seq<DrawList>, i: nat, k: nat)
    requires i < |lists| && k < |lists[i].idx|
    requires IndicesInList(lists[i])
    requires TotalVtx(lists) <= IdxRange
    ensures var p := TotalIdx(lists[..i]) + k;
            p < |FlatIndices(lists)| &&
            FlatIndices(lists)[p] < |FlatVertices(lists)| &&
            FlatVertices(lists)[FlatIndices(lists)[p]] == lists[i].vtx[lists[i].idx[k]]
  {
    var j := lists[i].idx[k];
    var base := TotalVtx(lists[..i]);
    var flatVtx := FlatVertices(lists);
    FlatIndicesAt(lists, i, k);
    FlatVerticesAt(lists, i, j);
    FlatVerticesLength(lists);
    assert base + j < |flatVtx| <= IdxRange;
    SameVertex(FlatIndices(lists), flatVtx, TotalIdx(lists[..i]) + k, base, j, lists[i].vtx[j]);
  }

  /** Following an index that the wrap left unchanged. */
  lemma SameVertex(flatIdx: seq<Idx>, flatVtx: seq<DrawVert>, p: nat, base: nat, j: nat, v: DrawVert)
    requires p < |flatIdx| && base + j < |flatVtx| <= IdxRange
    requires flatIdx[p] == Wrap16(j + base) && flatVtx[base + j] == v
    ensures flatIdx[p] < |flatVtx| && flatVtx[flatIdx[p]] == v
  {
  }


  /** The 16-bit limit: once the vertices before list i and its own index
    * reach 2^16, the staged index wraps round and names an earlier vertex. */
  lemma {:induction false} RebaseWraps(lists: seq<DrawList>, i: nat, k: nat)
    requires i < |lists| && k < |lists[i].idx|
    requires IdxRange <= lists[i].idx[k] + TotalVtx(lists[..i]) < 2 * IdxRange
    ensures var p := TotalIdx(lists[..i]) + k;
            p < |FlatIndices(lists)| &&
            FlatIndices(lists)[p] == lists[i].idx[k] + TotalVtx(lists[..i]) - IdxRange &&
            FlatIndices(lists)[p] < TotalVtx(lists[..i]) + lists[i].idx[k]
  {
    var x := lists[i].idx[k] + TotalVtx(lists[..i]);
    FlatIndicesAt(lists, i, k);
    assert Wrap16(x) == x - IdxRange;
  }
}
