/** The index topology of the demo's UV sphere (`VisualSphere`): a top pole,
    `nRows - 1` rings of `nCols` vertices and a bottom pole, joined by a fan of
    triangles at each pole and by two triangles per quad between neighbouring
    rings. Positions, tangents and colours are floating point and are not part
    of the model; a vertex is identified by where it sits on the sphere. */
module FsPrimitives {

  /** The sphere the demo builds. */
  const NRows := 32
  const NCols := 64

  /** What a vertex of the sphere is: a pole, or column `col` of ring `row`
      (ring 0 is the one next to the top pole). */
  datatype SphereVertex = TopPole | Ring(row: nat, col: nat) | BottomPole

  /** `n_verts` and `n_inds`, the totals the source reserves. */
  function VertexCount(nRows: int, nCols: int): int
  {
    (nRows - 1) * nCols + 2
  }

  function IndexCount(nRows: int, nCols: int): int
  {
    3 * (nCols * (nRows - 1) * 2)
  }

  /** The position of the first vertex of ring `row`. */
  function RingStart(nCols: nat, row: nat): nat
  {
    1 + row * nCols
  }

  lemma RingStartStep(nCols: nat, row: nat)
    ensures RingStart(nCols, row + 1) == RingStart(nCols, row) + nCols
  {
    assert (row + 1) * nCols == row * nCols + nCols;
  }

  lemma RingStartMonotone(nCols: nat, row: nat, row': nat)
    requires row <= row'
    ensures RingStart(nCols, row) + (row' - row) * nCols == RingStart(nCols, row')
  {
    assert row' * nCols == row * nCols + (row' - row) * nCols;
  }

  // ---------------------------------------------------------------------------
  // The vertices, in the order they are pushed.
  // ---------------------------------------------------------------------------

  /** The first `n` vertices of ring `row`. */
  function RingVertices(row: nat, n: nat): seq<SphereVertex>
  {
    seq(n, c requires 0 <= c < n => Ring(row, c))
  }

  /** Rings `0..rows-1`, each with `nCols` vertices. */
  function Rings(nCols: nat, rows: nat): seq<SphereVertex>
  {
    if rows == 0 then [] else Rings(nCols, rows - 1) + RingVertices(rows - 1, nCols)
  }

  function SphereVertices(nRows: nat, nCols: nat): seq<SphereVertex>
    requires nRows >= 1
  {
    [TopPole] + Rings(nCols, nRows - 1) + [BottomPole]
  }

  lemma {:induction false} RingsAt(nCols: nat, rows: nat, row: nat, col: nat)
    requires row < rows && col < nCols
    ensures |Rings(nCols, rows)| == rows * nCols
    ensures row * nCols + col < rows * nCols
    ensures Rings(nCols, rows)[row * nCols + col] == Ring(row, col)
  {
    RingsLength(nCols, rows - 1);
    assert rows * nCols == (rows - 1) * nCols + nCols;
    if row < rows - 1 {
      RingsAt(nCols, rows - 1, row, col);
    } else {
      assert row * nCols + col - (rows - 1) * nCols == col;
    }
  }

  lemma {:induction false} RingsLength(nCols: nat, rows: nat)
    ensures |Rings(nCols, rows)| == rows * nCols
  {
    if rows > 0 {
      RingsLength(nCols, rows - 1);
      assert rows * nCols == (rows - 1) * nCols + nCols;
    }
  }

  /** The vertex list holds `n_verts` vertices: the top pole first, the bottom
      pole last, and column `col` of ring `row` at `RingStart(nCols, row) + col`. */
  lemma SphereVertexLayout(nRows: nat, nCols: nat, row: nat, col: nat)
    requires nRows >= 2 && nCols >= 1 && row < nRows - 1 && col < nCols
    ensures |SphereVertices(nRows, nCols)| == VertexCount(nRows, nCols)
    ensures SphereVertices(nRows, nCols)[0] == TopPole
    ensures SphereVertices(nRows, nCols)[VertexCount(nRows, nCols) - 1] == BottomPole
    ensures RingStart(nCols, row) + col < VertexCount(nRows, nCols) - 1
    ensures SphereVertices(nRows, nCols)[RingStart(nCols, row) + col] == Ring(row, col)
  {
    RingsAt(nCols, nRows - 1, row, col);
  }

  // ---------------------------------------------------------------------------
  // The indices, in the order they are pushed, with the source's own cursor
  // arithmetic (`v_base`, `v_cur`, `v_next`, `v_a`, `v_b`, `v_bot`).
  // ---------------------------------------------------------------------------

  /** Top cap triangle `i`: `(v_top, v_cur, v_next)` with `v_base = 1`. */
  function TopTriangle(nCols: nat, i: nat): seq<int>
    requires nCols >= 1
  {
    [0, 1 + i, 1 + (i + 1) % nCols]
  }

  function TopCap(nCols: nat, n: nat): seq<int>
    requires nCols >= 1
  {
    if n == 0 then [] else TopCap(nCols, n - 1) + TopTriangle(nCols, n - 1)
  }

  /** The two triangles `(v_a, v_cur, v_next)` and `(v_a, v_next, v_b)` of quad
      `i` of the ring starting at `vBase`. */
  function BandQuad(nCols: nat, vBase: nat, i: nat): seq<int>
    requires nCols >= 1
  {
    var vCur := vBase + i;
    var vNext := vBase + (i + 1) % nCols;
    var vA := vCur - nCols;
    var vB := vNext - nCols;
    [vA, vCur, vNext, vA, vNext, vB]
  }

  function Band(nCols: nat, vBase: nat, n: nat): seq<int>
    requires nCols >= 1
  {
    if n == 0 then [] else Band(nCols, vBase, n - 1) + BandQuad(nCols, vBase, n - 1)
  }

  /** The bands of rows `1..rows-1`. */
  function Bands(nCols: nat, rows: nat): seq<int>
    requires nCols >= 1
  {
    if rows <= 1 then []
    else Bands(nCols, rows - 1) + Band(nCols, RingStart(nCols, rows - 1), nCols)
  }

  /** Bottom cap triangle `i`: `(v_next, v_cur, v_bot)` with
      `v_base = v_bot - n_cols`. */
  function BottomTriangle(nCols: nat, vBot: nat, i: nat): seq<int>
    requires nCols >= 1
  {
    var vBase := vBot - nCols;
    [vBase + (i + 1) % nCols, vBase + i, vBot]
  }

  function BottomCap(nCols: nat, vBot: nat, n: nat): seq<int>
    requires nCols >= 1
  {
    if n == 0 then [] else BottomCap(nCols, vBot, n - 1) + BottomTriangle(nCols, vBot, n - 1)
  }

  function SphereIndices(nRows: nat, nCols: nat): seq<int>
    requires nRows >= 1 && nCols >= 1
  {
    TopCap(nCols, nCols) + Bands(nCols, nRows - 1)
    + BottomCap(nCols, RingStart(nCols, nRows - 1), nCols)
  }

  // ---------------------------------------------------------------------------
  // The generating loops.
  // ---------------------------------------------------------------------------

  /** The top pole and ring 0, with the top cap's fan of triangles. */
  method PushTopCap(nCols: nat) returns (verts: seq<SphereVertex>, inds: seq<int>)
    requires nCols >= 1
    ensures verts == [TopPole] + Rings(nCols, 1)
    ensures inds == TopCap(nCols, nCols)
  {
    verts := [TopPole];
    inds := [];
    var vTop := 0;
    var vBase := vTop + 1;
    var i := 0;
    while i < nCols
      invariant 0 <= i <= nCols
      invariant verts == [TopPole] + RingVertices(0, i)
      invariant inds == TopCap(nCols, i)
    {
      var vCur := vBase + i;
      var vNext := vBase + (i + 1) % nCols;
      inds := inds + [vTop, vCur, vNext];
      verts := verts + [Ring(0, i)];
      i := i + 1;
    }
  }

  /** Middle row `row`: ring `row` and the band of quads joining it to ring
      `row - 1`; `v_base` is the number of vertices pushed so far. */
  method PushBand(nCols: nat, row: nat, verts0: seq<SphereVertex>, inds0: seq<int>)
    returns (verts: seq<SphereVertex>, inds: seq<int>)
    requires nCols >= 1 && row >= 1
    requires verts0 == [TopPole] + Rings(nCols, row)
    ensures verts == [TopPole] + Rings(nCols, row + 1)
    ensures inds == inds0 + Band(nCols, RingStart(nCols, row), nCols)
  {
    RingsLength(nCols, row);
    verts, inds := verts0, inds0;
    var vBase := |verts|;
    assert vBase == RingStart(nCols, row);
    var i := 0;
    while i < nCols
      invariant 0 <= i <= nCols
      invariant verts == verts0 + RingVertices(row, i)
      invariant inds == inds0 + Band(nCols, vBase, i)
    {
      var vCur := vBase + i;
      var vNext := vBase + (i + 1) % nCols;
      var vA := vCur - nCols;
      var vB := vNext - nCols;
      inds := inds + [vA, vCur, vNext, vA, vNext, vB];
      verts := verts + [Ring(row, i)];
      i := i + 1;
    }
  }

  /** The bottom pole, `v_bot`, and the bottom cap's fan of triangles over the
      last ring. */
  method PushBottomCap(nCols: nat, verts0: seq<SphereVertex>, inds0: seq<int>)
    returns (verts: seq<SphereVertex>, inds: seq<int>)
    requires nCols >= 1
    ensures verts == verts0 + [BottomPole]
    ensures inds == inds0 + BottomCap(nCols, |verts0|, nCols)
  {
    var vBot := |verts0|;
    verts := verts0 + [BottomPole];
    inds := inds0;
    var vBase := vBot - nCols;
    var i := 0;
    while i < nCols
      invariant 0 <= i <= nCols
      invariant inds == inds0 + BottomCap(nCols, vBot, i)
    {
      var vCur := vBase + i;
      var vNext := vBase + (i + 1) % nCols;
      inds := inds + [vNext, vCur, vBot];
      i := i + 1;
    }
  }

  /** The vertex and index loops of `VisualSphere`, for any grid of at least two
      rows and one column; `verts` records which vertex each push creates. */
  method SphereTopology(nRows: nat, nCols: nat) returns (verts: seq<SphereVertex>, inds: seq<int>)
    requires nRows >= 2 && nCols >= 1
    ensures verts == SphereVertices(nRows, nCols)
    ensures inds == SphereIndices(nRows, nCols)
  {
    verts, inds := PushTopCap(nCols);
    var row := 1;
    while row < nRows - 1
      invariant 1 <= row <= nRows - 1
      invariant verts == [TopPole] + Rings(nCols, row)
      invariant inds == TopCap(nCols, nCols) + Bands(nCols, row)
    {
      verts, inds := PushBand(nCols, row, verts, inds);
      assert Bands(nCols, row + 1) == Bands(nCols, row) + Band(nCols, RingStart(nCols, row), nCols);
      row := row + 1;
    }
    RingsLength(nCols, nRows - 1);
    assert |verts| == RingStart(nCols, nRows - 1);
    verts, inds := PushBottomCap(nCols, verts, inds);
  }

  // ---------------------------------------------------------------------------
  // Counts and ranges.
  // ---------------------------------------------------------------------------

  lemma {:induction false} TopCapLength(nCols: nat, n: nat)
    requires nCols >= 1
    ensures |TopCap(nCols, n)| == 3 * n
  {
    if n > 0 {
      TopCapLength(nCols, n - 1);
    }
  }

  lemma {:induction false} BandLength(nCols: nat, vBase: nat, n: nat)
    requires nCols >= 1
    ensures |Band(nCols, vBase, n)| == 6 * n
  {
    if n > 0 {
      BandLength(nCols, vBase, n - 1);
    }
  }

  lemma {:induction false} BandsLength(nCols: nat, rows: nat)
    requires nCols >= 1 && rows >= 1
    ensures |Bands(nCols, rows)| == 6 * nCols * (rows - 1)
  {
    if rows > 1 {
      BandsLength(nCols, rows - 1);
      BandLength(nCols, RingStart(nCols, rows - 1), nCols);
      assert 6 * nCols * (rows - 1) == 6 * nCols * (rows - 2) + 6 * nCols;
    }
  }

  lemma {:induction false} BottomCapLength(nCols: nat, vBot: nat, n: nat)
    requires nCols >= 1
    ensures |BottomCap(nCols, vBot, n)| == 3 * n
  {
    if n > 0 {
      BottomCapLength(nCols, vBot, n - 1);
    }
  }

  /** The number of indices pushed is `n_inds`, a whole number of triangles. */
  lemma SphereIndexCount(nRows: nat, nCols: nat)
    requires nRows >= 2 && nCols >= 1
    ensures |SphereIndices(nRows, nCols)| == IndexCount(nRows, nCols)
    ensures |SphereIndices(nRows, nCols)| % 3 == 0
  {
    TopCapLength(nCols, nCols);
    BandsLength(nCols, nRows - 1);
    BottomCapLength(nCols, RingStart(nCols, nRows - 1), nCols);
    IndexCountSplit(nRows - 2, nCols);
  }

  /** `n_inds` is the two caps' triangles plus two triangles per quad of the
      middle bands. */
  lemma IndexCountSplit(middle: nat, nCols: nat)
    ensures IndexCount(middle + 2, nCols) == 3 * nCols + 6 * nCols * middle + 3 * nCols
    ensures IndexCount(middle + 2, nCols) == 3 * (2 * nCols * (middle + 1))
  {
    assert nCols * (middle + 1) == nCols * middle + nCols;
    assert 6 * nCols * middle == 6 * (nCols * middle);
  }

  /** Every element of `s` lies in `[lo, hi)`. */
  predicate AllIn(s: seq<int>, lo: int, hi: int)
  {
    forall k | 0 <= k < |s| :: lo <= s[k] < hi
  }

  lemma AllInConcat(s: seq<int>, t: seq<int>, lo: int, hi: int)
    requires AllIn(s, lo, hi) && AllIn(t, lo, hi)
    ensures AllIn(s + t, lo, hi)
  {
  }

  lemma {:induction false} TopCapInRange(nCols: nat, n: nat)
    requires nCols >= 1 && n <= nCols
    ensures AllIn(TopCap(nCols, n), 0, nCols + 1)
  {
    if n > 0 {
      TopCapInRange(nCols, n - 1);
      AllInConcat(TopCap(nCols, n - 1), TopTriangle(nCols, n - 1), 0, nCols + 1);
    }
  }

  /** Middle-band indices reach back one ring (`v_cur - n_cols`), never to the
      top pole, and never past the ring being built. */
  lemma {:induction false} BandInRange(nCols: nat, row: nat, n: nat)
    requires nCols >= 1 && row >= 1 && n <= nCols
    ensures AllIn(Band(nCols, RingStart(nCols, row), n), 1, RingStart(nCols, row + 1))
  {
    RingStartStep(nCols, row);
    RingStartStep(nCols, row - 1);
    if n > 0 {
      BandInRange(nCols, row, n - 1);
      AllInConcat(Band(nCols, RingStart(nCols, row), n - 1), BandQuad(nCols, RingStart(nCols, row), n - 1),
                  1, RingStart(nCols, row + 1));
    }
  }

  lemma {:induction false} BandsInRange(nCols: nat, rows: nat)
    requires nCols >= 1 && rows >= 1
    ensures AllIn(Bands(nCols, rows), 1, RingStart(nCols, rows))
  {
    if rows > 1 {
      BandsInRange(nCols, rows - 1);
      BandInRange(nCols, rows - 1, nCols);
      RingStartStep(nCols, rows - 1);
      AllInConcat(Bands(nCols, rows - 1), Band(nCols, RingStart(nCols, rows - 1), nCols),
                  1, RingStart(nCols, rows));
    }
  }

  lemma {:induction false} BottomCapInRange(nCols: nat, vBot: nat, n: nat)
    requires nCols >= 1 && vBot >= nCols && n <= nCols
    ensures AllIn(BottomCap(nCols, vBot, n), vBot - nCols, vBot + 1)
  {
    if n > 0 {
      BottomCapInRange(nCols, vBot, n - 1);
      AllInConcat(BottomCap(nCols, vBot, n - 1), BottomTriangle(nCols, vBot, n - 1),
                  vBot - nCols, vBot + 1);
    }
  }

  /** Every index pushed names a vertex that exists once the loops are done. */
  lemma SphereIndicesInRange(nRows: nat, nCols: nat)
    requires nRows >= 2 && nCols >= 1
    ensures AllIn(SphereIndices(nRows, nCols), 0, VertexCount(nRows, nCols))
  {
    var vBot := RingStart(nCols, nRows - 1);
    assert VertexCount(nRows, nCols) == vBot + 1;
    RingStartMonotone(nCols, 1, nRows - 1);
    TopCapInRange(nCols, nCols);
    BandsInRange(nCols, nRows - 1);
    BottomCapInRange(nCols, vBot, nCols);
    var n := VertexCount(nRows, nCols);
    assert AllIn(TopCap(nCols, nCols), 0, n);
    assert AllIn(Bands(nCols, nRows - 1), 0, n);
    assert AllIn(BottomCap(nCols, vBot, nCols), 0, n);
    AllInConcat(TopCap(nCols, nCols), Bands(nCols, nRows - 1), 0, n);
    AllInConcat(TopCap(nCols, nCols) + Bands(nCols, nRows - 1), BottomCap(nCols, vBot, nCols), 0, n);
  }

  // ---------------------------------------------------------------------------
  // What the triangles connect.
  // ---------------------------------------------------------------------------

  /** The vertices a list of indices names, when every index is in range. */
  function Named(verts: seq<SphereVertex>, t: seq<int>): seq<SphereVertex>
    requires AllIn(t, 0, |verts|)
  {
    seq(|t|, k requires 0 <= k < |t| => verts[t[k]])
  }

  /** Top-cap triangle `i` joins the top pole to columns `i` and `i + 1` (wrapping
      to 0 after the last column) of ring 0. */
  lemma TopTriangleVertices(nRows: nat, nCols: nat, i: nat)
    requires nRows >= 2 && nCols >= 1 && i < nCols
    ensures AllIn(TopTriangle(nCols, i), 0, |SphereVertices(nRows, nCols)|)
    ensures Named(SphereVertices(nRows, nCols), TopTriangle(nCols, i))
            == [TopPole, Ring(0, i), Ring(0, (i + 1) % nCols)]
  {
    SphereVertexLayout(nRows, nCols, 0, i);
    SphereVertexLayout(nRows, nCols, 0, (i + 1) % nCols);
  }

  /** Quad `i` of the band below ring `row - 1` joins columns `i` and `i + 1`
      (wrapping) of ring `row` to the same columns of ring `row - 1`. */
  lemma BandQuadVertices(nRows: nat, nCols: nat, row: nat, i: nat)
    requires nRows >= 2 && nCols >= 1 && 1 <= row < nRows - 1 && i < nCols
    ensures AllIn(BandQuad(nCols, RingStart(nCols, row), i), 1, |SphereVertices(nRows, nCols)|)
    ensures var j := (i + 1) % nCols;
            Named(SphereVertices(nRows, nCols), BandQuad(nCols, RingStart(nCols, row), i))
            == [Ring(row - 1, i), Ring(row, i), Ring(row, j), Ring(row - 1, i), Ring(row, j), Ring(row - 1, j)]
  {
    var j := (i + 1) % nCols;
    RingStartStep(nCols, row - 1);
    SphereVertexLayout(nRows, nCols, row, i);
    SphereVertexLayout(nRows, nCols, row, j);
    SphereVertexLayout(nRows, nCols, row - 1, i);
    SphereVertexLayout(nRows, nCols, row - 1, j);
  }

  /** Bottom-cap triangle `i` joins columns `i + 1` (wrapping) and `i` of the
      last ring to the bottom pole. */
  lemma BottomTriangleVertices(nRows: nat, nCols: nat, i: nat)
    requires nRows >= 2 && nCols >= 1 && i < nCols
    ensures var vBot := RingStart(nCols, nRows - 1);
            AllIn(BottomTriangle(nCols, vBot, i), 0, |SphereVertices(nRows, nCols)|)
            && Named(SphereVertices(nRows, nCols), BottomTriangle(nCols, vBot, i))
               == [Ring(nRows - 2, (i + 1) % nCols), Ring(nRows - 2, i), BottomPole]
  {
    RingStartStep(nCols, nRows - 2);
    SphereVertexLayout(nRows, nCols, nRows - 2, i);
    SphereVertexLayout(nRows, nCols, nRows - 2, (i + 1) % nCols);
  }

  /** Triangle `i` of a cap built from `n` triangles sits at `3 * i`. */
  lemma {:induction false} TopCapAt(nCols: nat, n: nat, i: nat)
    requires nCols >= 1 && i < n
    ensures |TopCap(nCols, n)| == 3 * n
    ensures TopCap(nCols, n)[3 * i..3 * i + 3] == TopTriangle(nCols, i)
  {
    TopCapLength(nCols, n);
    TopCapLength(nCols, n - 1);
    if i < n - 1 {
      TopCapAt(nCols, n - 1, i);
    }
  }

  lemma {:induction false} BottomCapAt(nCols: nat, vBot: nat, n: nat, i: nat)
    requires nCols >= 1 && i < n
    ensures |BottomCap(nCols, vBot, n)| == 3 * n
    ensures BottomCap(nCols, vBot, n)[3 * i..3 * i + 3] == BottomTriangle(nCols, vBot, i)
  {
    BottomCapLength(nCols, vBot, n);
    BottomCapLength(nCols, vBot, n - 1);
    if i < n - 1 {
      BottomCapAt(nCols, vBot, n - 1, i);
    }
  }

  /** Every top-cap triangle starts at the top pole, and every bottom-cap
      triangle ends at the bottom pole `v_bot`, the last vertex. */
  lemma CapsTouchPoles(nRows: nat, nCols: nat, i: nat)
    requires nRows >= 2 && nCols >= 1 && i < nCols
    ensures |SphereIndices(nRows, nCols)| == IndexCount(nRows, nCols)
    ensures SphereIndices(nRows, nCols)[3 * i] == 0
    ensures SphereIndices(nRows, nCols)[IndexCount(nRows, nCols) - 3 * nCols + 3 * i + 2]
            == VertexCount(nRows, nCols) - 1
  {
    SphereIndexCount(nRows, nCols);
    var vBot := RingStart(nCols, nRows - 1);
    var top, bands, bottom := TopCap(nCols, nCols), Bands(nCols, nRows - 1), BottomCap(nCols, vBot, nCols);
    TopCapAt(nCols, nCols, i);
    BottomCapAt(nCols, vBot, nCols, i);
    assert top[3 * i] == 0;
    assert bottom[3 * i + 2] == vBot;
    var k := IndexCount(nRows, nCols) - 3 * nCols + 3 * i + 2;
    assert k == |top| + |bands| + 3 * i + 2;
    assert SphereIndices(nRows, nCols) == top + bands + bottom;
  }

  // ---------------------------------------------------------------------------
  // The sphere the demo draws.
  // ---------------------------------------------------------------------------

  /** `VisualSphere` uses `n_rows = 32` and `n_cols = 64`: 1986 vertices and
      11904 indices, so every index fits in a `uint16_t`. */
  lemma VisualSphereCounts()
    ensures VertexCount(NRows, NCols) == 1986 && IndexCount(NRows, NCols) == 11904
    ensures VertexCount(NRows, NCols) <= 0x1_0000
  {
  }

  /** The single renderable of `VisualSphere` draws the index range
      `[0, inds.size())`: for the demo's grid, all `n_inds` indices, each of
      which names one of the sphere's vertices and fits in a `uint16_t`. */
  lemma SphereGeometryRange()
    ensures |SphereIndices(NRows, NCols)| == IndexCount(NRows, NCols) == 11904
    ensures AllIn(SphereIndices(NRows, NCols), 0, VertexCount(NRows, NCols))
    ensures VertexCount(NRows, NCols) <= 0x1_0000
  {
    SphereIndexCount(NRows, NCols);
    SphereIndicesInRange(NRows, NCols);
    VisualSphereCounts();
  }
}
