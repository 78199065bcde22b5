/**
 * The index buffer of a terrain plane of R x R vertices, in the order the
 * three generators (PlaneMeshIndicesGenerator, ChunkIndicesGenerator and
 * TerrainChunkData) produce it: cells z-outer, x-inner, and per cell the
 * two triangles top-left, bottom-left, top-right and top-right,
 * bottom-left, bottom-right.
 */
module TerrainMesh {
  import opened Common

  /**
   * The largest resolution whose corner arithmetic stays below 2^32, so
   * that the uint32_t corner computations never wrap.
   */
  const MAX_RESOLUTION: nat := 0x1_0000

  /** The six indices of cell (x, z): TL, BL, TR, TR, BL, BR. */
  function Corners(res: nat, x: nat, z: nat): (c: seq<nat>)
  {
    var topLeft := z * res + x;
    var bottomLeft := (z + 1) * res + x;
    [topLeft, bottomLeft, topLeft + 1, topLeft + 1, bottomLeft, bottomLeft + 1]
  }

  /** The first n cells of row z, in x order. */
  function RowIndices(res: nat, z: nat, n: nat): seq<nat>
  {
    if n == 0 then [] else RowIndices(res, z, n - 1) + Corners(res, n - 1, z)
  }

  /** The first m full rows of cells (res - 1 cells each), in z order. */
  function GridIndices(res: nat, m: nat): seq<nat>
    requires res >= 1
  {
    if m == 0 then [] else GridIndices(res, m - 1) + RowIndices(res, m - 1, res - 1)
  }

  /** The whole index buffer: all res - 1 rows. */
  function PlaneIndices(res: nat): seq<nat>
    requires res >= 1
  {
    GridIndices(res, res - 1)
  }

  /** (R - 1)^2 * 6, the INDICES_COUNT / INDEX_COUNT formula of the configs. */
  function IndexCount(res: nat): nat
    requires res >= 1
  {
    (res - 1) * (res - 1) * 6
  }

  /** `base` with the entries from `at` on overwritten by `s`. */
  function Splice<T>(base: seq<T>, at: nat, s: seq<T>): (r: seq<T>)
    requires at + |s| <= |base|
    ensures |r| == |base|
  {
    base[..at] + s + base[at + |s|..]
  }

  /** A splice holds `s` at `at` and the base everywhere else. */
  lemma SpliceParts<T>(base: seq<T>, at: nat, s: seq<T>)
    requires at + |s| <= |base|
    ensures Splice(base, at, s)[at..at + |s|] == s
    ensures Splice(base, at, s)[..at] == base[..at]
    ensures Splice(base, at, s)[at + |s|..] == base[at + |s|..]
  {
  }

  /** A splice that covers the whole base is what it puts there. */
  lemma SpliceWhole<T>(base: seq<T>, s: seq<T>)
    requires |s| == |base|
    ensures Splice(base, 0, s) == s
  {
    assert base[..0] + s + base[|s|..] == s;
  }

  lemma SpliceExtend<T>(base: seq<T>, at: nat, s: seq<T>, t: seq<T>)
    requires at + |s| + |t| <= |base|
    ensures Splice(Splice(base, at, s), at + |s|, t) == Splice(base, at, s + t)
  {
    var left := Splice(Splice(base, at, s), at + |s|, t);
    var right := Splice(base, at, s + t);
    assert |left| == |right|;
    forall k | 0 <= k < |left|
      ensures left[k] == right[k]
    {
      if k < at {
      } else if k < at + |s| {
      } else if k < at + |s| + |t| {
      } else {
      }
    }
  }

  /** Storing one more entry right after a splice extends the splice by it. */
  lemma SpliceStore<T>(base: seq<T>, at: nat, s: seq<T>, v: T)
    requires at + |s| + 1 <= |base|
    ensures Splice(base, at, s)[at + |s| := v] == Splice(base, at, s + [v])
  {
    var left := Splice(base, at, s)[at + |s| := v];
    var right := Splice(base, at, s + [v]);
    forall k | 0 <= k < |left|
      ensures left[k] == right[k]
    {
      if k < at {
      } else if k < at + |s| {
      } else if k == at + |s| {
      } else {
      }
    }
  }

  lemma {:induction false} RowLength(res: nat, z: nat, n: nat)
    ensures |RowIndices(res, z, n)| == 6 * n
  {
    if n > 0 {
      RowLength(res, z, n - 1);
    }
  }

  lemma {:induction false} GridLength(res: nat, m: nat)
    requires res >= 1
    ensures |GridIndices(res, m)| == 6 * (m * (res - 1))
  {
    if m > 0 {
      GridLength(res, m - 1);
      RowLength(res, m - 1, res - 1);
      MulSucc(m, res - 1);
    }
  }

  /** One more row of cells still fits the buffer, and extends the rows before it. */
  lemma NextRowFits(res: nat, z: nat)
    requires res >= 1 && z < res - 1
    ensures |RowIndices(res, z, res - 1)| == 6 * (res - 1)
    ensures |GridIndices(res, z)| + |RowIndices(res, z, res - 1)| <= IndexCount(res)
    ensures GridIndices(res, z + 1) == GridIndices(res, z) + RowIndices(res, z, res - 1)
  {
    var w := res - 1;
    GridLength(res, z);
    RowLength(res, z, w);
    RowsBefore(z, w, w);
    assert IndexCount(res) == 6 * (w * w);
  }

  /** The generators emit exactly (R - 1)^2 * 6 indices. */
  lemma PlaneIndicesLength(res: nat)
    requires res >= 1
    ensures |PlaneIndices(res)| == IndexCount(res)
  {
    GridLength(res, res - 1);
  }

  /** z < m rows of w cells end no later than m rows do. */
  lemma RowsBefore(z: nat, m: nat, w: nat)
    requires z < m
    ensures z * w + w <= m * w
  {
    var extra := m - z - 1;
    assert m * w == z * w + w + extra * w;
  }

  /** The first n cells of a row start its first m cells. */
  lemma {:induction false} RowPrefix(res: nat, z: nat, n: nat, m: nat)
    requires n <= m
    ensures RowIndices(res, z, n) <= RowIndices(res, z, m)
    decreases m
  {
    if n < m {
      RowPrefix(res, z, n, m - 1);
      assert RowIndices(res, z, m) == RowIndices(res, z, m - 1) + Corners(res, m - 1, z);
    }
  }

  /** The first n rows of cells start the first m rows. */
  lemma {:induction false} GridPrefix(res: nat, n: nat, m: nat)
    requires res >= 1 && n <= m
    ensures GridIndices(res, n) <= GridIndices(res, m)
    decreases m
  {
    if n < m {
      GridPrefix(res, n, m - 1);
      assert GridIndices(res, m) == GridIndices(res, m - 1) + RowIndices(res, m - 1, res - 1);
    }
  }

  /** A slice within a prefix is the same slice of the longer sequence. */
  lemma PrefixSlice<T>(a: seq<T>, b: seq<T>, i: nat, j: nat)
    requires a <= b && i <= j <= |a|
    ensures b[i..j] == a[i..j]
  {
    assert forall k :: 0 <= k < j - i ==> b[i..j][k] == a[k + i];
  }

  /** The part of a concatenation past its left side is a slice of the right side. */
  lemma ConcatSlice<T>(a: seq<T>, b: seq<T>, i: nat, j: nat)
    requires i <= j <= |b|
    ensures (a + b)[|a| + i .. |a| + j] == b[i..j]
  {
    var c := (a + b)[|a| + i .. |a| + j];
    assert forall k :: 0 <= k < j - i ==> c[k] == b[i + k];
  }

  /** Cell x of a row of n > x cells sits at entries [6x, 6x + 6) of the row. */
  lemma RowCell(res: nat, z: nat, n: nat, x: nat)
    requires x < n
    ensures 6 * x + 6 <= |RowIndices(res, z, n)|
    ensures RowIndices(res, z, n)[6 * x .. 6 * x + 6] == Corners(res, x, z)
  {
    RowPrefix(res, z, x + 1, n);
    RowLength(res, z, x);
    var upTo := RowIndices(res, z, x + 1);
    ConcatSlice(RowIndices(res, z, x), Corners(res, x, z), 0, 6);
    assert upTo[6 * x .. 6 * x + 6] == Corners(res, x, z);
    PrefixSlice(upTo, RowIndices(res, z, n), 6 * x, 6 * x + 6);
  }

  /**
   * Cells are laid out z-outer, x-inner: the six indices of cell (x, z)
   * occupy entries [6(z(R - 1) + x), +6), in the order TL, BL, TR, TR, BL, BR.
   */
  lemma CellLayout(res: nat, x: nat, z: nat)
    requires res >= 1 && x < res - 1 && z < res - 1
    ensures 6 * (z * (res - 1) + x) + 6 <= |PlaneIndices(res)|
    ensures PlaneIndices(res)[6 * (z * (res - 1) + x) .. 6 * (z * (res - 1) + x) + 6] == Corners(res, x, z)
  {
    var before := GridIndices(res, z);
    var row := RowIndices(res, z, res - 1);
    var at := |before| + 6 * x;
    RowCell(res, z, res - 1, x);
    ConcatSlice(before, row, 6 * x, 6 * x + 6);
    var upTo := GridIndices(res, z + 1);
    assert upTo == before + row;
    assert upTo[at .. at + 6] == Corners(res, x, z);
    GridPrefix(res, z + 1, res - 1);
    PrefixSlice(upTo, PlaneIndices(res), at, at + 6);
    CellOffset(res, x, z);
  }

  /** The rows before row z hold 6 z (R - 1) indices. */
  lemma CellOffset(res: nat, x: nat, z: nat)
    requires res >= 1
    ensures 6 * (z * (res - 1) + x) == |GridIndices(res, z)| + 6 * x
  {
    GridLength(res, z);
  }

  predicate AllBelow(s: seq<nat>, bound: nat)
  {
    forall k :: 0 <= k < |s| ==> s[k] < bound
  }

  /** Every corner of a cell of the plane is a vertex of the plane. */
  lemma CornersBelow(res: nat, x: nat, z: nat)
    requires res >= 1 && x < res - 1 && z < res - 1
    ensures AllBelow(Corners(res, x, z), res * res)
  {
    MulLe(z + 1, res - 1, res);
    MulSucc(res, res);
    MulSucc(z + 1, res);
  }

  lemma AllBelowAppend(a: seq<nat>, b: seq<nat>, bound: nat)
    requires AllBelow(a, bound) && AllBelow(b, bound)
    ensures AllBelow(a + b, bound)
  {
    forall k | 0 <= k < |a + b|
      ensures (a + b)[k] < bound
    {
      if k >= |a| {
        assert (a + b)[k] == b[k - |a|];
      }
    }
  }

  lemma {:induction false} RowBelow(res: nat, z: nat, n: nat)
    requires res >= 1 && z < res - 1 && n <= res - 1
    ensures AllBelow(RowIndices(res, z, n), res * res)
  {
    if n > 0 {
      RowBelow(res, z, n - 1);
      CornersBelow(res, n - 1, z);
      AllBelowAppend(RowIndices(res, z, n - 1), Corners(res, n - 1, z), res * res);
    }
  }

  lemma {:induction false} GridBelow(res: nat, m: nat)
    requires res >= 1 && m <= res - 1
    ensures AllBelow(GridIndices(res, m), res * res)
  {
    if m > 0 {
      GridBelow(res, m - 1);
      RowBelow(res, m - 1, res - 1);
      AllBelowAppend(GridIndices(res, m - 1), RowIndices(res, m - 1, res - 1), res * res);
    }
  }

  /**
   * Every emitted index names one of the R^2 vertices; up to
   * MAX_RESOLUTION that also keeps every index, and every corner
   * computation, below 2^32.
   */
  lemma IndicesInRange(res: nat)
    requires res >= 1
    ensures forall k :: 0 <= k < |PlaneIndices(res)| ==> PlaneIndices(res)[k] < res * res
    ensures res <= MAX_RESOLUTION ==> res * res <= U32_MODULUS
  {
    GridBelow(res, res - 1);
    if res <= MAX_RESOLUTION {
      SquareFits(res);
    }
  }

  lemma SquareFits(res: nat)
    requires res <= MAX_RESOLUTION
    ensures res * res <= U32_MODULUS
  {
    MulLe(res, MAX_RESOLUTION, res);
    MulLe(res, MAX_RESOLUTION, MAX_RESOLUTION);
    assert MAX_RESOLUTION * MAX_RESOLUTION == U32_MODULUS;
  }

  /** One more group of p after m groups of p makes m + 1 groups. */
  lemma MulSucc(m: nat, p: nat)
    requires m > 0
    ensures (m - 1) * p + p == m * p
  {
  }

  lemma MulNonNegative(a: nat, b: nat)
    ensures 0 <= a * b
  {
  }

  lemma MulLe(a: nat, b: nat, c: nat)
    requires a <= b
    ensures a * c <= b * c
  {
    var gap := b - a;
    assert b * c == a * c + gap * c;
  }

  /** One cell's corners fit a uint32_t while the resolution is at most MAX_RESOLUTION. */
  lemma CornersFit(res: nat, x: nat, z: nat)
    requires 1 <= res <= MAX_RESOLUTION && x < res - 1 && z < res - 1
    ensures AllBelow(Corners(res, x, z), U32_MODULUS)
  {
    CornersBelow(res, x, z);
    SquareFits(res);
  }
}
