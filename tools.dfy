/** The patch-hierarchy geometry of masclet_framework/tools.py: the level of every
    patch, the grid and comoving position of a patch's left corner, and the eight
    vertices of a patch's bounding box.

    Index convention: `npatch[l]` counts the patches of level `l`; patch 0 is the
    base grid and the patches of level `l >= 1` follow level by level, so those of
    level `l` have the global indices `1 + sum(npatch[1:l]) .. sum(npatch[1:l+1])`. */
module Tools {
  import opened Wrappers

  datatype Vec3 = Vec3(x: real, y: real, z: real)

  function Pow2(n: nat): (r: nat)
    ensures r >= 1
  {
    if n == 0 then 1 else 2 * Pow2(n - 1)
  }

  /** Python's `sum(npatch[lo:hi])`; a slice end past the list is clipped to its length. */
  function SumTo(npatch: seq<nat>, lo: nat, hi: nat): (s: nat)
    decreases hi
  {
    if hi <= lo then 0
    else if hi > |npatch| then SumTo(npatch, lo, |npatch|)
    else SumTo(npatch, lo, hi - 1) + npatch[hi - 1]
  }

  lemma {:induction false} SumToMono(npatch: seq<nat>, lo: nat, h1: nat, h2: nat)
    requires h1 <= h2 <= |npatch|
    ensures SumTo(npatch, lo, h1) <= SumTo(npatch, lo, h2)
    decreases h2
  {
    if h1 < h2 {
      SumToMono(npatch, lo, h1, h2 - 1);
    }
  }

  /** Python's `[v] * n`. */
  function Repeat(v: nat, n: nat): (r: seq<nat>)
    ensures |r| == n && forall q :: 0 <= q < n ==> r[q] == v
  {
    seq(n, _ => v)
  }

  /** The flattened blocks `[1] * npatch[1] + [2] * npatch[2] + ... + [n-1] * npatch[n-1]`. */
  function LevelBlocks(npatch: seq<nat>, n: nat): (r: seq<nat>)
    requires n <= |npatch|
    ensures |r| == SumTo(npatch, 1, n)
    ensures forall q :: 0 <= q < |r| ==> 1 <= r[q] < n
  {
    if n <= 1 then [] else LevelBlocks(npatch, n - 1) + Repeat(n - 1, npatch[n - 1])
  }

  /** `create_vector_levels`: the level of every global patch index.  One entry 0 for
      the base grid, then `npatch[l]` entries `l` for each level `l >= 1`. */
  function CreateVectorLevels(npatch: seq<nat>): (levels: seq<nat>)
    ensures |levels| == 1 + SumTo(npatch, 1, |npatch|)
    ensures levels[0] == 0
    ensures forall q :: 1 <= q < |levels| ==> 1 <= levels[q] < |npatch|
  {
    [0] + LevelBlocks(npatch, |npatch|)
  }

  lemma {:induction false} LevelBlocksSorted(npatch: seq<nat>, n: nat)
    requires n <= |npatch|
    ensures forall q, q' :: 0 <= q <= q' < |LevelBlocks(npatch, n)| ==>
      LevelBlocks(npatch, n)[q] <= LevelBlocks(npatch, n)[q']
  {
    if n > 1 {
      LevelBlocksSorted(npatch, n - 1);
    }
  }

  /** The levels never decrease along the global patch index. */
  lemma LevelsSorted(npatch: seq<nat>)
    ensures forall q, q' :: 0 <= q <= q' < |CreateVectorLevels(npatch)| ==>
      CreateVectorLevels(npatch)[q] <= CreateVectorLevels(npatch)[q']
  {
    LevelBlocksSorted(npatch, |npatch|);
  }

  lemma {:induction false} LevelBlocksAt(npatch: seq<nat>, n: nat, l: nat, q: nat)
    requires 1 <= l < n <= |npatch|
    requires q < |LevelBlocks(npatch, n)|
    ensures LevelBlocks(npatch, n)[q] == l <==> SumTo(npatch, 1, l) <= q < SumTo(npatch, 1, l + 1)
  {
    var prev := LevelBlocks(npatch, n - 1);
    assert LevelBlocks(npatch, n) == prev + Repeat(n - 1, npatch[n - 1]);
    if q < |prev| {
      if l < n - 1 {
        LevelBlocksAt(npatch, n - 1, l, q);
      }
    } else if l < n - 1 {
      SumToMono(npatch, 1, l + 1, n - 1);
    }
  }

  /** Block structure: the patch `q` has level `l >= 1` exactly when it lies in the
      `l`-th block, `1 + sum(npatch[1:l]) <= q < 1 + sum(npatch[1:l+1])`. */
  lemma LevelsBlock(npatch: seq<nat>, l: nat, q: nat)
    requires 1 <= l < |npatch|
    requires q < |CreateVectorLevels(npatch)|
    ensures CreateVectorLevels(npatch)[q] == l <==>
      1 + SumTo(npatch, 1, l) <= q < 1 + SumTo(npatch, 1, l + 1)
  {
    if q > 0 {
      LevelBlocksAt(npatch, |npatch|, l, q - 1);
    }
  }

  lemma {:induction false} LevelBlocksIgnoreFirst(npatch: seq<nat>, v: nat, n: nat)
    requires 1 <= |npatch| && n <= |npatch|
    ensures LevelBlocks(npatch[0 := v], n) == LevelBlocks(npatch, n)
  {
    if n > 1 {
      LevelBlocksIgnoreFirst(npatch, v, n - 1);
    }
  }

  /** `npatch[0]` never affects the level table: the base grid is always one entry. */
  lemma LevelsIgnoreFirst(npatch: seq<nat>, v: nat)
    requires 1 <= |npatch|
    ensures CreateVectorLevels(npatch[0 := v]) == CreateVectorLevels(npatch)
  {
    LevelBlocksIgnoreFirst(npatch, v, |npatch|);
  }

  /** numpy's `levels.max()`. */
  function SeqMax(s: seq<nat>): (m: nat)
    requires |s| > 0
    ensures exists q :: 0 <= q < |s| && s[q] == m
    ensures forall q :: 0 <= q < |s| ==> s[q] <= m
  {
    if |s| == 1 then s[0]
    else
      var m' := SeqMax(s[..|s| - 1]);
      if s[|s| - 1] > m' then s[|s| - 1] else m'
  }

  /** The finest level that holds a patch (0 when there are no refinement patches). */
  function MaxLevel(npatch: seq<nat>): (m: nat)
    ensures m == 0 || m < |npatch|
    ensures exists q :: 0 <= q < |CreateVectorLevels(npatch)| && CreateVectorLevels(npatch)[q] == m
    ensures forall q :: 0 <= q < |CreateVectorLevels(npatch)| ==> CreateVectorLevels(npatch)[q] <= m
  {
    SeqMax(CreateVectorLevels(npatch))
  }

  // ---------------------------------------------------------------------------
  // Grid and comoving position of a patch's left corner

  datatype PositionError =
    | LevelIndexError      // `create_vector_levels(npatch)[ipatch]` is out of range (IndexError)
    | InvalidPatchNumber   // `ipatch >= patchx.size` (the ValueError of the source)
    | RecursionLimit       // the base grid: the source recurses through `pare` without end, or raises
                           // `ValueError` on the integer power `2 ** -1`

  /** The hierarchy invariant the recursion relies on: the parent of every patch of
      level `l >= 2` is a patch of level `l - 1`. */
  predicate ParentChain(npatch: seq<nat>, patchx: seq<int>, pare: seq<nat>)
  {
    |pare| >= |patchx| &&
    forall p :: 0 <= p < |patchx| && p < |CreateVectorLevels(npatch)| && CreateVectorLevels(npatch)[p] >= 2 ==>
      pare[p] < |patchx| && pare[p] < |CreateVectorLevels(npatch)| &&
      CreateVectorLevels(npatch)[pare[p]] == CreateVectorLevels(npatch)[p] - 1
  }

  /** `find_absolute_grid_position`: the left corner of patch `ipatch` in base-grid cell
      units.  A level-1 patch's offsets already are base-grid units; a finer patch adds
      its offset, in its parent's cells (`1 / 2^(level-1)` base cells each), to its
      parent's corner. */
  function FindAbsoluteGridPosition(ipatch: nat, npatch: seq<nat>, patchx: seq<int>, patchy: seq<int>,
                                    patchz: seq<int>, pare: seq<nat>): (r: Result<Vec3, PositionError>)
    requires |patchy| >= |patchx| && |patchz| >= |patchx|
    requires ParentChain(npatch, patchx, pare)
    ensures r.Success? <==>
      ipatch < |CreateVectorLevels(npatch)| && ipatch < |patchx| && CreateVectorLevels(npatch)[ipatch] >= 1
    ensures ipatch >= |CreateVectorLevels(npatch)| ==> r == Failure(LevelIndexError)
    ensures ipatch < |CreateVectorLevels(npatch)| && ipatch >= |patchx| ==> r == Failure(InvalidPatchNumber)
    ensures r.Success? && CreateVectorLevels(npatch)[ipatch] == 1 ==>
      r.value == Vec3(patchx[ipatch] as real, patchy[ipatch] as real, patchz[ipatch] as real)
    decreases if ipatch < |CreateVectorLevels(npatch)| then CreateVectorLevels(npatch)[ipatch] else 0
  {
    var levels := CreateVectorLevels(npatch);
    if ipatch >= |levels| then Failure(LevelIndexError)
    else
      var level := levels[ipatch];
      if ipatch < |patchx| then
        if level == 1 then
          Success(Vec3(patchx[ipatch] as real, patchy[ipatch] as real, patchz[ipatch] as real))
        else if level == 0 then
          Failure(RecursionLimit)
        else
          var parent := FindAbsoluteGridPosition(pare[ipatch], npatch, patchx, patchy, patchz, pare).value;
          var scale := Pow2(level - 1) as real;
          Success(Vec3((patchx[ipatch] - 1) as real / scale + parent.x,
                       (patchy[ipatch] - 1) as real / scale + parent.y,
                       (patchz[ipatch] - 1) as real / scale + parent.z))
      else
        Failure(InvalidPatchNumber)
  }

  /** The recursive step: a patch of level `l >= 2` sits `(patchx - 1) / 2^(l-1)` base cells
      from its parent's corner, on every axis. */
  lemma GridPositionFromParent(ipatch: nat, npatch: seq<nat>, patchx: seq<int>, patchy: seq<int>,
                               patchz: seq<int>, pare: seq<nat>)
    requires |patchy| >= |patchx| && |patchz| >= |patchx|
    requires ParentChain(npatch, patchx, pare)
    requires ipatch < |patchx| && ipatch < |CreateVectorLevels(npatch)| && CreateVectorLevels(npatch)[ipatch] >= 2
    ensures var level := CreateVectorLevels(npatch)[ipatch];
            var scale := Pow2(level - 1) as real;
            var own := FindAbsoluteGridPosition(ipatch, npatch, patchx, patchy, patchz, pare);
            var parent := FindAbsoluteGridPosition(pare[ipatch], npatch, patchx, patchy, patchz, pare);
            own.Success? && parent.Success? &&
            own.value.x == (patchx[ipatch] - 1) as real / scale + parent.value.x &&
            own.value.y == (patchy[ipatch] - 1) as real / scale + parent.value.y &&
            own.value.z == (patchz[ipatch] - 1) as real / scale + parent.value.z
  {
  }

  /** `patchx` with every level-1 offset moved by `c` cells. */
  function ShiftLevelOne(npatch: seq<nat>, patchx: seq<int>, c: int): (r: seq<int>)
    ensures |r| == |patchx|
  {
    seq(|patchx|, q requires 0 <= q < |patchx| =>
      if q < |CreateVectorLevels(npatch)| && CreateVectorLevels(npatch)[q] == 1 then patchx[q] + c else patchx[q])
  }

  /** Positions are relative to the level-1 ancestors: moving every level-1 patch by
      `c` base cells along x moves every patch of the hierarchy by exactly `c`. */
  lemma GridPositionShift(ipatch: nat, npatch: seq<nat>, patchx: seq<int>, patchy: seq<int>,
                          patchz: seq<int>, pare: seq<nat>, c: int)
    requires |patchy| >= |patchx| && |patchz| >= |patchx|
    requires ParentChain(npatch, patchx, pare)
    ensures ParentChain(npatch, ShiftLevelOne(npatch, patchx, c), pare)
    ensures var r := FindAbsoluteGridPosition(ipatch, npatch, patchx, patchy, patchz, pare);
            var r' := FindAbsoluteGridPosition(ipatch, npatch, ShiftLevelOne(npatch, patchx, c), patchy, patchz, pare);
            r'.Success? == r.Success? &&
            (r.Success? ==> r'.value == Vec3(r.value.x + c as real, r.value.y, r.value.z))
    decreases if ipatch < |CreateVectorLevels(npatch)| then CreateVectorLevels(npatch)[ipatch] else 0
  {
    var levels := CreateVectorLevels(npatch);
    var shifted := ShiftLevelOne(npatch, patchx, c);
    ShiftKeepsParentChain(npatch, patchx, pare, c);
    if ipatch < |levels| && ipatch < |patchx| {
      if levels[ipatch] == 1 {
        assert shifted[ipatch] == patchx[ipatch] + c;
      } else if levels[ipatch] >= 2 {
        GridPositionShift(pare[ipatch], npatch, patchx, patchy, patchz, pare, c);
        assert shifted[ipatch] == patchx[ipatch];
        GridPositionShiftStep(ipatch, npatch, patchx, shifted, patchy, patchz, pare, c);
      }
    }
  }

  /** The step of `GridPositionShift` for a patch of level `>= 2`: its offset is the
      same in both hierarchies, so it moves with its parent. */
  lemma GridPositionShiftStep(ipatch: nat, npatch: seq<nat>, patchx: seq<int>, patchx': seq<int>, patchy: seq<int>,
                              patchz: seq<int>, pare: seq<nat>, c: int)
    requires |patchy| >= |patchx| && |patchz| >= |patchx| && |patchx'| == |patchx|
    requires ParentChain(npatch, patchx, pare) && ParentChain(npatch, patchx', pare)
    requires ipatch < |patchx| && ipatch < |CreateVectorLevels(npatch)| && CreateVectorLevels(npatch)[ipatch] >= 2
    requires patchx'[ipatch] == patchx[ipatch]
    requires var r := FindAbsoluteGridPosition(pare[ipatch], npatch, patchx, patchy, patchz, pare);
             var r' := FindAbsoluteGridPosition(pare[ipatch], npatch, patchx', patchy, patchz, pare);
             r.Success? ==> r'.value == Vec3(r.value.x + c as real, r.value.y, r.value.z)
    ensures var r := FindAbsoluteGridPosition(ipatch, npatch, patchx, patchy, patchz, pare);
            var r' := FindAbsoluteGridPosition(ipatch, npatch, patchx', patchy, patchz, pare);
            r'.Success? && r.Success? && r'.value == Vec3(r.value.x + c as real, r.value.y, r.value.z)
  {
    GridPositionFromParent(ipatch, npatch, patchx, patchy, patchz, pare);
    GridPositionFromParent(ipatch, npatch, patchx', patchy, patchz, pare);
    var scale := Pow2(CreateVectorLevels(npatch)[ipatch] - 1) as real;
    var own := FindAbsoluteGridPosition(ipatch, npatch, patchx, patchy, patchz, pare);
    var own' := FindAbsoluteGridPosition(ipatch, npatch, patchx', patchy, patchz, pare);
    var pr := FindAbsoluteGridPosition(pare[ipatch], npatch, patchx, patchy, patchz, pare).value;
    var pr' := FindAbsoluteGridPosition(pare[ipatch], npatch, patchx', patchy, patchz, pare).value;
    var dx := (patchx[ipatch] - 1) as real / scale;
    assert (patchx'[ipatch] - 1) as real / scale == dx;
    assert own.value.x == dx + pr.x && own'.value.x == dx + pr'.x;
    assert pr' == Vec3(pr.x + c as real, pr.y, pr.z);
    assert own'.value == Vec3(own.value.x + c as real, own.value.y, own.value.z);
  }

  lemma ShiftKeepsParentChain(npatch: seq<nat>, patchx: seq<int>, pare: seq<nat>, c: int)
    requires ParentChain(npatch, patchx, pare)
    ensures ParentChain(npatch, ShiftLevelOne(npatch, patchx, c), pare)
  {
  }

  /** The comoving coordinate of a grid coordinate `g`: base-grid cells are numbered
      from 1 and the box, of side `side`, is centred on the origin. */
  function GridToReal(g: real, side: real, nmax: nat): (x: real)
    requires nmax > 0
  {
    (g - nmax as real / 2.0 - 1.0) * side / nmax as real
  }

  /** The inverse map, from a comoving coordinate back to grid units. */
  function RealToGrid(x: real, side: real, nmax: nat): (g: real)
    requires nmax > 0 && side != 0.0
  {
    x * nmax as real / side + nmax as real / 2.0 + 1.0
  }

  /** The box is centred on the origin: grid coordinate 1 (the first base cell's left
      face) is at `-side/2` and grid coordinate `nmax + 1` (the last cell's right face) at `side/2`. */
  lemma GridToRealBoxEdges(side: real, nmax: nat)
    requires nmax > 0
    ensures GridToReal(1.0, side, nmax) == -side / 2.0
    ensures GridToReal(nmax as real + 1.0, side, nmax) == side / 2.0
  {
  }

  /** No information is lost: the grid coordinate is recovered from the comoving one. */
  lemma GridToRealRoundTrip(g: real, side: real, nmax: nat)
    requires nmax > 0 && side != 0.0
    ensures RealToGrid(GridToReal(g, side, nmax), side, nmax) == g
  {
    var n := nmax as real;
    var d := g - n / 2.0 - 1.0;
    assert GridToReal(g, side, nmax) * n / side == d;
  }

  /** `find_absolute_real_position`: the comoving coordinates of a patch's left corner,
      or the error of the grid position. */
  function FindAbsoluteRealPosition(ipatch: nat, side: real, nmax: nat, npatch: seq<nat>, patchx: seq<int>,
                                    patchy: seq<int>, patchz: seq<int>, pare: seq<nat>): (r: Result<Vec3, PositionError>)
    requires nmax > 0
    requires |patchy| >= |patchx| && |patchz| >= |patchx|
    requires ParentChain(npatch, patchx, pare)
    ensures var g := FindAbsoluteGridPosition(ipatch, npatch, patchx, patchy, patchz, pare);
            (r.Success? <==> g.Success?) &&
            (g.Failure? ==> r.error == g.error) &&
            (g.Success? ==> r.value == Vec3(GridToReal(g.value.x, side, nmax),
                                            GridToReal(g.value.y, side, nmax),
                                            GridToReal(g.value.z, side, nmax)))
  {
    match FindAbsoluteGridPosition(ipatch, npatch, patchx, patchy, patchz, pare)
    case Failure(e) => Failure(e)
    case Success(g) =>
      Success(Vec3(GridToReal(g.x, side, nmax), GridToReal(g.y, side, nmax), GridToReal(g.z, side, nmax)))
  }

  /** A level-1 patch's corner, offset `patchx` base cells, is at `(patchx - nmax/2 - 1) * side / nmax`. */
  lemma RealPositionLevelOne(ipatch: nat, side: real, nmax: nat, npatch: seq<nat>, patchx: seq<int>,
                             patchy: seq<int>, patchz: seq<int>, pare: seq<nat>)
    requires nmax > 0
    requires |patchy| >= |patchx| && |patchz| >= |patchx|
    requires ParentChain(npatch, patchx, pare)
    requires ipatch < |patchx| && ipatch < |CreateVectorLevels(npatch)| && CreateVectorLevels(npatch)[ipatch] == 1
    ensures FindAbsoluteRealPosition(ipatch, side, nmax, npatch, patchx, patchy, patchz, pare).Success?
    ensures FindAbsoluteRealPosition(ipatch, side, nmax, npatch, patchx, patchy, patchz, pare).value.x
      == (patchx[ipatch] as real - nmax as real / 2.0 - 1.0) * side / nmax as real
  {
  }

  // ---------------------------------------------------------------------------
  // Bounding box of a patch

  /** The side of a cell of level `level`: `size / nmax / 2^level`. */
  function CellSize(level: nat, size: real, nmax: nat): (cs: real)
    requires nmax > 0
  {
    size / nmax as real / Pow2(level) as real
  }

  /** The corner `left + (i, j, k) * extent` of a box, for `i, j, k` in `{0, 1}`. */
  function Corner(left: Vec3, extent: Vec3, i: nat, j: nat, k: nat): (v: Vec3)
  {
    Vec3(left.x + i as real * extent.x, left.y + j as real * extent.y, left.z + k as real * extent.z)
  }

  /** The eight vertices of the box with left corner `left` and sides `extent`, in the
      order of the source's loops: vertex `4i + 2j + k` is `Corner(i, j, k)`. */
  function BoxVertices(left: Vec3, extent: Vec3): (v: seq<Vec3>)
    ensures |v| == 8
  {
    [Corner(left, extent, 0, 0, 0), Corner(left, extent, 0, 0, 1),
     Corner(left, extent, 0, 1, 0), Corner(left, extent, 0, 1, 1),
     Corner(left, extent, 1, 0, 0), Corner(left, extent, 1, 0, 1),
     Corner(left, extent, 1, 1, 0), Corner(left, extent, 1, 1, 1)]
  }

  lemma BoxVertexAt(left: Vec3, extent: Vec3, i: nat, j: nat, k: nat)
    requires i < 2 && j < 2 && k < 2
    ensures BoxVertices(left, extent)[4 * i + 2 * j + k] == Corner(left, extent, i, j, k)
  {
  }

  /** The first vertex is the left corner, the last the opposite corner, and with
      non-zero sides the eight vertices are pairwise distinct. */
  lemma BoxVerticesCorners(left: Vec3, extent: Vec3)
    ensures BoxVertices(left, extent)[0] == left
    ensures BoxVertices(left, extent)[7] == Vec3(left.x + extent.x, left.y + extent.y, left.z + extent.z)
    ensures extent.x != 0.0 && extent.y != 0.0 && extent.z != 0.0 ==>
      forall a, b :: 0 <= a < b < 8 ==> BoxVertices(left, extent)[a] != BoxVertices(left, extent)[b]
  {
  }

  /** The box of a patch of `nx × ny × nz` cells of level `level` whose first cell is
      centred on `(rx, ry, rz)`: the left corner is half a cell below that centre. */
  function PatchBox(level: nat, nx: nat, ny: nat, nz: nat, rx: real, ry: real, rz: real,
                    size: real, nmax: nat): (v: seq<Vec3>)
    requires nmax > 0
    ensures |v| == 8
  {
    var cs := CellSize(level, size, nmax);
    BoxVertices(Vec3(rx - cs / 2.0, ry - cs / 2.0, rz - cs / 2.0),
                Vec3(nx as real * cs, ny as real * cs, nz as real * cs))
  }

  lemma PatchBoxSides(level: nat, nx: nat, ny: nat, nz: nat, rx: real, ry: real, rz: real,
                      size: real, nmax: nat, left: Vec3, extent: Vec3)
    requires nmax > 0
    requires var cs := CellSize(level, size, nmax);
      left == Vec3(rx - cs / 2.0, ry - cs / 2.0, rz - cs / 2.0) &&
      extent == Vec3(nx as real * cs, ny as real * cs, nz as real * cs)
    ensures PatchBox(level, nx, ny, nz, rx, ry, rz, size, nmax) == BoxVertices(left, extent)
  {
  }

  lemma MulAssoc(a: real, b: real, c: real)
    ensures a * b * c == a * (b * c)
  {
  }

  /** The vertex the source's loop body computes is the box vertex at `4i + 2j + k`. */
  lemma LoopVertex(left: Vec3, nx: nat, ny: nat, nz: nat, cs: real, i: nat, j: nat, k: nat)
    requires i < 2 && j < 2 && k < 2
    ensures Vec3(left.x + i as real * nx as real * cs, left.y + j as real * ny as real * cs,
                 left.z + k as real * nz as real * cs)
         == BoxVertices(left, Vec3(nx as real * cs, ny as real * cs, nz as real * cs))[4 * i + 2 * j + k]
  {
    BoxVertexAt(left, Vec3(nx as real * cs, ny as real * cs, nz as real * cs), i, j, k);
    MulAssoc(i as real, nx as real, cs);
    MulAssoc(j as real, ny as real, cs);
    MulAssoc(k as real, nz as real, cs);
  }

  /** `patch_vertices` (geometric form): appends the eight vertices in `i, j, k` loop order. */
  method PatchVertices(level: nat, nx: nat, ny: nat, nz: nat, rx: real, ry: real, rz: real,
                       size: real, nmax: nat) returns (vertices: seq<Vec3>)
    requires nmax > 0
    ensures vertices == PatchBox(level, nx, ny, nz, rx, ry, rz, size, nmax)
  {
    var cellsize := CellSize(level, size, nmax);
    var leftmost := Vec3(rx - cellsize / 2.0, ry - cellsize / 2.0, rz - cellsize / 2.0);
    var extent := Vec3(nx as real * cellsize, ny as real * cellsize, nz as real * cellsize);
    ghost var box := BoxVertices(leftmost, extent);
    PatchBoxSides(level, nx, ny, nz, rx, ry, rz, size, nmax, leftmost, extent);
    vertices := [];
    for i := 0 to 2
      invariant vertices == box[..4 * i]
    {
      for j := 0 to 2
        invariant vertices == box[..4 * i + 2 * j]
      {
        for k := 0 to 2
          invariant vertices == box[..4 * i + 2 * j + k]
        {
          var x := leftmost.x + i as real * nx as real * cellsize;
          var y := leftmost.y + j as real * ny as real * cellsize;
          var z := leftmost.z + k as real * nz as real * cellsize;
          LoopVertex(leftmost, nx, ny, nz, cellsize, i, j, k);
          assert box[..4 * i + 2 * j + k + 1] == box[..4 * i + 2 * j + k] + [box[4 * i + 2 * j + k]];
          vertices := vertices + [Vec3(x, y, z)];
        }
      }
    }
    assert box[..8] == box;
  }
}
