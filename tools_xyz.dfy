/** The field-based tools of masclet_framework/tools_xyz.py: per-cell position
    fields, a patch's vertices read back from them, spherical masks, cleaning a field
    of refined and overlapping cells, the mass inside a sphere, the volume-weighted
    radial profile and the equation whose root is `r_Delta`.

    A field is a list of patches (`seq<Cube<real>>`), patch 0 being the base grid,
    indexed as in module Tools.  A 0/1 array (the masks and the `cr0amr` and
    `solapst` fields) is a `Cube<bool>`; multiplying a field by it is `Mask`. */
module ToolsXyz {
  import opened Wrappers
  import opened Cubes
  import opened Tools

  // ---------------------------------------------------------------------------
  // Position fields

  /** The position of cell `(i, j, k)` along `axis` (0 = x, 1 = y, 2 = z) in a patch
      whose first cell is at `first` and whose cells are `cs` apart. */
  function Coord(first: real, cs: real, axis: nat, i: int, j: int, k: int): (x: real)
  {
    first + (if axis == 0 then i else if axis == 1 then j else k) as real * cs
  }

  /** The `nx × ny × nz` array of `Coord` along one axis. */
  function AxisCube(nx: nat, ny: nat, nz: nat, first: real, cs: real, axis: nat): (c: Cube<real>)
    ensures HasShape(c, nx, ny, nz)
    ensures forall i, j, k :: 0 <= i < nx && 0 <= j < ny && 0 <= k < nz ==> c[i][j][k] == Coord(first, cs, axis, i, j, k)
  {
    seq(nx, i => seq(ny, j => seq(nz, k => Coord(first, cs, axis, i, j, k))))
  }

  datatype PositionFields = PositionFields(xs: Cube<real>, ys: Cube<real>, zs: Cube<real>)

  /** What `compute_position_field_onepatch` computes: the first cell of each axis is
      half a cell below `(rx, ry, rz)`, and the cells are `size / nmax / 2^level` apart. */
  function OnePatch(nx: nat, ny: nat, nz: nat, rx: real, ry: real, rz: real, level: nat,
                    size: real, nmax: nat): (f: PositionFields)
    requires nmax > 0
  {
    var cs := CellSize(level, size, nmax);
    PositionFields(AxisCube(nx, ny, nz, rx - cs / 2.0, cs, 0),
                   AxisCube(nx, ny, nz, ry - cs / 2.0, cs, 1),
                   AxisCube(nx, ny, nz, rz - cs / 2.0, cs, 2))
  }

  lemma OnePatchSides(nx: nat, ny: nat, nz: nat, rx: real, ry: real, rz: real, level: nat, size: real, nmax: nat,
                      fx: real, fy: real, fz: real, cs: real)
    requires nmax > 0 && cs == CellSize(level, size, nmax)
    requires fx == rx - cs / 2.0 && fy == ry - cs / 2.0 && fz == rz - cs / 2.0
    ensures OnePatch(nx, ny, nz, rx, ry, rz, level, size, nmax)
      == PositionFields(AxisCube(nx, ny, nz, fx, cs, 0), AxisCube(nx, ny, nz, fy, cs, 1), AxisCube(nx, ny, nz, fz, cs, 2))
  {
  }

  /** The x field of a patch: `nx × ny × nz`, depends on `i` alone, and is
      `rx - cs/2 + i * cs`; so the spacing the field form of `patch_vertices` reads is the cell size. */
  lemma OnePatchX(nx: nat, ny: nat, nz: nat, rx: real, ry: real, rz: real, level: nat, size: real, nmax: nat)
    requires nmax > 0
    ensures var f := OnePatch(nx, ny, nz, rx, ry, rz, level, size, nmax);
            var cs := CellSize(level, size, nmax);
            HasShape(f.xs, nx, ny, nz) && HasShape(f.ys, nx, ny, nz) && HasShape(f.zs, nx, ny, nz) &&
            (forall i, j, k :: 0 <= i < nx && 0 <= j < ny && 0 <= k < nz ==>
               f.xs[i][j][k] == rx - cs / 2.0 + i as real * cs && f.xs[i][j][k] == f.xs[i][0][0]) &&
            (nx >= 2 && ny >= 1 && nz >= 1 ==> f.xs[1][0][0] - f.xs[0][0][0] == cs)
  {
  }

  /** The y and z fields depend on `j`, respectively `k`, alone. */
  lemma OnePatchYZ(nx: nat, ny: nat, nz: nat, rx: real, ry: real, rz: real, level: nat, size: real, nmax: nat)
    requires nmax > 0
    ensures var f := OnePatch(nx, ny, nz, rx, ry, rz, level, size, nmax);
            var cs := CellSize(level, size, nmax);
            forall i, j, k :: 0 <= i < nx && 0 <= j < ny && 0 <= k < nz ==>
              f.ys[i][j][k] == ry - cs / 2.0 + j as real * cs && f.ys[i][j][k] == f.ys[0][j][0] &&
              f.zs[i][j][k] == rz - cs / 2.0 + k as real * cs && f.zs[i][j][k] == f.zs[0][0][k]
  {
  }

  /** The planes `i' < i` of `a` hold their `Coord`s. */
  ghost predicate PlanesFilled(a: array3<real>, first: real, cs: real, axis: nat, i: int)
    reads a
  {
    forall i', j', k' :: (0 <= i' < i && i' < a.Length0 && 0 <= j' < a.Length1 && 0 <= k' < a.Length2) ==>
      a[i', j', k'] == Coord(first, cs, axis, i', j', k')
  }

  /** The rows `j' < j` of plane `i` of `a` hold their `Coord`s. */
  ghost predicate RowsFilled(a: array3<real>, first: real, cs: real, axis: nat, i: int, j: int)
    reads a
  {
    forall j', k' :: (0 <= i < a.Length0 && 0 <= j' < j && j' < a.Length1 && 0 <= k' < a.Length2) ==>
      a[i, j', k'] == Coord(first, cs, axis, i, j', k')
  }

  /** The cells `k' < k` of row `(i, j)` of `a` hold their `Coord`s. */
  ghost predicate CellsFilled(a: array3<real>, first: real, cs: real, axis: nat, i: int, j: int, k: int)
    reads a
  {
    forall k' :: (0 <= i < a.Length0 && 0 <= j < a.Length1 && 0 <= k' < k && k' < a.Length2) ==>
      a[i, j, k'] == Coord(first, cs, axis, i, j, k')
  }

  lemma PlaneDone(a: array3<real>, first: real, cs: real, axis: nat, i: int)
    requires 0 <= i
    requires PlanesFilled(a, first, cs, axis, i) && RowsFilled(a, first, cs, axis, i, a.Length1)
    ensures PlanesFilled(a, first, cs, axis, i + 1)
  {
  }

  /** The contents of a numpy array, as a value. */
  function Snapshot(a: array3<real>): (c: Cube<real>)
    reads a
    ensures HasShape(c, a.Length0, a.Length1, a.Length2)
    ensures forall i, j, k :: 0 <= i < a.Length0 && 0 <= j < a.Length1 && 0 <= k < a.Length2 ==> c[i][j][k] == a[i, j, k]
  {
    seq(a.Length0, i reads a => seq(a.Length1, j reads a => seq(a.Length2, k reads a =>
      if 0 <= i < a.Length0 && 0 <= j < a.Length1 && 0 <= k < a.Length2 then a[i, j, k] else 0.0)))
  }

  lemma SnapshotIsAxisCube(a: array3<real>, first: real, cs: real, axis: nat)
    requires PlanesFilled(a, first, cs, axis, a.Length0)
    ensures Snapshot(a) == AxisCube(a.Length0, a.Length1, a.Length2, first, cs, axis)
  {
    CubeExtensionality(Snapshot(a), AxisCube(a.Length0, a.Length1, a.Length2, first, cs, axis));
  }

  lemma CoordAt(fx: real, fy: real, fz: real, cs: real, i: int, j: int, k: int)
    ensures Coord(fx, cs, 0, i, j, k) == fx + i as real * cs
    ensures Coord(fy, cs, 1, i, j, k) == fy + j as real * cs
    ensures Coord(fz, cs, 2, i, j, k) == fz + k as real * cs
  {
  }

  /** The innermost loop of `compute_position_field_onepatch`: fills row `(i, j)` of
      the three arrays and leaves every other cell unchanged. */
  method FillRow(patchX: array3<real>, patchY: array3<real>, patchZ: array3<real>,
                 firstX: real, firstY: real, firstZ: real, cellsize: real, i: nat, j: nat)
    requires patchX != patchY && patchX != patchZ && patchY != patchZ
    requires i < patchX.Length0 && j < patchX.Length1
    requires patchX.Length0 == patchY.Length0 == patchZ.Length0
    requires patchX.Length1 == patchY.Length1 == patchZ.Length1
    requires patchX.Length2 == patchY.Length2 == patchZ.Length2
    requires PlanesFilled(patchX, firstX, cellsize, 0, i) && RowsFilled(patchX, firstX, cellsize, 0, i, j)
    requires PlanesFilled(patchY, firstY, cellsize, 1, i) && RowsFilled(patchY, firstY, cellsize, 1, i, j)
    requires PlanesFilled(patchZ, firstZ, cellsize, 2, i) && RowsFilled(patchZ, firstZ, cellsize, 2, i, j)
    modifies patchX, patchY, patchZ
    ensures PlanesFilled(patchX, firstX, cellsize, 0, i) && RowsFilled(patchX, firstX, cellsize, 0, i, j + 1)
    ensures PlanesFilled(patchY, firstY, cellsize, 1, i) && RowsFilled(patchY, firstY, cellsize, 1, i, j + 1)
    ensures PlanesFilled(patchZ, firstZ, cellsize, 2, i) && RowsFilled(patchZ, firstZ, cellsize, 2, i, j + 1)
    ensures forall i', j', k' :: 0 <= i' < patchX.Length0 && 0 <= j' < patchX.Length1 && 0 <= k' < patchX.Length2 && (i' != i || j' != j) ==>
      patchX[i', j', k'] == old(patchX[i', j', k'])
    ensures forall i', j', k' :: 0 <= i' < patchY.Length0 && 0 <= j' < patchY.Length1 && 0 <= k' < patchY.Length2 && (i' != i || j' != j) ==>
      patchY[i', j', k'] == old(patchY[i', j', k'])
    ensures forall i', j', k' :: 0 <= i' < patchZ.Length0 && 0 <= j' < patchZ.Length1 && 0 <= k' < patchZ.Length2 && (i' != i || j' != j) ==>
      patchZ[i', j', k'] == old(patchZ[i', j', k'])
  {
    for k := 0 to patchX.Length2
      invariant PlanesFilled(patchX, firstX, cellsize, 0, i) && RowsFilled(patchX, firstX, cellsize, 0, i, j)
      invariant PlanesFilled(patchY, firstY, cellsize, 1, i) && RowsFilled(patchY, firstY, cellsize, 1, i, j)
      invariant PlanesFilled(patchZ, firstZ, cellsize, 2, i) && RowsFilled(patchZ, firstZ, cellsize, 2, i, j)
      invariant CellsFilled(patchX, firstX, cellsize, 0, i, j, k)
      invariant CellsFilled(patchY, firstY, cellsize, 1, i, j, k)
      invariant CellsFilled(patchZ, firstZ, cellsize, 2, i, j, k)
      invariant forall i', j', k' :: 0 <= i' < patchX.Length0 && 0 <= j' < patchX.Length1 && 0 <= k' < patchX.Length2 && (i' != i || j' != j) ==>
        patchX[i', j', k'] == old(patchX[i', j', k'])
      invariant forall i', j', k' :: 0 <= i' < patchY.Length0 && 0 <= j' < patchY.Length1 && 0 <= k' < patchY.Length2 && (i' != i || j' != j) ==>
        patchY[i', j', k'] == old(patchY[i', j', k'])
      invariant forall i', j', k' :: 0 <= i' < patchZ.Length0 && 0 <= j' < patchZ.Length1 && 0 <= k' < patchZ.Length2 && (i' != i || j' != j) ==>
        patchZ[i', j', k'] == old(patchZ[i', j', k'])
    {
      CoordAt(firstX, firstY, firstZ, cellsize, i, j, k);
      patchX[i, j, k] := firstX + i as real * cellsize;
      patchY[i, j, k] := firstY + j as real * cellsize;
      patchZ[i, j, k] := firstZ + k as real * cellsize;
    }
  }

  /** `compute_position_field_onepatch`: fills three zero arrays of the patch's shape
      with the cell-centre coordinates, cell by cell, and returns them. */
  method ComputePositionFieldOnePatch(nx: nat, ny: nat, nz: nat, rx: real, ry: real, rz: real, level: nat,
                                      size: real, nmax: nat) returns (px: Cube<real>, py: Cube<real>, pz: Cube<real>)
    requires nmax > 0
    ensures PositionFields(px, py, pz) == OnePatch(nx, ny, nz, rx, ry, rz, level, size, nmax)
  {
    var cellsize := CellSize(level, size, nmax);
    var firstX := rx - cellsize / 2.0;
    var firstY := ry - cellsize / 2.0;
    var firstZ := rz - cellsize / 2.0;
    var patchX := new real[nx, ny, nz]((i, j, k) => 0.0);
    var patchY := new real[nx, ny, nz]((i, j, k) => 0.0);
    var patchZ := new real[nx, ny, nz]((i, j, k) => 0.0);
    for i := 0 to nx
      modifies patchX, patchY, patchZ
      invariant PlanesFilled(patchX, firstX, cellsize, 0, i)
      invariant PlanesFilled(patchY, firstY, cellsize, 1, i)
      invariant PlanesFilled(patchZ, firstZ, cellsize, 2, i)
    {
      for j := 0 to ny
        modifies patchX, patchY, patchZ
        invariant PlanesFilled(patchX, firstX, cellsize, 0, i) && RowsFilled(patchX, firstX, cellsize, 0, i, j)
        invariant PlanesFilled(patchY, firstY, cellsize, 1, i) && RowsFilled(patchY, firstY, cellsize, 1, i, j)
        invariant PlanesFilled(patchZ, firstZ, cellsize, 2, i) && RowsFilled(patchZ, firstZ, cellsize, 2, i, j)
      {
        FillRow(patchX, patchY, patchZ, firstX, firstY, firstZ, cellsize, i, j);
      }
      PlaneDone(patchX, firstX, cellsize, 0, i);
      PlaneDone(patchY, firstY, cellsize, 1, i);
      PlaneDone(patchZ, firstZ, cellsize, 2, i);
    }
    SnapshotIsAxisCube(patchX, firstX, cellsize, 0);
    SnapshotIsAxisCube(patchY, firstY, cellsize, 1);
    SnapshotIsAxisCube(patchZ, firstZ, cellsize, 2);
    OnePatchSides(nx, ny, nz, rx, ry, rz, level, size, nmax, firstX, firstY, firstZ, cellsize);
    px, py, pz := Snapshot(patchX), Snapshot(patchY), Snapshot(patchZ);
  }

  /** `compute_position_fields`, as the ordered map over the patches: patch `p` gets
      the one-patch fields of its own extent, position and level. */
  function ComputePositionFields(patchnx: seq<nat>, patchny: seq<nat>, patchnz: seq<nat>,
                                 patchrx: seq<real>, patchry: seq<real>, patchrz: seq<real>,
                                 npatch: seq<nat>, size: real, nmax: nat): (r: seq<PositionFields>)
    requires nmax > 0
    requires |patchny| >= |patchnx| && |patchnz| >= |patchnx|
    requires |patchrx| >= |patchnx| && |patchry| >= |patchnx| && |patchrz| >= |patchnx|
    requires |patchnx| <= |CreateVectorLevels(npatch)|
    ensures |r| == |patchnx|
    ensures forall p :: 0 <= p < |patchnx| ==>
      r[p] == OnePatch(patchnx[p], patchny[p], patchnz[p], patchrx[p], patchry[p], patchrz[p],
                       CreateVectorLevels(npatch)[p], size, nmax)
  {
    var levels := CreateVectorLevels(npatch);
    seq(|patchnx|, p requires 0 <= p < |patchnx| =>
      OnePatch(patchnx[p], patchny[p], patchnz[p], patchrx[p], patchry[p], patchrz[p], levels[p], size, nmax))
  }

  /** The three per-axis lists `cellsrx`, `cellsry`, `cellsrz` of the source. */
  function Xs(f: seq<PositionFields>): (r: seq<Cube<real>>)
    ensures |r| == |f| && forall p :: 0 <= p < |f| ==> r[p] == f[p].xs
  {
    seq(|f|, p requires 0 <= p < |f| => f[p].xs)
  }

  function Ys(f: seq<PositionFields>): (r: seq<Cube<real>>)
    ensures |r| == |f| && forall p :: 0 <= p < |f| ==> r[p] == f[p].ys
  {
    seq(|f|, p requires 0 <= p < |f| => f[p].ys)
  }

  function Zs(f: seq<PositionFields>): (r: seq<Cube<real>>)
    ensures |r| == |f| && forall p :: 0 <= p < |f| ==> r[p] == f[p].zs
  {
    seq(|f|, p requires 0 <= p < |f| => f[p].zs)
  }

  /** Every patch of the position fields has the extent `patchnx[p] × patchny[p] × patchnz[p]`,
      and the three lists are aligned patch by patch. */
  lemma PositionFieldsShape(patchnx: seq<nat>, patchny: seq<nat>, patchnz: seq<nat>,
                            patchrx: seq<real>, patchry: seq<real>, patchrz: seq<real>,
                            npatch: seq<nat>, size: real, nmax: nat)
    requires nmax > 0
    requires |patchny| >= |patchnx| && |patchnz| >= |patchnx|
    requires |patchrx| >= |patchnx| && |patchry| >= |patchnx| && |patchrz| >= |patchnx|
    requires |patchnx| <= |CreateVectorLevels(npatch)|
    ensures var f := ComputePositionFields(patchnx, patchny, patchnz, patchrx, patchry, patchrz, npatch, size, nmax);
            SameShapes(Xs(f), Ys(f)) && SameShapes(Xs(f), Zs(f)) &&
            forall p :: 0 <= p < |patchnx| ==> HasShape(Xs(f)[p], patchnx[p], patchny[p], patchnz[p])
  {
    var f := ComputePositionFields(patchnx, patchny, patchnz, patchrx, patchry, patchrz, npatch, size, nmax);
    forall p | 0 <= p < |patchnx|
      ensures SameShape(Xs(f)[p], Ys(f)[p]) && SameShape(Xs(f)[p], Zs(f)[p])
      ensures HasShape(Xs(f)[p], patchnx[p], patchny[p], patchnz[p])
    {
      OnePatchX(patchnx[p], patchny[p], patchnz[p], patchrx[p], patchry[p], patchrz[p],
                CreateVectorLevels(npatch)[p], size, nmax);
    }
  }

  // ---------------------------------------------------------------------------
  // Vertices read back from the position fields

  /** The box the field form of `patch_vertices` describes: the spacing
      `cx[1,0,0] - cx[0,0,0]` is taken as the cell size, the left corner is half a
      cell below cell `(0, 0, 0)` and the sides are the array's shape times the size. */
  function FieldBox(cx: Cube<real>, cy: Cube<real>, cz: Cube<real>): (v: seq<Vec3>)
    requires |cx| >= 2 && |cx[0]| >= 1 && |cx[0][0]| >= 1 && |cx[1]| >= 1 && |cx[1][0]| >= 1
    requires |cy| >= 1 && |cy[0]| >= 1 && |cy[0][0]| >= 1
    requires |cz| >= 1 && |cz[0]| >= 1 && |cz[0][0]| >= 1
    ensures |v| == 8
  {
    var cs := cx[1][0][0] - cx[0][0][0];
    BoxVertices(Vec3(cx[0][0][0] - cs / 2.0, cy[0][0][0] - cs / 2.0, cz[0][0][0] - cs / 2.0),
                Vec3(|cx| as real * cs, |cx[0]| as real * cs, |cx[0][0]| as real * cs))
  }

  lemma FieldBoxSides(cx: Cube<real>, cy: Cube<real>, cz: Cube<real>, left: Vec3, extent: Vec3)
    requires |cx| >= 2 && |cx[0]| >= 1 && |cx[0][0]| >= 1 && |cx[1]| >= 1 && |cx[1][0]| >= 1
    requires |cy| >= 1 && |cy[0]| >= 1 && |cy[0][0]| >= 1
    requires |cz| >= 1 && |cz[0]| >= 1 && |cz[0][0]| >= 1
    requires var cs := cx[1][0][0] - cx[0][0][0];
      left == Vec3(cx[0][0][0] - cs / 2.0, cy[0][0][0] - cs / 2.0, cz[0][0][0] - cs / 2.0) &&
      extent == Vec3(|cx| as real * cs, |cx[0]| as real * cs, |cx[0][0]| as real * cs)
    ensures FieldBox(cx, cy, cz) == BoxVertices(left, extent)
  {
  }

  /** `patch_vertices` (field form): the eight vertices of patch `ipatch`, in `i, j, k`
      loop order, from its position fields. */
  method PatchVerticesFromFields(ipatch: nat, cellsrx: seq<Cube<real>>, cellsry: seq<Cube<real>>,
                                 cellsrz: seq<Cube<real>>) returns (vertices: seq<Vec3>)
    requires ipatch < |cellsrx| && ipatch < |cellsry| && ipatch < |cellsrz|
    requires var cx := cellsrx[ipatch];
      |cx| >= 2 && |cx[0]| >= 1 && |cx[0][0]| >= 1 && |cx[1]| >= 1 && |cx[1][0]| >= 1
    requires |cellsry[ipatch]| >= 1 && |cellsry[ipatch][0]| >= 1 && |cellsry[ipatch][0][0]| >= 1
    requires |cellsrz[ipatch]| >= 1 && |cellsrz[ipatch][0]| >= 1 && |cellsrz[ipatch][0][0]| >= 1
    ensures vertices == FieldBox(cellsrx[ipatch], cellsry[ipatch], cellsrz[ipatch])
  {
    var cx, cy, cz := cellsrx[ipatch], cellsry[ipatch], cellsrz[ipatch];
    var cellsize := cx[1][0][0] - cx[0][0][0];
    var leftmost := Vec3(cx[0][0][0] - cellsize / 2.0, cy[0][0][0] - cellsize / 2.0, cz[0][0][0] - cellsize / 2.0);
    var nx, ny, nz := |cx|, |cx[0]|, |cx[0][0]|;
    ghost var extent := Vec3(nx as real * cellsize, ny as real * cellsize, nz as real * cellsize);
    ghost var box := BoxVertices(leftmost, extent);
    FieldBoxSides(cx, cy, cz, leftmost, extent);
    vertices := [];
    for i := 0 to 2
      invariant vertices == box[..4 * i]
    {
      for j := 0 to 2
        invariant vertices == box[..4 * i + 2 * j]
      {
        for k := 0 to 2
          invariant vertices == box[..4 * i + 2 * j + k]
        {
          var x := leftmost.x + i as real * nx as real * cellsize;
          var y := leftmost.y + j as real * ny as real * cellsize;
          var z := leftmost.z + k as real * nz as real * cellsize;
          LoopVertex(leftmost, nx, ny, nz, cellsize, i, j, k);
          assert box[..4 * i + 2 * j + k + 1] == box[..4 * i + 2 * j + k] + [box[4 * i + 2 * j + k]];
          vertices := vertices + [Vec3(x, y, z)];
        }
      }
    }
    assert box[..8] == box;
  }

  /** On a patch's own position fields (at least two cells along x), the field form
      reads back the true cell size and gives the geometric `patch_vertices` of the
      same level and extent taken at the centre of cell `(0, 0, 0)`. */
  lemma FieldBoxMatchesPatchBox(nx: nat, ny: nat, nz: nat, rx: real, ry: real, rz: real, level: nat,
                                size: real, nmax: nat)
    requires nmax > 0 && nx >= 2 && ny >= 1 && nz >= 1
    ensures var f := OnePatch(nx, ny, nz, rx, ry, rz, level, size, nmax);
            FieldBox(f.xs, f.ys, f.zs) ==
              PatchBox(level, nx, ny, nz, f.xs[0][0][0], f.ys[0][0][0], f.zs[0][0][0], size, nmax)
  {
    var f := OnePatch(nx, ny, nz, rx, ry, rz, level, size, nmax);
    var cs := CellSize(level, size, nmax);
    assert f.xs[1][0][0] - f.xs[0][0][0] == cs;
    var left := Vec3(f.xs[0][0][0] - cs / 2.0, f.ys[0][0][0] - cs / 2.0, f.zs[0][0][0] - cs / 2.0);
    var extent := Vec3(nx as real * cs, ny as real * cs, nz as real * cs);
    FieldBoxSides(f.xs, f.ys, f.zs, left, extent);
    PatchBoxSides(level, nx, ny, nz, f.xs[0][0][0], f.ys[0][0][0], f.zs[0][0][0], size, nmax, left, extent);
  }

  /** So, for fields computed from `(rx, ry, rz)`, the field form's left corner is a
      whole cell below `(rx, ry, rz)`, where the geometric form of the same arguments
      puts it half a cell below. */
  lemma FieldBoxLeftCorner(nx: nat, ny: nat, nz: nat, rx: real, ry: real, rz: real, level: nat,
                           size: real, nmax: nat)
    requires nmax > 0 && nx >= 2 && ny >= 1 && nz >= 1
    ensures var f := OnePatch(nx, ny, nz, rx, ry, rz, level, size, nmax);
            var cs := CellSize(level, size, nmax);
            FieldBox(f.xs, f.ys, f.zs)[0] == Vec3(rx - cs, ry - cs, rz - cs) &&
            PatchBox(level, nx, ny, nz, rx, ry, rz, size, nmax)[0] == Vec3(rx - cs / 2.0, ry - cs / 2.0, rz - cs / 2.0)
  {
    var f := OnePatch(nx, ny, nz, rx, ry, rz, level, size, nmax);
    var cs := CellSize(level, size, nmax);
    assert f.xs[1][0][0] - f.xs[0][0][0] == cs;
  }

  // ---------------------------------------------------------------------------
  // Spherical masks

  /** The squared distance of `(x, y, z)` from `centre`. */
  function Dist2(centre: Vec3, x: real, y: real, z: real): (d: real)
    ensures d >= 0.0
  {
    (x - centre.x) * (x - centre.x) + (y - centre.y) * (y - centre.y) + (z - centre.z) * (z - centre.z)
  }

  /** The mask of one patch: a cell is set when its squared distance to the centre is below `R²`. */
  function SphereCube(radius: real, centre: Vec3, cx: Cube<real>, cy: Cube<real>, cz: Cube<real>): (m: Cube<bool>)
    requires SameShape(cx, cy) && SameShape(cx, cz)
    ensures SameShape(m, cx)
    ensures forall i, j, k :: 0 <= i < |cx| && 0 <= j < |cx[i]| && 0 <= k < |cx[i][j]| ==>
      (m[i][j][k] <==> Dist2(centre, cx[i][j][k], cy[i][j][k], cz[i][j][k]) < radius * radius)
  {
    seq(|cx|, i requires 0 <= i < |cx| =>
      seq(|cx[i]|, j requires 0 <= j < |cx[i]| =>
        seq(|cx[i][j]|, k requires 0 <= k < |cx[i][j]| =>
          Dist2(centre, cx[i][j][k], cy[i][j][k], cz[i][j][k]) < radius * radius)))
  }

  function Min(a: nat, b: nat): (m: nat)
  {
    if a <= b then a else b
  }

  /** The number of patches `zip(cellsrx, cellsry, cellsrz)` runs over. */
  function ZipLength<A, B, C>(a: seq<A>, b: seq<B>, c: seq<C>): (n: nat)
    ensures n <= |a| && n <= |b| && n <= |c| && (n == |a| || n == |b| || n == |c|)
  {
    Min(|a|, Min(|b|, |c|))
  }

  /** The patches of the position fields can be combined elementwise. */
  predicate Aligned(cellsrx: seq<Cube<real>>, cellsry: seq<Cube<real>>, cellsrz: seq<Cube<real>>)
  {
    forall p :: 0 <= p < ZipLength(cellsrx, cellsry, cellsrz) ==>
      SameShape(cellsrx[p], cellsry[p]) && SameShape(cellsrx[p], cellsrz[p])
  }

  /** `mask_sphere`: one boolean array per patch, set on the cells strictly inside the
      sphere of radius `R` about `centre`. */
  function MaskSphere(radius: real, centre: Vec3, cellsrx: seq<Cube<real>>, cellsry: seq<Cube<real>>,
                      cellsrz: seq<Cube<real>>): (mask: seq<Cube<bool>>)
    requires Aligned(cellsrx, cellsry, cellsrz)
    ensures |mask| == ZipLength(cellsrx, cellsry, cellsrz)
    ensures forall p :: 0 <= p < |mask| ==> (SameShape(mask[p], cellsrx[p]) &&
      forall i, j, k :: (0 <= i < |cellsrx[p]| && 0 <= j < |cellsrx[p][i]| && 0 <= k < |cellsrx[p][i][j]|) ==>
        (mask[p][i][j][k] <==> Dist2(centre, cellsrx[p][i][j][k], cellsry[p][i][j][k], cellsrz[p][i][j][k]) < radius * radius))
  {
    seq(ZipLength(cellsrx, cellsry, cellsrz), p requires 0 <= p < ZipLength(cellsrx, cellsry, cellsrz) =>
      SphereCube(radius, centre, cellsrx[p], cellsry[p], cellsrz[p]))
  }

  /** A sphere of radius 0 contains no cell. */
  lemma MaskSphereZero(centre: Vec3, cellsrx: seq<Cube<real>>, cellsry: seq<Cube<real>>, cellsrz: seq<Cube<real>>)
    requires Aligned(cellsrx, cellsry, cellsrz)
    ensures var mask := MaskSphere(0.0, centre, cellsrx, cellsry, cellsrz);
            forall p, i, j, k :: (0 <= p < |mask| && 0 <= i < |mask[p]| && 0 <= j < |mask[p][i]| &&
              0 <= k < |mask[p][i][j]|) ==> !mask[p][i][j][k]
  {
  }

  /** A larger sphere contains every cell of a smaller one. */
  lemma MaskSphereMonotone(r1: real, r2: real, centre: Vec3, cellsrx: seq<Cube<real>>, cellsry: seq<Cube<real>>,
                           cellsrz: seq<Cube<real>>)
    requires Aligned(cellsrx, cellsry, cellsrz)
    requires r1 * r1 <= r2 * r2
    ensures var m1 := MaskSphere(r1, centre, cellsrx, cellsry, cellsrz);
            var m2 := MaskSphere(r2, centre, cellsrx, cellsry, cellsrz);
            |m1| == |m2| && forall p :: 0 <= p < |m1| ==> Within(m1[p], m2[p])
  {
    var m1 := MaskSphere(r1, centre, cellsrx, cellsry, cellsrz);
    var m2 := MaskSphere(r2, centre, cellsrx, cellsry, cellsrz);
    forall p | 0 <= p < |m1|
      ensures Within(m1[p], m2[p])
    {
      SphereCubeWithin(r1, r2, centre, cellsrx[p], cellsry[p], cellsrz[p]);
    }
  }

  lemma SphereCubeWithin(r1: real, r2: real, centre: Vec3, cx: Cube<real>, cy: Cube<real>, cz: Cube<real>)
    requires SameShape(cx, cy) && SameShape(cx, cz)
    requires r1 * r1 <= r2 * r2
    ensures Within(SphereCube(r1, centre, cx, cy, cz), SphereCube(r2, centre, cx, cy, cz))
  {
    var m2 := SphereCube(r2, centre, cx, cy, cz);
    SameShapeSymmetric(m2, cx);
    SameShapeTransitive(SphereCube(r1, centre, cx, cy, cz), cx, m2);
  }

  // ---------------------------------------------------------------------------
  // Cleaning a field of refinements and overlaps

  /** `min(up_to_level, levels.max())`: the last level `clean_field` keeps. */
  function CleanLevel(npatch: seq<nat>, upToLevel: nat): (l: nat)
    ensures l <= upToLevel && l <= MaxLevel(npatch)
    ensures l == upToLevel || l == MaxLevel(npatch)
  {
    if upToLevel <= MaxLevel(npatch) then upToLevel else MaxLevel(npatch)
  }

  /** The number of patches a cleaning up to level `l` keeps: the base grid and the
      patches of levels `1..l`. */
  function KeptCount(npatch: seq<nat>, l: nat): (n: nat)
  {
    1 + SumTo(npatch, 1, l + 1)
  }

  /** `field`, `cr0amr` and `solapst` can be combined on patch `q`. */
  predicate Combinable(field: seq<Cube<real>>, cr0amr: seq<Cube<bool>>, solapst: seq<Cube<bool>>, q: nat)
  {
    q < |field| && q < |cr0amr| && q < |solapst| &&
    SameShape(field[q], cr0amr[q]) && SameShape(field[q], solapst[q])
  }

  /** Patch `q` of the cleaned field when the last kept level is `l`: the base grid is
      cleaned of refined cells (`cr0amr`), the levels below `l` of refined and
      overlapping (`solapst`) cells, level `l` of overlapping cells only. */
  function CleanedPatch(field: seq<Cube<real>>, cr0amr: seq<Cube<bool>>, solapst: seq<Cube<bool>>,
                        npatch: seq<nat>, l: nat, q: nat): (c: Cube<real>)
    requires Combinable(field, cr0amr, solapst, q)
    requires q < |CreateVectorLevels(npatch)|
    ensures SameShape(c, field[q])
  {
    if q == 0 then Mask(field[0], cr0amr[0])
    else if CreateVectorLevels(npatch)[q] < l then Mask(Mask(field[q], cr0amr[q]), solapst[q])
    else Mask(field[q], solapst[q])
  }

  /** Cell by cell: a cleaned cell keeps its value when it is not refined (patches of
      levels below `l`, and the base grid) and not overlapped (patches of level >= 1),
      and is zero otherwise. */
  lemma CleanedCell(field: seq<Cube<real>>, cr0amr: seq<Cube<bool>>, solapst: seq<Cube<bool>>,
                    npatch: seq<nat>, l: nat, q: nat, i: nat, j: nat, k: nat)
    requires Combinable(field, cr0amr, solapst, q)
    requires q < |CreateVectorLevels(npatch)|
    requires i < |field[q]| && j < |field[q][i]| && k < |field[q][i][j]|
    ensures var dropRefined := q == 0 || CreateVectorLevels(npatch)[q] < l;
            var keep := (!dropRefined || cr0amr[q][i][j][k]) && (q == 0 || solapst[q][i][j][k]);
            CleanedPatch(field, cr0amr, solapst, npatch, l, q)[i][j][k] == if keep then field[q][i][j][k] else 0.0
  {
    if q == 0 {
      assert CreateVectorLevels(npatch)[0] == 0;
    }
  }

  /** Where the masks keep every cell, cleaning changes nothing. */
  lemma CleanAllOnes(field: seq<Cube<real>>, cr0amr: seq<Cube<bool>>, solapst: seq<Cube<bool>>,
                     npatch: seq<nat>, l: nat, q: nat)
    requires Combinable(field, cr0amr, solapst, q)
    requires q < |CreateVectorLevels(npatch)|
    requires AllTrue(cr0amr[q]) && AllTrue(solapst[q])
    ensures CleanedPatch(field, cr0amr, solapst, npatch, l, q) == field[q]
  {
    MaskAllTrue(field[q], cr0amr[q]);
    MaskAllTrue(field[q], solapst[q]);
  }

  /** When the base grid is patch 0 alone, `sum(npatch[0:h])` is `sum(npatch[1:h])`,
      the offset of level `h` in the level table. */
  lemma {:induction false} SumToSkipsBase(npatch: seq<nat>, h: nat)
    requires |npatch| == 0 || npatch[0] == 0
    ensures SumTo(npatch, 0, h) == SumTo(npatch, 1, h)
    decreases h
  {
    if h > |npatch| {
      SumToSkipsBase(npatch, |npatch|);
    } else if h > 1 {
      SumToSkipsBase(npatch, h - 1);
    }
  }

  /** The cleaned field keeps exactly the patches of level at most `l`: they are the
      first `KeptCount(npatch, l)` of the level table. */
  lemma KeptPatches(npatch: seq<nat>, upToLevel: nat, q: nat)
    requires q < |CreateVectorLevels(npatch)|
    ensures var l := CleanLevel(npatch, upToLevel);
            q < KeptCount(npatch, l) <==> CreateVectorLevels(npatch)[q] <= l
  {
    var levels := CreateVectorLevels(npatch);
    var l := CleanLevel(npatch, upToLevel);
    if q > 0 {
      var lq := levels[q];
      LevelsBlock(npatch, lq, q);
      if lq <= l {
        SumToMono(npatch, 1, lq + 1, l + 1);
      } else {
        SumToMono(npatch, 1, l + 1, lq);
      }
    }
  }

  /** All the patches `clean_field` keeps exist in the level table. */
  lemma KeptCountBound(npatch: seq<nat>, upToLevel: nat)
    ensures KeptCount(npatch, CleanLevel(npatch, upToLevel)) <= |CreateVectorLevels(npatch)|
  {
    var l := CleanLevel(npatch, upToLevel);
    if l >= 1 {
      SumToMono(npatch, 1, l + 1, |npatch|);
    }
  }

  /** The patches of the `level` block are cleaned by the rule of that level. */
  lemma CleanedAt(field: seq<Cube<real>>, cr0amr: seq<Cube<bool>>, solapst: seq<Cube<bool>>,
                  npatch: seq<nat>, l: nat, level: nat, q: nat)
    requires 1 <= level < |npatch| && level <= l
    requires 1 + SumTo(npatch, 1, level) <= q < 1 + SumTo(npatch, 1, level + 1)
    requires q < |CreateVectorLevels(npatch)| && Combinable(field, cr0amr, solapst, q)
    ensures level < l ==> CleanedPatch(field, cr0amr, solapst, npatch, l, q) == Mask(Mask(field[q], cr0amr[q]), solapst[q])
    ensures level == l ==> CleanedPatch(field, cr0amr, solapst, npatch, l, q) == Mask(field[q], solapst[q])
  {
    LevelsBlock(npatch, level, q);
  }

  /** The cleaned prefix: the first `|clean|` patches are cleaned as `CleanedPatch` says. */
  predicate CleanedPrefix(clean: seq<Cube<real>>, field: seq<Cube<real>>, cr0amr: seq<Cube<bool>>,
                          solapst: seq<Cube<bool>>, npatch: seq<nat>, l: nat)
  {
    |clean| <= |CreateVectorLevels(npatch)| &&
    (forall q :: 0 <= q < |clean| ==> Combinable(field, cr0amr, solapst, q)) &&
    forall q :: 0 <= q < |clean| ==> clean[q] == CleanedPatch(field, cr0amr, solapst, npatch, l, q)
  }

  /** Appending the cleaned form of the next patch extends a cleaned prefix. */
  lemma CleanedPrefixAppend(clean: seq<Cube<real>>, c: Cube<real>, field: seq<Cube<real>>, cr0amr: seq<Cube<bool>>,
                            solapst: seq<Cube<bool>>, npatch: seq<nat>, l: nat)
    requires CleanedPrefix(clean, field, cr0amr, solapst, npatch, l)
    requires |clean| < |CreateVectorLevels(npatch)| && Combinable(field, cr0amr, solapst, |clean|)
    requires c == CleanedPatch(field, cr0amr, solapst, npatch, l, |clean|)
    ensures CleanedPrefix(clean + [c], field, cr0amr, solapst, npatch, l)
  {
    var ext := clean + [c];
    forall q | 0 <= q < |ext|
      ensures ext[q] == CleanedPatch(field, cr0amr, solapst, npatch, l, q)
    {
      if q < |clean| {
        assert ext[q] == clean[q];
      }
    }
  }

  /** One pass of the inner loop of `clean_field`: appends the patches of `level`,
      cleaned of refinements and overlaps. */
  method CleanRefinedLevel(clean: seq<Cube<real>>, field: seq<Cube<real>>, cr0amr: seq<Cube<bool>>,
                           solapst: seq<Cube<bool>>, npatch: seq<nat>, l: nat, level: nat)
    returns (clean': seq<Cube<real>>)
    requires |npatch| == 0 || npatch[0] == 0
    requires 1 <= level < l && l < |npatch|
    requires forall q :: 0 <= q < KeptCount(npatch, l) ==> Combinable(field, cr0amr, solapst, q)
    requires KeptCount(npatch, l) <= |CreateVectorLevels(npatch)|
    requires |clean| == SumTo(npatch, 1, level) + 1 && CleanedPrefix(clean, field, cr0amr, solapst, npatch, l)
    ensures |clean'| == SumTo(npatch, 1, level + 1) + 1 && CleanedPrefix(clean', field, cr0amr, solapst, npatch, l)
  {
    SumToMono(npatch, 1, level + 1, l + 1);
    SumToSkipsBase(npatch, level);
    SumToSkipsBase(npatch, level + 1);
    clean' := clean;
    for ipatch := SumTo(npatch, 0, level) + 1 to SumTo(npatch, 0, level + 1) + 1
      invariant |clean'| == ipatch && CleanedPrefix(clean', field, cr0amr, solapst, npatch, l)
    {
      CleanedAt(field, cr0amr, solapst, npatch, l, level, ipatch);
      CleanedPrefixAppend(clean', Mask(Mask(field[ipatch], cr0amr[ipatch]), solapst[ipatch]), field, cr0amr, solapst, npatch, l);
      clean' := clean' + [Mask(Mask(field[ipatch], cr0amr[ipatch]), solapst[ipatch])];
    }
  }

  /** The last loop of `clean_field`: appends the patches of level `l`, cleaned of
      overlaps only. */
  method CleanLastLevel(clean: seq<Cube<real>>, field: seq<Cube<real>>, cr0amr: seq<Cube<bool>>,
                        solapst: seq<Cube<bool>>, npatch: seq<nat>, l: nat)
    returns (clean': seq<Cube<real>>)
    requires |npatch| == 0 || npatch[0] == 0
    requires 1 <= l < |npatch|
    requires forall q :: 0 <= q < KeptCount(npatch, l) ==> Combinable(field, cr0amr, solapst, q)
    requires KeptCount(npatch, l) <= |CreateVectorLevels(npatch)|
    requires |clean| == SumTo(npatch, 1, l) + 1 && CleanedPrefix(clean, field, cr0amr, solapst, npatch, l)
    ensures |clean'| == KeptCount(npatch, l) && CleanedPrefix(clean', field, cr0amr, solapst, npatch, l)
  {
    SumToMono(npatch, 1, l, l + 1);
    SumToSkipsBase(npatch, l);
    SumToSkipsBase(npatch, l + 1);
    clean' := clean;
    for ipatch := SumTo(npatch, 0, l) + 1 to SumTo(npatch, 0, l + 1) + 1
      invariant |clean'| == ipatch && CleanedPrefix(clean', field, cr0amr, solapst, npatch, l)
    {
      CleanedAt(field, cr0amr, solapst, npatch, l, l, ipatch);
      CleanedPrefixAppend(clean', Mask(field[ipatch], solapst[ipatch]), field, cr0amr, solapst, npatch, l);
      clean' := clean' + [Mask(field[ipatch], solapst[ipatch])];
    }
  }

  /** `clean_field`: the base grid, then the patches of levels `1 .. l-1`, then those of
      level `l = min(up_to_level, levels.max())`, each cleaned as `CleanedPatch` says;
      finer patches are left out. */
  method CleanField(field: seq<Cube<real>>, cr0amr: seq<Cube<bool>>, solapst: seq<Cube<bool>>,
                    npatch: seq<nat>, upToLevel: nat) returns (clean: seq<Cube<real>>)
    requires |npatch| == 0 || npatch[0] == 0
    requires forall q :: 0 <= q < KeptCount(npatch, CleanLevel(npatch, upToLevel)) ==> Combinable(field, cr0amr, solapst, q)
    ensures |clean| == KeptCount(npatch, CleanLevel(npatch, upToLevel)) <= |CreateVectorLevels(npatch)|
    ensures forall q :: 0 <= q < |clean| ==>
      clean[q] == CleanedPatch(field, cr0amr, solapst, npatch, CleanLevel(npatch, upToLevel), q)
  {
    var levels := CreateVectorLevels(npatch);
    var l := if upToLevel <= SeqMax(levels) then upToLevel else SeqMax(levels);
    assert l == CleanLevel(npatch, upToLevel);
    KeptCountBound(npatch, upToLevel);
    assert Combinable(field, cr0amr, solapst, 0);
    clean := [Mask(field[0], cr0amr[0])];
    var level := 1;
    while level < l
      invariant 1 <= level <= (if l == 0 then 1 else l)
      invariant |clean| == SumTo(npatch, 1, level) + 1 && CleanedPrefix(clean, field, cr0amr, solapst, npatch, l)
    {
      clean := CleanRefinedLevel(clean, field, cr0amr, solapst, npatch, l, level);
      level := level + 1;
    }
    // last level: overlaps only
    if l > 0 {
      clean := CleanLastLevel(clean, field, cr0amr, solapst, npatch, l);
    }
  }

  // ---------------------------------------------------------------------------
  // Mass inside a sphere and the overdensity equation

  lemma CubeSign(x: real)
    ensures 0.0 <= x ==> 0.0 <= x * x * x
    ensures 0.0 < x ==> 0.0 < x * x * x
  {
    if 0.0 <= x {
      assert 0.0 <= x * x;
    }
  }

  lemma MulNonNeg(x: real, y: real)
    requires 0.0 <= x && 0.0 <= y
    ensures 0.0 <= x * y
  {
  }

  lemma MulPos(x: real, y: real)
    requires 0.0 < x && 0.0 < y
    ensures 0.0 < x * y
  {
  }

  /** The edge of a cell of `level` is non-negative for a non-negative box. */
  lemma CellSizeSign(level: nat, size: real, nmax: nat)
    requires nmax > 0
    ensures 0.0 <= size ==> 0.0 <= CellSize(level, size, nmax)
    ensures 0.0 < size ==> 0.0 < CellSize(level, size, nmax)
  {
    var a := size / nmax as real;
    assert CellSize(level, size, nmax) == a / Pow2(level) as real;
  }

  /** `(size / nmax / 2 ** level) ** 3`: the volume of a cell of `level`. */
  function CellVolume(level: nat, size: real, nmax: nat): (v: real)
    requires nmax > 0
    ensures 0.0 <= size ==> 0.0 <= v
    ensures 0.0 < size ==> 0.0 < v
  {
    var cs := CellSize(level, size, nmax);
    CellSizeSign(level, size, nmax);
    CubeSign(cs);
    cs * cs * cs
  }

  /** The number of patches `zip(density, mask, cells_volume)` runs over. */
  function MassCount(density: seq<Cube<real>>, cellsrx: seq<Cube<real>>, cellsry: seq<Cube<real>>,
                     cellsrz: seq<Cube<real>>, npatch: seq<nat>): (n: nat)
  {
    Min(|density|, Min(ZipLength(cellsrx, cellsry, cellsrz), |CreateVectorLevels(npatch)|))
  }

  /** The density and the position fields can be combined patch by patch. */
  predicate DensityAligned(density: seq<Cube<real>>, cellsrx: seq<Cube<real>>, cellsry: seq<Cube<real>>,
                           cellsrz: seq<Cube<real>>)
  {
    Aligned(cellsrx, cellsry, cellsrz) &&
    forall p :: 0 <= p < Min(|density|, ZipLength(cellsrx, cellsry, cellsrz)) ==> SameShape(density[p], cellsrx[p])
  }

  /** `d * m * cv` on one patch, `m` the patch's sphere mask: the mass of each cell
      inside the sphere, zero outside. */
  function PatchMass(d: Cube<real>, cx: Cube<real>, cy: Cube<real>, cz: Cube<real>, radius: real,
                     centre: Vec3, cv: real): (c: Cube<real>)
    requires SameShape(d, cx) && SameShape(cx, cy) && SameShape(cx, cz)
    ensures SameShape(c, d)
    ensures forall i, j, k :: (0 <= i < |d| && 0 <= j < |d[i]| && 0 <= k < |d[i][j]|) ==>
      c[i][j][k] == (if Dist2(centre, cx[i][j][k], cy[i][j][k], cz[i][j][k]) < radius * radius
                     then d[i][j][k] else 0.0) * cv
  {
    PatchMassAt(d, cx, cy, cz, radius, centre);
    Scale(Mask(d, SphereCube(radius, centre, cx, cy, cz)), cv)
  }

  lemma PatchMassAt(d: Cube<real>, cx: Cube<real>, cy: Cube<real>, cz: Cube<real>, radius: real, centre: Vec3)
    requires SameShape(d, cx) && SameShape(cx, cy) && SameShape(cx, cz)
    ensures SameShape(d, SphereCube(radius, centre, cx, cy, cz))
  {
    var m := SphereCube(radius, centre, cx, cy, cz);
    SameShapeSymmetric(m, cx);
    SameShapeTransitive(d, cx, m);
  }

  /** The cell masses of `mass_inside`, patch by patch over `zip(density, mask, cells_volume)`;
      patch `p` of `mask_sphere`'s result is `SphereCube` on patch `p`. */
  function CellMasses(radius: real, centre: Vec3, density: seq<Cube<real>>, cellsrx: seq<Cube<real>>,
                      cellsry: seq<Cube<real>>, cellsrz: seq<Cube<real>>, npatch: seq<nat>,
                      size: real, nmax: nat): (cm: seq<Cube<real>>)
    requires nmax > 0 && DensityAligned(density, cellsrx, cellsry, cellsrz)
    ensures |cm| == MassCount(density, cellsrx, cellsry, cellsrz, npatch)
    ensures forall p :: 0 <= p < |cm| ==> cm[p] == PatchMass(density[p], cellsrx[p], cellsry[p], cellsrz[p],
                                                            radius, centre, CellVolume(CreateVectorLevels(npatch)[p], size, nmax))
  {
    var levels := CreateVectorLevels(npatch);
    seq(MassCount(density, cellsrx, cellsry, cellsrz, npatch),
        p requires 0 <= p < MassCount(density, cellsrx, cellsry, cellsrz, npatch) =>
          PatchMass(density[p], cellsrx[p], cellsry[p], cellsrz[p], radius, centre, CellVolume(levels[p], size, nmax)))
  }

  /** `mass_inside`: the total mass of the cells whose centre lies strictly inside the
      sphere of radius `R` about `centre`; a non-negative density in a box of
      non-negative size gives a non-negative mass. */
  function MassInside(radius: real, centre: Vec3, density: seq<Cube<real>>, cellsrx: seq<Cube<real>>,
                      cellsry: seq<Cube<real>>, cellsrz: seq<Cube<real>>, npatch: seq<nat>,
                      size: real, nmax: nat): (m: real)
    requires nmax > 0 && DensityAligned(density, cellsrx, cellsry, cellsrz)
    ensures 0.0 <= size && NonNegDensity(density, MassCount(density, cellsrx, cellsry, cellsrz, npatch)) ==> 0.0 <= m
  {
    CellMassesSumNonNeg(radius, centre, density, cellsrx, cellsry, cellsrz, npatch, size, nmax);
    SumPatches(CellMasses(radius, centre, density, cellsrx, cellsry, cellsrz, npatch, size, nmax))
  }

  /** Every patch of the density field that `mass_inside` sees is non-negative. */
  ghost predicate NonNegDensity(density: seq<Cube<real>>, n: nat)
  {
    forall p :: 0 <= p < |density| && p < n ==> NonNeg3(density[p])
  }

  /** A non-negative density in a non-negative box gives non-negative cell masses. */
  lemma CellMassesNonNeg(radius: real, centre: Vec3, density: seq<Cube<real>>, cellsrx: seq<Cube<real>>,
                         cellsry: seq<Cube<real>>, cellsrz: seq<Cube<real>>, npatch: seq<nat>,
                         size: real, nmax: nat)
    requires nmax > 0 && DensityAligned(density, cellsrx, cellsry, cellsrz)
    requires 0.0 <= size && NonNegDensity(density, MassCount(density, cellsrx, cellsry, cellsrz, npatch))
    ensures var cm := CellMasses(radius, centre, density, cellsrx, cellsry, cellsrz, npatch, size, nmax);
            forall p :: 0 <= p < |cm| ==> NonNeg3(cm[p])
  {
    forall p | 0 <= p < MassCount(density, cellsrx, cellsry, cellsrz, npatch)
      ensures NonNeg3(CellMasses(radius, centre, density, cellsrx, cellsry, cellsrz, npatch, size, nmax)[p])
    {
      PatchMassAt(density[p], cellsrx[p], cellsry[p], cellsrz[p], radius, centre);
      MaskScaleNonNeg(density[p], SphereCube(radius, centre, cellsrx[p], cellsry[p], cellsrz[p]),
                      CellVolume(CreateVectorLevels(npatch)[p], size, nmax));
    }
  }

  /** The cell masses of a non-negative density in a box of non-negative size sum to a
      non-negative mass. */
  lemma CellMassesSumNonNeg(radius: real, centre: Vec3, density: seq<Cube<real>>, cellsrx: seq<Cube<real>>,
                            cellsry: seq<Cube<real>>, cellsrz: seq<Cube<real>>, npatch: seq<nat>,
                            size: real, nmax: nat)
    requires nmax > 0 && DensityAligned(density, cellsrx, cellsry, cellsrz)
    ensures 0.0 <= size && NonNegDensity(density, MassCount(density, cellsrx, cellsry, cellsrz, npatch)) ==>
      0.0 <= SumPatches(CellMasses(radius, centre, density, cellsrx, cellsry, cellsrz, npatch, size, nmax))
  {
    if 0.0 <= size && NonNegDensity(density, MassCount(density, cellsrx, cellsry, cellsrz, npatch)) {
      CellMassesNonNeg(radius, centre, density, cellsrx, cellsry, cellsrz, npatch, size, nmax);
      SumPatchesNonNeg(CellMasses(radius, centre, density, cellsrx, cellsry, cellsrz, npatch, size, nmax));
    }
  }

  /** A sphere of radius 0 holds no mass. */
  lemma MassInsideZero(centre: Vec3, density: seq<Cube<real>>, cellsrx: seq<Cube<real>>,
                       cellsry: seq<Cube<real>>, cellsrz: seq<Cube<real>>, npatch: seq<nat>,
                       size: real, nmax: nat)
    requires nmax > 0 && DensityAligned(density, cellsrx, cellsry, cellsrz)
    ensures MassInside(0.0, centre, density, cellsrx, cellsry, cellsrz, npatch, size, nmax) == 0.0
  {
    var cm := CellMasses(0.0, centre, density, cellsrx, cellsry, cellsrz, npatch, size, nmax);
    forall p | 0 <= p < |cm|
      ensures Scaled3(cm[p], cm[p], 0.0)
    {
      Scaled3FromCells(cm[p], cm[p], 0.0);
    }
    SumPatchesScaled(cm, cm, 0.0);
  }

  /** For a non-negative density, the mass inside grows with the radius. */
  lemma MassInsideMonotone(r1: real, r2: real, centre: Vec3, density: seq<Cube<real>>, cellsrx: seq<Cube<real>>,
                           cellsry: seq<Cube<real>>, cellsrz: seq<Cube<real>>, npatch: seq<nat>,
                           size: real, nmax: nat)
    requires nmax > 0 && DensityAligned(density, cellsrx, cellsry, cellsrz)
    requires 0.0 <= size && NonNegDensity(density, MassCount(density, cellsrx, cellsry, cellsrz, npatch))
    requires r1 * r1 <= r2 * r2
    ensures MassInside(r1, centre, density, cellsrx, cellsry, cellsrz, npatch, size, nmax)
         <= MassInside(r2, centre, density, cellsrx, cellsry, cellsrz, npatch, size, nmax)
  {
    var c1 := CellMasses(r1, centre, density, cellsrx, cellsry, cellsrz, npatch, size, nmax);
    var c2 := CellMasses(r2, centre, density, cellsrx, cellsry, cellsrz, npatch, size, nmax);
    forall p | 0 <= p < |c1|
      ensures Leq3(c1[p], c2[p])
    {
      PatchMassAt(density[p], cellsrx[p], cellsry[p], cellsrz[p], r1, centre);
      SphereCubeWithin(r1, r2, centre, cellsrx[p], cellsry[p], cellsrz[p]);
      MaskScaleMono(density[p], SphereCube(r1, centre, cellsrx[p], cellsry[p], cellsrz[p]),
                    SphereCube(r2, centre, cellsrx[p], cellsry[p], cellsrz[p]),
                    CellVolume(CreateVectorLevels(npatch)[p], size, nmax));
    }
    SumPatchesMono(c1, c2);
  }

  /** A cell of positive density inside the sphere makes the mass positive. */
  lemma MassInsidePositive(radius: real, centre: Vec3, density: seq<Cube<real>>, cellsrx: seq<Cube<real>>,
                           cellsry: seq<Cube<real>>, cellsrz: seq<Cube<real>>, npatch: seq<nat>,
                           size: real, nmax: nat, p: nat, i: nat, j: nat, k: nat)
    requires nmax > 0 && DensityAligned(density, cellsrx, cellsry, cellsrz)
    requires 0.0 < size && NonNegDensity(density, MassCount(density, cellsrx, cellsry, cellsrz, npatch))
    requires p < MassCount(density, cellsrx, cellsry, cellsrz, npatch)
    requires i < |density[p]| && j < |density[p][i]| && k < |density[p][i][j]| && 0.0 < density[p][i][j][k]
    requires Dist2(centre, cellsrx[p][i][j][k], cellsry[p][i][j][k], cellsrz[p][i][j][k]) < radius * radius
    ensures 0.0 < MassInside(radius, centre, density, cellsrx, cellsry, cellsrz, npatch, size, nmax)
  {
    var cm := CellMasses(radius, centre, density, cellsrx, cellsry, cellsrz, npatch, size, nmax);
    CellMassesNonNeg(radius, centre, density, cellsrx, cellsry, cellsrz, npatch, size, nmax);
    MulPos(density[p][i][j][k], CellVolume(CreateVectorLevels(npatch)[p], size, nmax));
    assert 0.0 < cm[p][i][j][k];
    SumPatchesPos(cm, p, i, j, k);
  }

  /** `(4 pi / 3) r**3`: the volume of a sphere of radius `r`, with `pi` a parameter. */
  function SphereVolume(r: real, pi: real): (v: real)
    ensures 0.0 < r && 0.0 < pi ==> 0.0 < v
  {
    SphereVolumeSign(r, pi);
    (4.0 * pi / 3.0) * (r * r * r)
  }

  lemma SphereVolumeSign(r: real, pi: real)
    ensures 0.0 < r && 0.0 < pi ==> 0.0 < (4.0 * pi / 3.0) * (r * r * r)
  {
    if 0.0 < r && 0.0 < pi {
      CubeSign(r);
      MulPos(4.0 * pi / 3.0, r * r * r);
    }
  }

  /** The value of `find_rDelta_eqn` once the mass inside `r` is known: that mass less
      the mass of a sphere of radius `r` at `delta` times the background density. */
  function DeltaExcess(mass: real, r: real, delta: real, background: real, pi: real): (g: real)
  {
    mass - SphereVolume(r, pi) * background * delta
  }

  /** `find_rDelta_eqn`: the mass inside `r` less the mass of a sphere of radius `r`
      at `delta` times the background density; its root is `r_Delta`. */
  function FindRDeltaEqn(r: real, delta: real, background: real, pi: real, centre: Vec3,
                         density: seq<Cube<real>>, cellsrx: seq<Cube<real>>, cellsry: seq<Cube<real>>,
                         cellsrz: seq<Cube<real>>, npatch: seq<nat>, size: real, nmax: nat): (g: real)
    requires nmax > 0 && DensityAligned(density, cellsrx, cellsry, cellsrz)
    ensures 0.0 < r && 0.0 < pi ==>
      (0.0 < g <==> MassInside(r, centre, density, cellsrx, cellsry, cellsrz, npatch, size, nmax) / SphereVolume(r, pi)
                      > delta * background)
    ensures 0.0 < r && 0.0 < pi ==>
      (g == 0.0 <==> MassInside(r, centre, density, cellsrx, cellsry, cellsrz, npatch, size, nmax) / SphereVolume(r, pi)
                       == delta * background)
  {
    var m := MassInside(r, centre, density, cellsrx, cellsry, cellsrz, npatch, size, nmax);
    if 0.0 < r && 0.0 < pi then
      DeltaExcessSign(m, r, delta, background, pi);
      DeltaExcess(m, r, delta, background, pi)
    else
      DeltaExcess(m, r, delta, background, pi)
  }

  /** The equation vanishes at `r = 0`. */
  lemma FindRDeltaEqnAtZero(delta: real, background: real, pi: real, centre: Vec3,
                            density: seq<Cube<real>>, cellsrx: seq<Cube<real>>, cellsry: seq<Cube<real>>,
                            cellsrz: seq<Cube<real>>, npatch: seq<nat>, size: real, nmax: nat)
    requires nmax > 0 && DensityAligned(density, cellsrx, cellsry, cellsrz)
    ensures FindRDeltaEqn(0.0, delta, background, pi, centre, density, cellsrx, cellsry, cellsrz, npatch, size, nmax) == 0.0
  {
    MassInsideZero(centre, density, cellsrx, cellsry, cellsrz, npatch, size, nmax);
  }

  /** For `r > 0`, the sign of the equation is the sign of the mean density inside `r`
      (`mass` over the volume of the sphere) minus `delta` times the background:
      `r_Delta` is where the mean density equals `delta * background`. */
  lemma DeltaExcessSign(mass: real, r: real, delta: real, background: real, pi: real)
    requires 0.0 < r && 0.0 < pi
    ensures 0.0 < DeltaExcess(mass, r, delta, background, pi) <==> mass / SphereVolume(r, pi) > delta * background
    ensures DeltaExcess(mass, r, delta, background, pi) == 0.0 <==> mass / SphereVolume(r, pi) == delta * background
  {
    ExcessSign(mass, SphereVolume(r, pi), delta * background, DeltaExcess(mass, r, delta, background, pi));
  }

  /** For `v > 0`, `m - v * c` has the sign of `m / v - c`. */
  lemma ExcessSign(m: real, v: real, c: real, g: real)
    requires 0.0 < v && g == m - v * c
    ensures 0.0 < g <==> m / v > c
    ensures g == 0.0 <==> m / v == c
  {
    assert g == (m / v - c) * v;
    if m / v > c {
      MulPos(m / v - c, v);
    } else if m / v < c {
      MulPos(c - m / v, v);
    }
  }

  // ---------------------------------------------------------------------------
  // Volume-weighted radial profile

  /** `np.linspace(a, b, n)`: `n` evenly spaced values from `a`, the last one `b`. */
  function Linspace(a: real, b: real, n: nat): (s: seq<real>)
    ensures |s| == n
  {
    if n == 1 then [a]
    else seq(n, i requires 0 <= i < n => a + (i as real) * ((b - a) / ((n - 1) as real)))
  }

  /** The two ends of `np.linspace`. */
  lemma LinspaceEnds(a: real, b: real, n: nat)
    requires n >= 1
    ensures Linspace(a, b, n)[0] == a
    ensures n >= 2 ==> Linspace(a, b, n)[n - 1] == b
  {
    if n >= 2 {
      var m := (n - 1) as real;
      assert Linspace(a, b, n)[n - 1] == a + m * ((b - a) / m);
      assert m * ((b - a) / m) == b - a;
    }
  }

  /** `np.linspace` steps evenly by `(b - a) / (n - 1)`. */
  lemma LinspaceStep(a: real, b: real, n: nat, i: nat)
    requires n >= 2 && i + 1 < n
    ensures Linspace(a, b, n)[i + 1] - Linspace(a, b, n)[i] == (b - a) / ((n - 1) as real)
  {
    var st := (b - a) / ((n - 1) as real);
    assert (i + 1) as real * st == i as real * st + st;
  }

  /** For `a < b` the values of `np.linspace` increase strictly. */
  lemma LinspaceIncreasing(a: real, b: real, n: nat, i: nat, j: nat)
    requires a < b && i < j < n
    ensures Linspace(a, b, n)[i] < Linspace(a, b, n)[j]
  {
    var st := (b - a) / ((n - 1) as real);
    assert 0.0 < st;
    assert j as real * st == i as real * st + (j - i) as real * st;
    MulPos((j - i) as real, st);
  }

  /** For `a <= b` every value of `np.linspace` lies in `[a, b]`. */
  lemma LinspaceWithin(a: real, b: real, n: nat, i: nat)
    requires a <= b && i < n
    ensures a <= Linspace(a, b, n)[i] <= b
  {
    if n >= 2 {
      var m := (n - 1) as real;
      var st := (b - a) / m;
      assert 0.0 <= st;
      MulNonNeg(i as real, st);
      MulNonNeg((n - 1 - i) as real, st);
      assert m * st == b - a;
      assert m * st == i as real * st + (n - 1 - i) as real * st;
    }
  }

  /** The number of bins `bin_bounds` delimits. */
  function NBins(bounds: seq<real>): (n: nat)
  {
    if |bounds| == 0 then 0 else |bounds| - 1
  }

  /** `(bin_bounds[1:] + bin_bounds[:-1]) / 2`: the midpoint of each bin. */
  function BinCentres(bounds: seq<real>): (c: seq<real>)
    ensures |c| == NBins(bounds)
  {
    seq(NBins(bounds), t requires 0 <= t < NBins(bounds) => (bounds[t + 1] + bounds[t]) / 2.0)
  }

  /** The centre of a bin lies strictly inside it. */
  lemma BinCentreInside(bounds: seq<real>, t: nat)
    requires t + 1 < |bounds| && bounds[t] < bounds[t + 1]
    ensures bounds[t] < BinCentres(bounds)[t] < bounds[t + 1]
  {
  }

  /** The bin bounds: `np.linspace(rmin, rmax, nbins + 1)`, or for logarithmic bins the
      values `logBounds` of `np.logspace(log10(rmin), log10(rmax), nbins + 1)`. */
  function BinBounds(rmin: real, rmax: real, nbins: nat, logbins: bool, logBounds: seq<real>): (b: seq<real>)
    ensures logbins ==> b == logBounds
    ensures !logbins ==> |b| == nbins + 1 && b[0] == rmin && (nbins >= 1 ==> b[nbins] == rmax)
    ensures !logbins && 0.0 <= rmin < rmax ==> ValidBounds(b, rmin)
  {
    if logbins then logBounds
    else
      LinspaceEnds(rmin, rmax, nbins + 1);
      if 0.0 <= rmin < rmax then
        LinspaceValid(rmin, rmax, nbins);
        Linspace(rmin, rmax, nbins + 1)
      else
        Linspace(rmin, rmax, nbins + 1)
  }

  /** The inputs of `radial_profile_vw` other than the bins. */
  datatype ProfileData = ProfileData(field: seq<Cube<real>>, centre: Vec3, cellsrx: seq<Cube<real>>,
                                     cellsry: seq<Cube<real>>, cellsrz: seq<Cube<real>>, npatch: seq<nat>,
                                     size: real, nmax: nat)

  /** The field and the position fields have the same patches and shapes, and every
      patch has a level. */
  predicate ProfileAligned(d: ProfileData)
  {
    d.nmax > 0 &&
    |d.cellsrx| == |d.field| && |d.cellsry| == |d.field| && |d.cellsrz| == |d.field| &&
    |d.field| <= |CreateVectorLevels(d.npatch)| &&
    forall p :: 0 <= p < |d.field| ==>
      SameShape(d.field[p], d.cellsrx[p]) && SameShape(d.cellsrx[p], d.cellsry[p]) && SameShape(d.cellsrx[p], d.cellsrz[p])
  }

  /** A list of per-patch masks shaped like the position fields. */
  predicate MaskFor(m: seq<Cube<bool>>, cells: seq<Cube<real>>)
  {
    |m| == |cells| && forall p :: 0 <= p < |m| ==> SameShape(m[p], cells[p])
  }

  /** `cell_volume` of patch `p`: the volume of a cell at the patch's level. */
  function PatchCellVolume(d: ProfileData, p: nat): (v: real)
    requires ProfileAligned(d) && p < |d.field|
  {
    CellVolume(CreateVectorLevels(d.npatch)[p], d.size, d.nmax)
  }

  /** `field_vw`: the field times the cell volume of each patch's level. */
  function FieldVW(d: ProfileData): (r: seq<Cube<real>>)
    requires ProfileAligned(d)
    ensures |r| == |d.field|
    ensures forall p :: 0 <= p < |r| ==> SameShape(r[p], d.cellsrx[p])
  {
    seq(|d.field|, p requires 0 <= p < |d.field| => Scale(d.field[p], PatchCellVolume(d, p)))
  }

  /** The cells inside the first bound: `mask_sphere(rmin)` for `rmin > 0`, none otherwise. */
  function StartMask(rmin: real, d: ProfileData): (m: seq<Cube<bool>>)
    requires ProfileAligned(d)
    ensures MaskFor(m, d.cellsrx)
  {
    if rmin > 0.0 then MaskSphere(rmin, d.centre, d.cellsrx, d.cellsry, d.cellsrz)
    else seq(|d.field|, p requires 0 <= p < |d.field| => Falses(d.cellsrx[p]))
  }

  /** `cells_outer` after `t` bins: the start mask, then the sphere of each bound. */
  function Edge(t: nat, bounds: seq<real>, rmin: real, d: ProfileData): (m: seq<Cube<bool>>)
    requires ProfileAligned(d) && (t == 0 || t < |bounds|)
    ensures MaskFor(m, d.cellsrx)
  {
    if t == 0 then StartMask(rmin, d) else MaskSphere(bounds[t], d.centre, d.cellsrx, d.cellsry, d.cellsrz)
  }

  /** `shell_mask`: the cells in exactly one of the two masks. */
  function ShellMask(inner: seq<Cube<bool>>, outer: seq<Cube<bool>>, cells: seq<Cube<real>>): (m: seq<Cube<bool>>)
    requires MaskFor(inner, cells) && MaskFor(outer, cells)
    ensures MaskFor(m, cells)
    ensures forall p :: 0 <= p < |m| ==> m[p] == Xor(inner[p], outer[p])
  {
    seq(|inner|, p requires 0 <= p < |inner| =>
      SameShapeSymmetric(outer[p], cells[p]);
      SameShapeTransitive(inner[p], cells[p], outer[p]);
      Xor(inner[p], outer[p]))
  }

  lemma MaskForShapes(f: seq<Cube<real>>, m: seq<Cube<bool>>, cells: seq<Cube<real>>)
    requires MaskFor(m, cells) && |f| == |cells|
    requires forall p :: 0 <= p < |f| ==> SameShape(f[p], cells[p])
    ensures forall p :: 0 <= p < |m| ==> SameShape(f[p], m[p])
  {
    forall p | 0 <= p < |m| ensures SameShape(f[p], m[p]) {
      SameShapeSymmetric(m[p], cells[p]);
      SameShapeTransitive(f[p], cells[p], m[p]);
    }
  }

  /** The volume-weighted field of each patch, zero outside the shell. */
  function ShellFieldCubes(fieldVW: seq<Cube<real>>, shell: seq<Cube<bool>>, cells: seq<Cube<real>>): (r: seq<Cube<real>>)
    requires MaskFor(shell, cells) && |fieldVW| == |cells|
    requires forall p :: 0 <= p < |fieldVW| ==> SameShape(fieldVW[p], cells[p])
    ensures |r| == |shell|
    ensures forall p :: 0 <= p < |r| ==> SameShape(fieldVW[p], shell[p]) && r[p] == Mask(fieldVW[p], shell[p])
  {
    MaskForShapes(fieldVW, shell, cells);
    seq(|shell|, p requires 0 <= p < |shell| => Mask(fieldVW[p], shell[p]))
  }

  /** `sum_field_vw`: the volume-weighted field summed over the shell. */
  function ShellFieldSum(fieldVW: seq<Cube<real>>, shell: seq<Cube<bool>>, cells: seq<Cube<real>>): (sum: real)
    requires MaskFor(shell, cells) && |fieldVW| == |cells|
    requires forall p :: 0 <= p < |fieldVW| ==> SameShape(fieldVW[p], cells[p])
  {
    SumPatches(ShellFieldCubes(fieldVW, shell, cells))
  }

  /** The cell volume of each patch on the shell, zero outside it. */
  function ShellWeights(shell: seq<Cube<bool>>, d: ProfileData): (r: seq<Cube<real>>)
    requires ProfileAligned(d) && |shell| <= |d.field|
    ensures |r| == |shell|
    ensures forall p :: 0 <= p < |r| ==> r[p] == Weight(shell[p], PatchCellVolume(d, p))
  {
    seq(|shell|, p requires 0 <= p < |shell| => Weight(shell[p], PatchCellVolume(d, p)))
  }

  /** `sum_vw`: the volume of the shell. */
  function ShellVolume(shell: seq<Cube<bool>>, d: ProfileData): (vol: real)
    requires ProfileAligned(d) && |shell| <= |d.field|
  {
    SumPatches(ShellWeights(shell, d))
  }

  /** `sum_field_vw / sum_vw`; an empty shell (`sum_vw == 0`, where numpy gives NaN) is `None`. */
  function ShellMean(sumFieldVW: real, sumVW: real): (mean: Option<real>)
    ensures mean.Some? <==> sumVW != 0.0
    ensures mean.Some? ==> mean.value * sumVW == sumFieldVW
  {
    if sumVW == 0.0 then None else Some(sumFieldVW / sumVW)
  }

  /** The shell of bin `t`: the cells between bounds `t` and `t + 1`. */
  function Shell(t: nat, bounds: seq<real>, rmin: real, d: ProfileData): (m: seq<Cube<bool>>)
    requires ProfileAligned(d) && t + 1 < |bounds|
    ensures MaskFor(m, d.cellsrx)
  {
    ShellMask(Edge(t, bounds, rmin, d), Edge(t + 1, bounds, rmin, d), d.cellsrx)
  }

  /** The profile value of bin `t`. */
  function ShellValue(t: nat, bounds: seq<real>, rmin: real, d: ProfileData): (v: Option<real>)
    requires ProfileAligned(d) && t + 1 < |bounds|
    ensures v.Some? <==> ShellVolume(Shell(t, bounds, rmin, d), d) != 0.0
  {
    var shell := Shell(t, bounds, rmin, d);
    ShellMean(ShellFieldSum(FieldVW(d), shell, d.cellsrx), ShellVolume(shell, d))
  }

  /** One step of the walk over the bins computes `ShellValue`. */
  lemma ShellValueSides(t: nat, bounds: seq<real>, rmin: real, d: ProfileData, fieldVW: seq<Cube<real>>,
                        inner: seq<Cube<bool>>, outer: seq<Cube<bool>>)
    requires ProfileAligned(d) && t + 1 < |bounds|
    requires fieldVW == FieldVW(d) && inner == Edge(t, bounds, rmin, d)
    requires outer == MaskSphere(bounds[t + 1], d.centre, d.cellsrx, d.cellsry, d.cellsrz)
    ensures MaskFor(inner, d.cellsrx) && MaskFor(outer, d.cellsrx) && outer == Edge(t + 1, bounds, rmin, d)
    ensures ShellValue(t, bounds, rmin, d)
         == ShellMean(ShellFieldSum(fieldVW, ShellMask(inner, outer, d.cellsrx), d.cellsrx),
                      ShellVolume(ShellMask(inner, outer, d.cellsrx), d))
  {
  }

  /** The result of `radial_profile_vw`: the bin centres and one value per bin. */
  datatype Profile = Profile(centres: seq<real>, values: seq<Option<real>>)

  /** The error `radial_profile_vw` raises: with no patches, both sums of the loop body are
      Python's integer `0`, and `0 / 0` raises `ZeroDivisionError` instead of giving NaN. */
  datatype ProfileError = ZeroDivisionError

  /** The value of every bin. */
  function ProfileValues(bounds: seq<real>, rmin: real, d: ProfileData): (v: seq<Option<real>>)
    requires ProfileAligned(d)
    ensures |v| == NBins(bounds)
  {
    seq(NBins(bounds), t requires 0 <= t < NBins(bounds) => ShellValue(t, bounds, rmin, d))
  }

  lemma PrefixExtend<T>(s: seq<T>, t: nat)
    requires t < |s|
    ensures s[..t + 1] == s[..t] + [s[t]]
  {
  }

  lemma PrefixAll<T>(s: seq<T>)
    ensures s[..|s|] == s
  {
  }

  /** The profile `radial_profile_vw` computes over the bins `bounds`. */
  function RadialProfile(bounds: seq<real>, rmin: real, d: ProfileData): (r: Profile)
    requires ProfileAligned(d)
    ensures |r.centres| == |r.values| == NBins(bounds)
  {
    Profile(BinCentres(bounds), ProfileValues(bounds, rmin, d))
  }

  /** One pass of the loop of `radial_profile_vw`: the sphere of the next bound becomes
      the outer mask, and the shell between it and the previous one gives the bin's value,
      appended to the profile. */
  method ProfileStep(t: nat, bounds: seq<real>, rmin: real, d: ProfileData, fieldVW: seq<Cube<real>>,
                     cellsInner: seq<Cube<bool>>, profile: seq<Option<real>>)
    returns (cellsOuter: seq<Cube<bool>>, profile': seq<Option<real>>)
    requires ProfileAligned(d) && t + 1 < |bounds|
    requires fieldVW == FieldVW(d) && cellsInner == Edge(t, bounds, rmin, d)
    requires profile == ProfileValues(bounds, rmin, d)[..t]
    ensures cellsOuter == Edge(t + 1, bounds, rmin, d)
    ensures profile' == ProfileValues(bounds, rmin, d)[..t + 1]
  {
    cellsOuter := MaskSphere(bounds[t + 1], d.centre, d.cellsrx, d.cellsry, d.cellsrz);
    ShellValueSides(t, bounds, rmin, d, fieldVW, cellsInner, cellsOuter);
    var shellMask := ShellMask(cellsInner, cellsOuter, d.cellsrx);
    var sumFieldVW := ShellFieldSum(fieldVW, shellMask, d.cellsrx);
    var sumVW := ShellVolume(shellMask, d);
    PrefixExtend(ProfileValues(bounds, rmin, d), t);
    profile' := profile + [ShellMean(sumFieldVW, sumVW)];
  }

  /** The loop of `radial_profile_vw`: walks the bins outwards, keeping the sphere of the
      previous bound as the inner mask of the next shell. */
  method WalkBins(bounds: seq<real>, rmin: real, d: ProfileData) returns (profile: seq<Option<real>>)
    requires ProfileAligned(d)
    ensures profile == ProfileValues(bounds, rmin, d)
  {
    var fieldVW := FieldVW(d);
    var cellsOuter := StartMask(rmin, d);
    profile := [];
    for t := 0 to NBins(bounds)
      invariant cellsOuter == Edge(t, bounds, rmin, d)
      invariant profile == ProfileValues(bounds, rmin, d)[..t]
    {
      cellsOuter, profile := ProfileStep(t, bounds, rmin, d, fieldVW, cellsOuter, profile);
    }
    PrefixAll(ProfileValues(bounds, rmin, d));
  }

  /** `radial_profile_vw`: rejects `rmax <= rmin`, and `rmin <= 0` with logarithmic bins;
      raises `ZeroDivisionError` in the first pass of the loop when there is a bin but no
      patch; otherwise the bin centres and the value of every bin. */
  method RadialProfileVW(field: seq<Cube<real>>, centre: Vec3, rmin: real, rmax: real, nbins: nat,
                         logbins: bool, logBounds: seq<real>, cellsrx: seq<Cube<real>>,
                         cellsry: seq<Cube<real>>, cellsrz: seq<Cube<real>>, npatch: seq<nat>,
                         size: real, nmax: nat) returns (r: Result<Option<Profile>, ProfileError>)
    requires ProfileAligned(ProfileData(field, centre, cellsrx, cellsry, cellsrz, npatch, size, nmax))
    ensures r == Success(None) <==> (rmax <= rmin || (logbins && rmin <= 0.0))
    ensures r.Failure? <==> (rmin < rmax && !(logbins && rmin <= 0.0) && |field| == 0 &&
                             NBins(BinBounds(rmin, rmax, nbins, logbins, logBounds)) >= 1)
    ensures r.Success? && r.value.Some? ==>
      r.value.value == RadialProfile(BinBounds(rmin, rmax, nbins, logbins, logBounds), rmin,
                                     ProfileData(field, centre, cellsrx, cellsry, cellsrz, npatch, size, nmax))
  {
    if !(rmax > rmin) {
      return Success(None);
    }
    if logbins && !(rmin > 0.0) {
      return Success(None);
    }
    var d := ProfileData(field, centre, cellsrx, cellsry, cellsrz, npatch, size, nmax);
    var bounds := BinBounds(rmin, rmax, nbins, logbins, logBounds);
    var centres := BinCentres(bounds);
    if |field| == 0 && NBins(bounds) >= 1 {
      return Failure(ZeroDivisionError);
    }
    var profile := WalkBins(bounds, rmin, d);
    r := Success(Some(Profile(centres, profile)));
  }

  // Properties of the profile.

  /** Cell `(i, j, k)` of patch `p` exists. */
  predicate IsCell(d: ProfileData, p: nat, i: nat, j: nat, k: nat)
  {
    p < |d.cellsrx| && i < |d.cellsrx[p]| && j < |d.cellsrx[p][i]| && k < |d.cellsrx[p][i][j]|
  }

  /** The squared distance of a cell to the centre. */
  function CellDist2(d: ProfileData, p: nat, i: nat, j: nat, k: nat): (d2: real)
    requires ProfileAligned(d) && IsCell(d, p, i, j, k)
  {
    Dist2(d.centre, d.cellsrx[p][i][j][k], d.cellsry[p][i][j][k], d.cellsrz[p][i][j][k])
  }

  lemma SquareMono(x: real, y: real)
    requires 0.0 <= x <= y
    ensures x * x <= y * y
  {
    MulNonNeg(y - x, y + x);
  }

  /** Bin bounds that start at `rmin >= 0` and increase strictly, as `np.linspace` and
      `np.logspace` give for `0 <= rmin < rmax`. */
  ghost predicate ValidBounds(bounds: seq<real>, rmin: real)
  {
    |bounds| >= 1 && bounds[0] == rmin && 0.0 <= rmin &&
    forall s, t :: 0 <= s < t < |bounds| ==> bounds[s] < bounds[t]
  }

  /** Linear bins from `0 <= rmin < rmax` are valid bounds ending at `rmax`. */
  lemma LinspaceValid(rmin: real, rmax: real, nbins: nat)
    requires 0.0 <= rmin < rmax
    ensures ValidBounds(Linspace(rmin, rmax, nbins + 1), rmin)
    ensures nbins >= 1 ==> Linspace(rmin, rmax, nbins + 1)[nbins] == rmax
  {
    LinspaceEnds(rmin, rmax, nbins + 1);
    var b := Linspace(rmin, rmax, nbins + 1);
    forall s, t | 0 <= s < t < |b|
      ensures b[s] < b[t]
    {
      LinspaceIncreasing(rmin, rmax, nbins + 1, s, t);
    }
  }

  /** The outer mask after `t` bins holds exactly the cells closer to the centre than
      bound `t`; for `rmin == 0` the start mask is empty, as no cell is closer than 0. */
  lemma EdgeCell(t: nat, bounds: seq<real>, rmin: real, d: ProfileData, p: nat, i: nat, j: nat, k: nat)
    requires ProfileAligned(d) && ValidBounds(bounds, rmin) && t < |bounds| && IsCell(d, p, i, j, k)
    ensures Edge(t, bounds, rmin, d)[p][i][j][k] <==> CellDist2(d, p, i, j, k) < bounds[t] * bounds[t]
  {
  }

  /** A squared distance `x` falls in bin `t`: between the squares of its bounds. */
  predicate InBin(t: nat, bounds: seq<real>, x: real)
    requires t + 1 < |bounds|
  {
    bounds[t] * bounds[t] <= x < bounds[t + 1] * bounds[t + 1]
  }

  /** The shell of bin `t` holds exactly the cells whose distance to the centre lies in
      `[bounds[t], bounds[t + 1])`. */
  lemma ShellCell(t: nat, bounds: seq<real>, rmin: real, d: ProfileData, p: nat, i: nat, j: nat, k: nat)
    requires ProfileAligned(d) && ValidBounds(bounds, rmin) && t + 1 < |bounds| && IsCell(d, p, i, j, k)
    ensures Shell(t, bounds, rmin, d)[p][i][j][k] <==> InBin(t, bounds, CellDist2(d, p, i, j, k))
  {
    BoundsStep(bounds, rmin, t);
    SquareMono(bounds[t], bounds[t + 1]);
    EdgeCell(t, bounds, rmin, d, p, i, j, k);
    EdgeCell(t + 1, bounds, rmin, d, p, i, j, k);
    ShellXor(t, bounds, rmin, d, p, i, j, k);
    var a, b, c := Edge(t, bounds, rmin, d)[p][i][j][k], Edge(t + 1, bounds, rmin, d)[p][i][j][k],
                   Shell(t, bounds, rmin, d)[p][i][j][k];
    XorBand(a, b, c, CellDist2(d, p, i, j, k), bounds[t] * bounds[t], bounds[t + 1] * bounds[t + 1]);
  }

  /** Consecutive bounds are non-negative and increase. */
  lemma BoundsStep(bounds: seq<real>, rmin: real, t: nat)
    requires ValidBounds(bounds, rmin) && t + 1 < |bounds|
    ensures 0.0 <= bounds[t] < bounds[t + 1]
  {
    if t > 0 {
      assert bounds[0] < bounds[t];
    }
    assert bounds[t] < bounds[t + 1];
  }

  /** A cell is in the shell when it is in exactly one of the two edge masks. */
  lemma ShellXor(t: nat, bounds: seq<real>, rmin: real, d: ProfileData, p: nat, i: nat, j: nat, k: nat)
    requires ProfileAligned(d) && t + 1 < |bounds| && IsCell(d, p, i, j, k)
    ensures Shell(t, bounds, rmin, d)[p][i][j][k]
         == (Edge(t, bounds, rmin, d)[p][i][j][k] != Edge(t + 1, bounds, rmin, d)[p][i][j][k])
  {
    assert Shell(t, bounds, rmin, d)[p] == Xor(Edge(t, bounds, rmin, d)[p], Edge(t + 1, bounds, rmin, d)[p]);
  }

  lemma XorBand(a: bool, b: bool, c: bool, x: real, lo: real, hi: real)
    requires (a <==> x < lo) && (b <==> x < hi) && lo <= hi && c == (a != b)
    ensures c <==> lo <= x < hi
  {
  }

  /** No squared distance falls in two bins. */
  lemma BinsDisjoint(s: nat, t: nat, bounds: seq<real>, rmin: real, x: real)
    requires ValidBounds(bounds, rmin) && s < t && t + 1 < |bounds|
    ensures !(InBin(s, bounds, x) && InBin(t, bounds, x))
  {
    assert 0.0 <= bounds[s + 1] <= bounds[t] by {
      assert bounds[0] < bounds[s + 1];
      if s + 1 < t {
        assert bounds[s + 1] < bounds[t];
      }
    }
    SquareMono(bounds[s + 1], bounds[t]);
  }

  /** No cell lies in two shells. */
  lemma ShellsDisjoint(s: nat, t: nat, bounds: seq<real>, rmin: real, d: ProfileData,
                       p: nat, i: nat, j: nat, k: nat)
    requires ProfileAligned(d) && ValidBounds(bounds, rmin) && s < t && t + 1 < |bounds| && IsCell(d, p, i, j, k)
    ensures !(Shell(s, bounds, rmin, d)[p][i][j][k] && Shell(t, bounds, rmin, d)[p][i][j][k])
  {
    ShellCell(s, bounds, rmin, d, p, i, j, k);
    ShellCell(t, bounds, rmin, d, p, i, j, k);
    BinsDisjoint(s, t, bounds, rmin, CellDist2(d, p, i, j, k));
  }

  /** Between the first and the last of a list of values, some consecutive pair
      brackets `x`. */
  lemma {:induction false} ExistsBracket(s: seq<real>, x: real)
    requires |s| >= 1 && s[0] <= x < s[|s| - 1]
    ensures exists t :: 0 <= t < |s| - 1 && s[t] <= x < s[t + 1]
  {
    var n := |s| - 1;
    if s[n - 1] <= x {
      assert s[n - 1] <= x < s[n];
    } else {
      ExistsBracket(s[..n], x);
      var t :| 0 <= t < n - 1 && s[..n][t] <= x < s[..n][t + 1];
      assert s[t] <= x < s[t + 1];
    }
  }

  /** The squares of the bounds. */
  function Squares(bounds: seq<real>): (sq: seq<real>)
    ensures |sq| == |bounds|
    ensures forall t :: 0 <= t < |sq| ==> sq[t] == bounds[t] * bounds[t]
  {
    seq(|bounds|, t requires 0 <= t < |bounds| => bounds[t] * bounds[t])
  }

  /** A cell of a shell lies at a distance in `[rmin, rmax)`, `rmax` being the last bound. */
  lemma ShellInRange(t: nat, bounds: seq<real>, rmin: real, d: ProfileData, p: nat, i: nat, j: nat, k: nat)
    requires ProfileAligned(d) && ValidBounds(bounds, rmin) && t + 1 < |bounds| && IsCell(d, p, i, j, k)
    requires Shell(t, bounds, rmin, d)[p][i][j][k]
    ensures rmin * rmin <= CellDist2(d, p, i, j, k) < bounds[|bounds| - 1] * bounds[|bounds| - 1]
  {
    ShellCell(t, bounds, rmin, d, p, i, j, k);
    ShellCoverSquares(t, bounds, rmin);
  }

  /** A cell at a distance in `[rmin, rmax)` lies in some shell. */
  lemma InRangeShell(bounds: seq<real>, rmin: real, d: ProfileData, p: nat, i: nat, j: nat, k: nat)
    requires ProfileAligned(d) && ValidBounds(bounds, rmin) && |bounds| >= 2 && IsCell(d, p, i, j, k)
    requires rmin * rmin <= CellDist2(d, p, i, j, k) < bounds[|bounds| - 1] * bounds[|bounds| - 1]
    ensures exists t :: 0 <= t < NBins(bounds) && Shell(t, bounds, rmin, d)[p][i][j][k]
  {
    var sq := Squares(bounds);
    var d2 := CellDist2(d, p, i, j, k);
    ExistsBracket(sq, d2);
    var t :| 0 <= t < |sq| - 1 && sq[t] <= d2 < sq[t + 1];
    ShellCell(t, bounds, rmin, d, p, i, j, k);
  }

  /** The shells together hold exactly the cells whose distance to the centre lies in
      `[rmin, rmax)`, `rmax` being the last bound. */
  lemma ShellsCover(bounds: seq<real>, rmin: real, d: ProfileData, p: nat, i: nat, j: nat, k: nat)
    requires ProfileAligned(d) && ValidBounds(bounds, rmin) && |bounds| >= 2 && IsCell(d, p, i, j, k)
    ensures (exists t :: 0 <= t < NBins(bounds) && Shell(t, bounds, rmin, d)[p][i][j][k])
        <==> rmin * rmin <= CellDist2(d, p, i, j, k) < bounds[|bounds| - 1] * bounds[|bounds| - 1]
  {
    if exists t :: 0 <= t < NBins(bounds) && Shell(t, bounds, rmin, d)[p][i][j][k] {
      var t :| 0 <= t < NBins(bounds) && Shell(t, bounds, rmin, d)[p][i][j][k];
      ShellInRange(t, bounds, rmin, d, p, i, j, k);
    }
    if rmin * rmin <= CellDist2(d, p, i, j, k) < bounds[|bounds| - 1] * bounds[|bounds| - 1] {
      InRangeShell(bounds, rmin, d, p, i, j, k);
    }
  }

  /** The squares of the bounds of bin `t` lie between those of the first and last bounds. */
  lemma ShellCoverSquares(t: nat, bounds: seq<real>, rmin: real)
    requires ValidBounds(bounds, rmin) && t + 1 < |bounds|
    ensures rmin * rmin <= bounds[t] * bounds[t]
    ensures bounds[t + 1] * bounds[t + 1] <= bounds[|bounds| - 1] * bounds[|bounds| - 1]
  {
    var n := |bounds| - 1;
    if t > 0 {
      assert bounds[0] < bounds[t];
    }
    assert bounds[0] < bounds[t + 1];
    if t + 1 < n {
      assert bounds[t + 1] < bounds[n];
    }
    SquareMono(rmin, bounds[t]);
    SquareMono(bounds[t + 1], bounds[n]);
  }

  /** A mask with a set cell has a positive volume when cell volumes are positive. */
  lemma ShellWeightsPos(shell: seq<Cube<bool>>, d: ProfileData, p: nat, i: nat, j: nat, k: nat)
    requires ProfileAligned(d) && MaskFor(shell, d.cellsrx) && d.size > 0.0
    requires IsCell(d, p, i, j, k) && shell[p][i][j][k]
    ensures 0.0 < SumPatches(ShellWeights(shell, d))
  {
    var w := ShellWeights(shell, d);
    forall q | 0 <= q < |w| ensures NonNeg3(w[q]) {
      WeightNonNeg(shell[q], PatchCellVolume(d, q));
    }
    assert w[p][i][j][k] == PatchCellVolume(d, p) > 0.0;
    SumPatchesPos(w, p, i, j, k);
  }

  /** A mask with no set cell has volume zero. */
  lemma ShellWeightsEmpty(shell: seq<Cube<bool>>, d: ProfileData)
    requires ProfileAligned(d) && MaskFor(shell, d.cellsrx)
    requires forall p: nat, i: nat, j: nat, k: nat :: IsCell(d, p, i, j, k) ==> !shell[p][i][j][k]
    ensures SumPatches(ShellWeights(shell, d)) == 0.0
  {
    var w := ShellWeights(shell, d);
    forall q | 0 <= q < |w| ensures Scaled3(w[q], w[q], 0.0) {
      forall i, j, k | 0 <= i < |shell[q]| && 0 <= j < |shell[q][i]| && 0 <= k < |shell[q][i][j]|
        ensures !shell[q][i][j][k]
      {
        assert IsCell(d, q, i, j, k);
      }
      WeightEmpty(shell[q], PatchCellVolume(d, q));
    }
    SumPatchesScaled(w, w, 0.0);
  }

  /** With a positive box size a bin has a value exactly when its shell holds a cell. */
  lemma ShellValueDefined(t: nat, bounds: seq<real>, rmin: real, d: ProfileData)
    requires ProfileAligned(d) && t + 1 < |bounds| && d.size > 0.0
    ensures ShellValue(t, bounds, rmin, d).Some?
        <==> exists p: nat, i: nat, j: nat, k: nat :: IsCell(d, p, i, j, k) && Shell(t, bounds, rmin, d)[p][i][j][k]
  {
    var shell := Shell(t, bounds, rmin, d);
    if exists p: nat, i: nat, j: nat, k: nat :: IsCell(d, p, i, j, k) && shell[p][i][j][k] {
      var p: nat, i: nat, j: nat, k: nat :| IsCell(d, p, i, j, k) && shell[p][i][j][k];
      ShellWeightsPos(shell, d, p, i, j, k);
    } else {
      ShellWeightsEmpty(shell, d);
    }
  }

  lemma DivBetween(a: real, b: real, lo: real, hi: real)
    requires 0.0 < b && lo * b <= a <= hi * b
    ensures lo <= a / b <= hi
  {
    var m := a / b;
    assert m * b == a;
    assert 0.0 <= (m - lo) * b;
    assert 0.0 <= (hi - m) * b;
  }

  /** The mean of sums bounded patch by patch by non-negative weights lies between the bounds. */
  lemma MeanOfSums(f: seq<Cube<real>>, w: seq<Cube<real>>, l: seq<Cube<real>>, h: seq<Cube<real>>,
                   lo: real, hi: real)
    requires |f| == |w| == |l| == |h|
    requires forall p :: 0 <= p < |f| ==> NonNeg3(w[p]) && Leq3(l[p], f[p]) && Leq3(f[p], h[p])
    requires forall p :: 0 <= p < |f| ==> Scaled3(l[p], w[p], lo) && Scaled3(h[p], w[p], hi)
    ensures ShellMean(SumPatches(f), SumPatches(w)).Some? ==>
              lo <= ShellMean(SumPatches(f), SumPatches(w)).value <= hi
  {
    var sf := SumPatches(f);
    var sw := SumPatches(w);
    SumPatchesBetween(f, w, l, h, lo, hi);
    SumPatchesNonNeg(w);
    if sw != 0.0 {
      DivBetween(sf, sw, lo, hi);
    }
  }

  /** The value of a bin is a volume-weighted mean: it lies between any bounds of the field. */
  lemma ShellValueBetween(t: nat, bounds: seq<real>, rmin: real, d: ProfileData, lo: real, hi: real)
    requires ProfileAligned(d) && t + 1 < |bounds| && 0.0 <= d.size
    requires forall p: nat, i: nat, j: nat, k: nat :: IsCell(d, p, i, j, k) ==> lo <= d.field[p][i][j][k] <= hi
    ensures ShellValue(t, bounds, rmin, d).Some? ==> lo <= ShellValue(t, bounds, rmin, d).value <= hi
  {
    var shell := Shell(t, bounds, rmin, d);
    var fieldVW := FieldVW(d);
    var f := ShellFieldCubes(fieldVW, shell, d.cellsrx);
    var w := ShellWeights(shell, d);
    var l := seq(|w|, q requires 0 <= q < |w| => Scale(w[q], lo));
    var h := seq(|w|, q requires 0 <= q < |w| => Scale(w[q], hi));
    forall q | 0 <= q < |f|
      ensures NonNeg3(w[q]) && Leq3(l[q], f[q]) && Leq3(f[q], h[q]) && Scaled3(l[q], w[q], lo) && Scaled3(h[q], w[q], hi)
    {
      BetweenPatch(d, shell, q, lo, hi);
      ScaleScaled(w[q], lo);
      ScaleScaled(w[q], hi);
    }
    MeanOfSums(f, w, l, h, lo, hi);
  }

  /** A constant field has that constant as the value of every bin whose shell holds a cell. */
  lemma ShellValueConstant(t: nat, bounds: seq<real>, rmin: real, d: ProfileData, v: real, p: nat, i: nat, j: nat, k: nat)
    requires ProfileAligned(d) && t + 1 < |bounds| && 0.0 < d.size
    requires forall q: nat, a: nat, b: nat, e: nat :: IsCell(d, q, a, b, e) ==> d.field[q][a][b][e] == v
    requires IsCell(d, p, i, j, k) && Shell(t, bounds, rmin, d)[p][i][j][k]
    ensures ShellValue(t, bounds, rmin, d) == Some(v)
  {
    ShellValueDefined(t, bounds, rmin, d);
    ShellValueBetween(t, bounds, rmin, d, v, v);
  }

  /** One patch of `ShellValueBetween`. */
  lemma BetweenPatch(d: ProfileData, shell: seq<Cube<bool>>, q: nat, lo: real, hi: real)
    requires ProfileAligned(d) && MaskFor(shell, d.cellsrx) && q < |shell| && 0.0 <= d.size
    requires forall p: nat, i: nat, j: nat, k: nat :: IsCell(d, p, i, j, k) ==> lo <= d.field[p][i][j][k] <= hi
    ensures var f := ShellFieldCubes(FieldVW(d), shell, d.cellsrx)[q];
            var w := ShellWeights(shell, d)[q];
            NonNeg3(w) && Leq3(Scale(w, lo), f) && Leq3(f, Scale(w, hi))
  {
    var cv := PatchCellVolume(d, q);
    var fq := d.field[q];
    SameShapeSymmetric(shell[q], d.cellsrx[q]);
    SameShapeTransitive(fq, d.cellsrx[q], shell[q]);
    forall i, j, k | 0 <= i < |fq| && 0 <= j < |fq[i]| && 0 <= k < |fq[i][j]|
      ensures lo <= fq[i][j][k] <= hi
    {
      assert IsCell(d, q, i, j, k);
    }
    MaskedAbove(fq, shell[q], cv, lo);
    MaskedBelow(fq, shell[q], cv, hi);
    WeightNonNeg(shell[q], cv);
    assert FieldVW(d)[q] == Scale(fq, cv);
  }

  /** With linear bins the centre of each bin lies strictly inside it. */
  lemma LinearCentresInside(rmin: real, rmax: real, nbins: nat, t: nat)
    requires rmin < rmax && t < nbins
    ensures var b := Linspace(rmin, rmax, nbins + 1);
            b[t] < BinCentres(b)[t] < b[t + 1]
  {
    LinspaceIncreasing(rmin, rmax, nbins + 1, t, t + 1);
    BinCentreInside(Linspace(rmin, rmax, nbins + 1), t);
  }
}
