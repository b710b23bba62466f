# masclet patch geometry and field reductions, in Dafny

This project models the core of `masclet_framework`, a Python toolkit for the output of
the MASCLET adaptive-mesh cosmological code, and proves properties of that model. The
modelled part covers:

- the patch hierarchy: the level of every patch, and the grid and comoving position of
  a patch's left corner;
- the per-cell position fields of a patch;
- the eight vertices of a patch's bounding box, in the geometric form and read back from
  the position fields;
- spherical masks;
- cleaning a field of refined and overlapping cells;
- the mass inside a sphere;
- the volume-weighted radial profile;
- the equation whose root is `r_Delta`.

Files:

- `wrappers.dfy` (module `Wrappers`): the `Option` and `Result` types.
- `cubes.dfy` (module `Cubes`): numpy 3-D arrays as `seq<seq<seq<T>>>`. It holds the
  elementwise products (`Mask`, `Scale`, `Weight`, `Xor`), exact sums, and the
  monotonicity and scaling lemmas about those sums.
- `tools.dfy` (module `Tools`): `masclet_framework/tools.py`.
- `tools_xyz.dfy` (module `ToolsXyz`): `masclet_framework/tools_xyz.py`.

Conventions:

- A field is a list of patch arrays. Patch 0 is the base grid, and the patches of level
  `l >= 1` follow level by level.
- Numbers are exact reals, so a result is the value the source's formula denotes,
  without rounding.
- A 0/1 array is a `Cube<bool>`: the masks, `cr0amr` and `solapst`. Multiplying a field
  by one is `Cubes.Mask`.
- A NaN result becomes `None`: the mean of an empty shell.
- Two functions model their exceptions as `Failure` values. For `find_absolute_grid_position`
  these are an `IndexError` or `ValueError` on a bad patch index, and the base grid's
  failure. For `radial_profile_vw` it is the `ZeroDivisionError` of a bin over no patches.
  Elsewhere, inputs on which the source would raise or broadcast are excluded by
  preconditions. Each such precondition is listed under Left out.
- π and the background density are parameters.
- The values of `np.logspace` are the parameter `logBounds`.

Where the source and its docstrings disagree, the model follows the code:

- The docstrings give two meanings for `rx` (the centre of the leftmost cell, or of the
  first cell one level coarser). The model uses the formula the code computes: the first
  cell is half a cell below `rx`.
- Applied to fields built from `(rx, ry, rz)`, the field form of `patch_vertices` puts
  the left corner a whole cell below `rx`. The geometric form of the same arguments puts
  it half a cell below. `ToolsXyz.FieldBoxLeftCorner` states both.
- `clean_field` numbers patches from `sum(npatch[0:level]) + 1`. `create_vector_levels`
  ignores `npatch[0]`. The two agree only when `npatch[0] == 0`, the MASCLET convention,
  so `ToolsXyz.CleanField` requires it.
- The `mask_sphere` docstring says a patch with no cell inside the sphere gives a plain
  `False` instead of an array. The code appends the array for every patch, so
  `ToolsXyz.MaskSphere` gives an all-false mask for such a patch.

## Model

| member | source | states |
|---|---|---|
| Tools.CreateVectorLevels | masclet_framework/tools.py:23-36 | the level table has length `1 + sum(npatch[1:])`, entry 0 is level 0, and every other entry is a level in `1 .. len(npatch) - 1` |
| Tools.LevelsBlock | masclet_framework/tools.py:34-35 | patch `q` has level `l >= 1` exactly when `1 + sum(npatch[1:l]) <= q < 1 + sum(npatch[1:l+1])`: the `npatch[l]` patches of level `l` form one block, after those of the coarser levels |
| Tools.LevelsSorted | masclet_framework/tools.py:34-35 | the levels never decrease along the patch index |
| Tools.LevelsIgnoreFirst | masclet_framework/tools.py:34 | changing `npatch[0]` never changes the level table |
| Tools.MaxLevel | masclet_framework/tools_xyz.py:161 | `levels.max()`: no patch is finer, some patch has that level, and it is 0 or a level below `len(npatch)` |
| Tools.SeqMax | masclet_framework/tools_xyz.py:161 | numpy's `max` of a non-empty list: an element of the list, and no element exceeds it |
| Tools.FindAbsoluteGridPosition | masclet_framework/tools.py:39-66 | succeeds exactly for an `ipatch` inside the level table and `patchx`, at level at least 1. An index past the level table is an `IndexError`; an index past `patchx` is the `ValueError`. A level-1 patch gets its own `(patchx, patchy, patchz)`. It terminates when every parent is one level coarser |
| Tools.GridPositionFromParent | masclet_framework/tools.py:60-64 | for a patch of level `l >= 2`, both it and its parent have a position, and each coordinate is `(patchx - 1) / 2^(l-1)` plus the parent's coordinate |
| Tools.GridPositionShift | masclet_framework/tools.py:56-64 | moving every level-1 patch by `c` base cells along x moves the grid position of every patch by exactly `c` along x, and leaves y and z unchanged |
| Tools.GridPositionShiftStep | masclet_framework/tools.py:60-64 | the recursive step of that statement: a level-2-or-finer patch with an unchanged offset moves with its parent |
| Tools.FindAbsoluteRealPosition | masclet_framework/tools.py:69-90 | fails exactly when the grid position fails, with the same error; otherwise it maps each grid coordinate `g` to `(g - nmax/2 - 1) * side / nmax` |
| Tools.GridToRealBoxEdges | masclet_framework/tools.py:89-90 | the map puts grid coordinate 1 at `-side/2` and `nmax + 1` at `side/2`: the box is centred on the origin |
| Tools.GridToRealRoundTrip | masclet_framework/tools.py:89-90 | for a non-zero side the map loses nothing: the inverse map recovers the grid coordinate |
| Tools.RealPositionLevelOne | masclet_framework/tools.py:57-59 | a level-1 patch's corner is at `(patchx - nmax/2 - 1) * side / nmax` along x |
| Tools.BoxVerticesCorners | masclet_framework/tools.py:111-124 | vertex 0 is the left corner and vertex 7 the opposite corner; with non-zero sides the eight vertices are pairwise distinct |
| Tools.BoxVertexAt | masclet_framework/tools.py:117-124 | vertex `4i + 2j + k` is the corner `left + (i, j, k) * extent` |
| Tools.LoopVertex | masclet_framework/tools.py:120-122 | the point the loop body computes for `(i, j, k)` is box vertex `4i + 2j + k` |
| Tools.PatchVertices | masclet_framework/tools.py:93-126 | the triple loop appends exactly the eight vertices of the box with left corner `(rx, ry, rz) - cs/2` and sides `(nx, ny, nz) * cs`, `cs = size / nmax / 2^level`, in `i, j, k` order |
| ToolsXyz.ComputePositionFieldOnePatch | masclet_framework/tools_xyz.py:31-59 | filling the three zero arrays cell by cell gives exactly the three `nx × ny × nz` arrays whose cell `(i, j, k)` holds `first + (i, j or k) * cs` |
| ToolsXyz.FillRow | masclet_framework/tools_xyz.py:55-58 | the innermost loop fills row `(i, j)` of the three arrays with their coordinates and leaves every other cell of the three arrays unchanged |
| ToolsXyz.OnePatchX | masclet_framework/tools_xyz.py:46-58 | the three arrays have shape `nx × ny × nz`; x at `(i, j, k)` is `rx - cs/2 + i * cs` and depends on `i` alone; the x spacing is `cs` |
| ToolsXyz.OnePatchYZ | masclet_framework/tools_xyz.py:46-58 | y at `(i, j, k)` is `ry - cs/2 + j * cs` and depends on `j` alone; z is `rz - cs/2 + k * cs` and depends on `k` alone |
| ToolsXyz.ComputePositionFields | masclet_framework/tools_xyz.py:62-87 | one entry per patch, in patch order; entry `p` is the one-patch result for patch `p`'s extent and position at the level the level table gives it |
| ToolsXyz.PositionFieldsShape | masclet_framework/tools_xyz.py:77-87 | patch `p` of `cellsrx` has shape `patchnx[p] × patchny[p] × patchnz[p]`, and `cellsry` and `cellsrz` have the same shapes |
| ToolsXyz.PatchVerticesFromFields | masclet_framework/tools_xyz.py:91-121 | the triple loop appends exactly the eight vertices of the box that starts half a spacing below cell `(0, 0, 0)`, with the x spacing `cellsrx[1,0,0] - cellsrx[0,0,0]` as cell size and the array's shape as extent, in `i, j, k` order |
| ToolsXyz.FieldBoxMatchesPatchBox | masclet_framework/tools_xyz.py:104-119 | on a patch's own position fields with `nx >= 2`, the field form reads back the true cell size. It gives the same eight vertices as the geometric form for the same level and shape, taken at cell `(0, 0, 0)` |
| ToolsXyz.FieldBoxLeftCorner | masclet_framework/tools_xyz.py:104-108 | for fields built from `(rx, ry, rz)`, the field form's left corner is `(rx, ry, rz) - cs`, where the geometric form of the same arguments gives `(rx, ry, rz) - cs/2` |
| ToolsXyz.MaskSphere | masclet_framework/tools_xyz.py:124-140 | one mask per patch that `zip` reaches, shaped like the position arrays; a cell is set exactly when its squared distance to the centre is below `R²` |
| ToolsXyz.MaskSphereZero | masclet_framework/tools_xyz.py:137-138 | radius 0 sets no cell |
| ToolsXyz.MaskSphereMonotone | masclet_framework/tools_xyz.py:137-138 | for `R1² <= R2²`, every cell set for `R1` is set for `R2` |
| ToolsXyz.CleanLevel | masclet_framework/tools_xyz.py:161 | the last kept level is `min(up_to_level, levels.max())` |
| ToolsXyz.CleanedCell | masclet_framework/tools_xyz.py:163-171 | a cleaned cell keeps its value when it is not refined (checked on the base grid and the levels below the last) and not overlapped (checked on levels `>= 1`); otherwise it is zero |
| ToolsXyz.CleanAllOnes | masclet_framework/tools_xyz.py:163-171 | with all-ones `cr0amr` and `solapst`, a kept patch is unchanged |
| ToolsXyz.KeptPatches | masclet_framework/tools_xyz.py:161-171 | patch `q` is among the first `1 + sum(npatch[1:L+1])` exactly when its level is at most `L`: coarser patches are kept, finer ones left out |
| ToolsXyz.KeptCountBound | masclet_framework/tools_xyz.py:161-171 | every kept patch exists in the level table |
| ToolsXyz.CleanedAt | masclet_framework/tools_xyz.py:165-171 | a patch of the block of level `level <= L` becomes `field * cr0amr * solapst` below `L` and `field * solapst` at `L` |
| ToolsXyz.SumToSkipsBase | masclet_framework/tools_xyz.py:166-170 | with `npatch[0] == 0`, `sum(npatch[0:h])` is `sum(npatch[1:h])`, so the loop bounds are the blocks of the level table |
| ToolsXyz.CleanRefinedLevel | masclet_framework/tools_xyz.py:166-167 | one pass of the inner loop appends the patches of one level below `L`, each cleaned of refinements and overlaps |
| ToolsXyz.CleanLastLevel | masclet_framework/tools_xyz.py:170-171 | the last loop appends the patches of level `L`, each cleaned of overlaps only |
| ToolsXyz.CleanField | masclet_framework/tools_xyz.py:143-173 | the result has `1 + sum(npatch[1:L+1])` patches, `L = min(up_to_level, levels.max())`: patch 0 is `field[0] * cr0amr[0]`, levels `1 .. L-1` are `field * cr0amr * solapst`, level `L` is `field * solapst`, and finer levels are left out |
| ToolsXyz.CellVolume | masclet_framework/tools_xyz.py:196 | `(size / nmax / 2^level)³` is non-negative for a non-negative box and positive for a positive one |
| ToolsXyz.PatchMass | masclet_framework/tools_xyz.py:200 | `density * mask * cv` on one patch: each cell's density times `cv` inside the sphere, zero outside |
| ToolsXyz.CellMasses | masclet_framework/tools_xyz.py:195-200 | one patch of cell masses per patch that `zip(density, mask, cells_volume)` reaches, each at the cell volume of the patch's level |
| ToolsXyz.MassInsideZero | masclet_framework/tools_xyz.py:195-203 | a sphere of radius 0 holds no mass |
| ToolsXyz.MassInside | masclet_framework/tools_xyz.py:176-203 | the sum of `density * mask * cv` over the patches `zip` reaches; a non-negative density in a box of non-negative size gives a non-negative mass |
| ToolsXyz.CellMassesSumNonNeg | masclet_framework/tools_xyz.py:195-203 | the summed cell masses are non-negative for a non-negative density and a box of non-negative size |
| ToolsXyz.MassInsideMonotone | masclet_framework/tools_xyz.py:195-203 | for a non-negative density, `R1² <= R2²` implies mass inside `R1` <= mass inside `R2` |
| ToolsXyz.MassInsidePositive | masclet_framework/tools_xyz.py:195-203 | a cell of positive density strictly inside the sphere makes the mass positive (non-negative density, positive box) |
| ToolsXyz.SphereVolume | masclet_framework/tools_xyz.py:285 | `(4 pi / 3) r³` is positive for positive `r` and `pi` |
| ToolsXyz.FindRDeltaEqn | masclet_framework/tools_xyz.py:280-285 | for `r > 0` the equation is positive exactly when `mass_inside(r) / ((4 pi / 3) r³) > Delta * background`, and zero exactly when they are equal |
| ToolsXyz.FindRDeltaEqnAtZero | masclet_framework/tools_xyz.py:280-285 | `find_rDelta_eqn` vanishes at `r = 0` |
| ToolsXyz.DeltaExcessSign | masclet_framework/tools_xyz.py:284-285 | for `r > 0` the equation is positive exactly when the mean density inside `r` exceeds `Delta * background`, and zero exactly when they are equal; this holds for every mass, so for the mass `mass_inside` gives |
| ToolsXyz.ExcessSign | masclet_framework/tools_xyz.py:285 | for `v > 0`, `m - v * c` is positive exactly when `m / v > c` and zero exactly when `m / v == c` |
| ToolsXyz.BinBounds | masclet_framework/tools_xyz.py:239-248 | log bins are `logBounds`; linear bins are `nbins + 1` values from `rmin` to `rmax`, strictly increasing from `rmin >= 0` when `0 <= rmin < rmax` |
| ToolsXyz.Linspace | masclet_framework/tools_xyz.py:248 | `np.linspace(a, b, n)` has `n` values |
| ToolsXyz.LinspaceEnds | masclet_framework/tools_xyz.py:248 | the first bound is `rmin`, and with two or more the last is `rmax` |
| ToolsXyz.LinspaceStep | masclet_framework/tools_xyz.py:248 | consecutive bounds differ by `(rmax - rmin) / nbins` |
| ToolsXyz.LinspaceIncreasing | masclet_framework/tools_xyz.py:248 | for `rmin < rmax` the bounds increase strictly |
| ToolsXyz.LinspaceWithin | masclet_framework/tools_xyz.py:248 | every bound lies in `[rmin, rmax]` |
| ToolsXyz.LinspaceValid | masclet_framework/tools_xyz.py:248 | for `0 <= rmin < rmax` the linear bounds start at `rmin`, increase strictly and end at `rmax` |
| ToolsXyz.BinCentres | masclet_framework/tools_xyz.py:250 | one centre per bin |
| ToolsXyz.BinCentreInside | masclet_framework/tools_xyz.py:250 | each centre, the midpoint of adjacent bounds, lies strictly inside its bin |
| ToolsXyz.LinearCentresInside | masclet_framework/tools_xyz.py:248-250 | with linear bins every centre lies strictly between its bounds |
| ToolsXyz.FieldVW | masclet_framework/tools_xyz.py:255-258 | `field_vw` has one patch per field patch, shaped like the position arrays |
| ToolsXyz.StartMask | masclet_framework/tools_xyz.py:260-263 | the first inner mask, `mask_sphere(rmin)` or all false, has one mask per patch shaped like the position arrays |
| ToolsXyz.ShellMask | masclet_framework/tools_xyz.py:270 | the shell is the cellwise XOR of the inner and outer masks |
| ToolsXyz.ShellFieldCubes | masclet_framework/tools_xyz.py:272 | `fvw * sm` per patch: the volume-weighted field on the shell, zero elsewhere |
| ToolsXyz.ShellWeights | masclet_framework/tools_xyz.py:273 | `sm * cv` per patch: the cell volume on the shell, zero elsewhere |
| ToolsXyz.ShellValueSides | masclet_framework/tools_xyz.py:268-275 | the shell the loop body builds from the previous outer mask and the new sphere is the shell of bin `t`, so the appended value is that bin's value |
| ToolsXyz.ShellMean | masclet_framework/tools_xyz.py:275 | `sum_field_vw / sum_vw` has a value exactly when `sum_vw != 0`, and then the value times `sum_vw` is `sum_field_vw`; `0 / 0` is NaN, here `None` |
| ToolsXyz.ShellValue | masclet_framework/tools_xyz.py:268-275 | bin `t` has a value exactly when the volume of its shell is non-zero |
| ToolsXyz.ProfileStep | masclet_framework/tools_xyz.py:265-275 | one pass of the loop: the new outer mask is the sphere of bound `t + 1`, and the profile grows by the value of bin `t` |
| ToolsXyz.WalkBins | masclet_framework/tools_xyz.py:260-275 | the loop over `bin_bounds[1:]` yields the value of every bin in order |
| ToolsXyz.RadialProfileVW | masclet_framework/tools_xyz.py:206-277 | no result exactly when `rmax <= rmin`, or when `logbins` is set with `rmin <= 0`; otherwise `ZeroDivisionError` exactly when there is a bin but no patch, and else the midpoints of the bounds and the value of every bin |
| ToolsXyz.RadialProfile | masclet_framework/tools_xyz.py:250-277 | as many centres as values, one per bin |
| ToolsXyz.ProfileValues | masclet_framework/tools_xyz.py:265-275 | one value per bin |
| ToolsXyz.EdgeCell | masclet_framework/tools_xyz.py:260-269 | the outer mask after `t` bins holds exactly the cells closer than bound `t` (none for `rmin = 0`) |
| ToolsXyz.ShellXor | masclet_framework/tools_xyz.py:270 | a cell is in a shell when it is in exactly one of the two masks around it |
| ToolsXyz.ShellCell | masclet_framework/tools_xyz.py:268-270 | the shell of bin `t` holds exactly the cells whose squared distance lies in `[bounds[t]², bounds[t+1]²)` |
| ToolsXyz.BinsDisjoint | masclet_framework/tools_xyz.py:248 | no squared distance lies in two bins |
| ToolsXyz.ShellsDisjoint | masclet_framework/tools_xyz.py:265-270 | no cell lies in two shells |
| ToolsXyz.ShellInRange | masclet_framework/tools_xyz.py:265-270 | a cell of a shell lies at a squared distance in `[rmin², rmax²)` |
| ToolsXyz.InRangeShell | masclet_framework/tools_xyz.py:265-270 | a cell at a squared distance in `[rmin², rmax²)` lies in some shell |
| ToolsXyz.ShellsCover | masclet_framework/tools_xyz.py:265-270 | together the shells select exactly the cells with `rmin² <= d² < rmax²` |
| ToolsXyz.ShellCoverSquares | masclet_framework/tools_xyz.py:248 | the squared bounds of every bin lie between `rmin²` and `rmax²` |
| ToolsXyz.ExistsBracket | masclet_framework/tools_xyz.py:265 | between the first and last of the bounds some adjacent pair brackets each value |
| ToolsXyz.ShellWeightsPos | masclet_framework/tools_xyz.py:273 | in a box of positive size, a shell with a cell has positive volume |
| ToolsXyz.ShellWeightsEmpty | masclet_framework/tools_xyz.py:273 | a shell with no cell has volume zero |
| ToolsXyz.ShellValueDefined | masclet_framework/tools_xyz.py:272-275 | in a box of positive size a bin has a value exactly when its shell holds a cell; otherwise `0 / 0` is NaN, here `None` |
| ToolsXyz.ShellValueBetween | masclet_framework/tools_xyz.py:272-275 | the value of a bin is a volume-weighted mean: a field bounded by `[lo, hi]` on every cell gives a value in `[lo, hi]` |
| ToolsXyz.ShellValueConstant | masclet_framework/tools_xyz.py:272-275 | on a shell that holds a cell, a constant field gives that constant |
| ToolsXyz.BetweenPatch | masclet_framework/tools_xyz.py:272-273 | on one patch the weights are non-negative and the weighted field lies between `lo` and `hi` times the weights |
| ToolsXyz.MeanOfSums | masclet_framework/tools_xyz.py:272-275 | a sum bounded cellwise by `lo` and `hi` times non-negative weights has a mean over the summed weights in `[lo, hi]` |
| ToolsXyz.SnapshotIsAxisCube | masclet_framework/tools_xyz.py:59 | the arrays, once filled, hold exactly the coordinate of every cell |

## Left out

- `multiprocessing.Pool` and `ncores` (tools_xyz.py:78-81): `compute_position_fields` is the sequential map over the patches, in patch order. No parallel schedule changes it.
- `find_rDelta`: the call to `scipy.optimize.brentq` and its NaN fallback on `ValueError` are a foreign numerical root finder, so they are left out. Only the equation `find_rDelta_eqn` is modelled.
- `cosmo_tools.background_density` is not part of this model. The background density is a parameter of the equation.
- `np.pi` becomes a parameter `pi`; its sign lemma needs only `pi > 0`.
- Logarithmic bins: `np.logspace` and `np.log10` are transcendental. Their values are the parameter `logBounds`. Only the guard `rmin > 0` is modelled. The shell lemmas hold for any strictly increasing bounds that start at `rmin >= 0` (`ValidBounds`); they are proved for the linear bounds by `LinspaceValid`.
- Floating point: every number is an exact real. A zero-volume shell's NaN is `None`.
- The `verbose` and guard `print`s are output only. The guards return `None`, which is `Success(None)` in `RadialProfileVW`.
- `masclet_framework/__init__.py` is not part of this model: it only imports modules that are not shown.
- Tools.FindAbsoluteGridPosition: requires every patch of level `>= 2` to have a parent one level coarser (`ParentChain`). That requirement is what makes the source's recursion terminate. For a level-0 patch (the base grid) the model returns `Failure(RecursionLimit)`. The source fails there too, in one of two ways. If the base grid's `pare` entry names the base grid, the source recurses without end. If it names a refined patch, whose position the recursion returns, the step `2 ** (level - 1)` raises an integer (numpy `int64`, from `create_vector_levels`) to the power -1, and numpy raises `ValueError`. The model does not tell these two failures apart.
- ToolsXyz.CleanField: requires `npatch[0] == 0`, and requires `field`, `cr0amr` and `solapst` to cover the kept patches with matching shapes. Otherwise the source raises an exception or broadcasts mismatched arrays. `up_to_level` is a natural number.
- ToolsXyz.RadialProfileVW: requires the field and the three position fields to have the same number of patches and the same shapes, and at most as many patches as the level table. The source's `zip` would silently truncate, and numpy would broadcast.
- ToolsXyz.MassInside: the `zip` truncation is modelled (`MassCount`), but density and position arrays that differ in shape are required away (`DensityAligned`). numpy would broadcast them.
- ToolsXyz.PatchVerticesFromFields: requires the patch to exist in all three position fields, to have at least two cells along x, and to have at least one cell along y and z. The source raises `IndexError` on a missing patch, on a patch one cell thick along x, and on an empty array.
- Tools.FindAbsoluteGridPosition: requires `patchy`, `patchz` and `pare` to be at least as long as `patchx` (`ParentChain` holds the `pare` part). On shorter ones the source raises `IndexError` (tools.py:59-64).
- ToolsXyz.ComputePositionFields: requires `patchny`, `patchnz`, `patchrx`, `patchry` and `patchrz` to be at least as long as `patchnx`, and `patchnx` to be no longer than the level table. Otherwise the source raises `IndexError` while it builds the argument list (tools_xyz.py:80-81).
- ToolsXyz.MaskSphere: requires the three position fields of each patch to have the same shape (`Aligned`). Otherwise numpy broadcasts or raises (tools_xyz.py:137).
- Tools.Pow2: the source's `2 ** level` is computed on numpy `int64` levels (tools.py:62, tools_xyz.py:46, 196 and 256), which wraps from level 63 on. `Pow2` is unbounded. MASCLET runs use far fewer levels.
- `nmax > 0` is required wherever the cell size `size / nmax` is computed (tools.py:90 and 109, tools_xyz.py:46, 196 and 256). For `nmax == 0` the source raises `ZeroDivisionError` on Python numbers or gives `inf`/NaN on numpy ones.
- ToolsXyz.ShellValue: states only when the bin has a value. The value's relation to the sums is stated by `ShellMean`, and the bounds on it by `ShellValueBetween` and `ShellValueConstant`.
