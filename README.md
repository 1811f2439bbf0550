# Moments of binary images, modelled in Dafny

The library computes the geometric moments m_pq = sum of x^p y^q over the black pixels of a
binary 2D image, and m_pqr = sum of x^p y^q z^r over the black voxels of a 3D image, for every
order with p + q (+ r) <= 3: 10 moments in 2D, 20 in 3D. It first decomposes the image and then
adds up the contribution of each piece. There are two kinds of decomposition:

- a region quadtree or octree, whose leaves are black squares or cubes of side 2^e;
- the Spiliotis-Mertzios block decomposition, a row scan that merges equal runs into rectangles,
  with rectangles of equal x-y extent then merged across slices into cuboids.

Each decomposition has two moment engines:

- a direct engine, which multiplies per-axis power sums, either taken from a table of
  S_k(n) = 1^k + ... + n^k or from the closed form `factorG`;
- a central-moment engine, which tabulates the central moments of every piece size that can
  occur and shifts them to the origin with the parallel-axis theorem.

In 3D, a block engine falls back to the direct sum for pieces beyond a size cap.

The model has one Dafny module per source file:

| module | models |
|---|---|
| `BigMatrix` | the power-sum table |
| `Quadtree`, `Octree` | the trees, with their location codes and the bottom-up merge |
| `Spiliotis2D`, `Spiliotis3D` | the block decompositions |
| `MomentBlock2D`, `MomentBlock3D` | the direct engines on blocks |
| `MomentTree2D`, `MomentTree3D` | the direct engines on tree leaves |
| `MomentBlockNew2D`, `MomentBlockNew3D` | the central-moment engines on blocks |
| `MomentTreeNew2D`, `MomentTreeNew3D` | the central-moment engines on tree leaves |
| `Commons2D`, `Commons3D` | the list of orders and the reference moment |

Shared modules:

| module | contents |
|---|---|
| `PowerSums` | powers, power sums, and the closed forms of centred sums |
| `SetSums` | sums over finite sets, multisets of pieces, partitions |
| `CentralShift2D`, `CentralShift3D` | the parallel-axis shift |
| `Slots` | the x1-indexed array of pending blocks |
| `Outcomes` | the Python exceptions an operation can raise |

Every engine is proved to return the reference moment: the sum of x^p y^q (z^r) over the set of
black pixels (voxels). Both decompositions are proved to partition exactly that set.

The source keeps mutable state in module globals: `powers`, the central tables, `OPT_LEVEL` and
the `NUOVO`/`VECCHIO` counters. Here that state is the fields of one engine object per module,
set by its `Preprocessing` methods.

Python exceptions are results rather than preconditions. An `Outcome` or `Result` carries
`IndexError`, `KeyError`, `ValueError`, `AttributeError` or `NameError`. So a lookup outside a
table, a call before preprocessing, or an empty pixel list is modelled as the failure it raises.

Python floats in the central engines only ever hold halves and quarters: centroids
(x0 + x1) / 2 and sums of (j - 1/2)^2. They are modelled as exact `real`s, and every value the
source truncates with `int()` is proved to be an integer already.

## Model

| member | source | states |
|---|---|---|
| BigMatrix.NewIntMatrix | bigmatrix.py:14-19 | a fresh max1 x max2 matrix whose every entry is -1 (undefined) |
| BigMatrix.FillOrderZero | bigmatrix.py:35-37 | row 0 becomes S_0(n) = n for every column; the other rows are unchanged |
| BigMatrix.FillLowColumns | bigmatrix.py:39-41 | for every order k >= 1, column 0 becomes 0 and column 1 (when it exists) becomes 1; row 0 and the columns from 2 on are unchanged |
| BigMatrix.FillPowerSums | bigmatrix.py:43-47 | with row 0 and columns 0 and 1 in place, the running power p = n^k fills every entry with S_k(n) = 1^k + ... + n^k |
| BigMatrix.PowerMatrix.constructor | bigmatrix.py:31-47 | the table has maxK + 1 rows and maxN + 1 columns and entry [k, n] is S_k(n); column 1 is written only where it exists, so maxN = 0 is built too |
| BigMatrix.PowerMatrix.ValueSum | bigmatrix.py:49-50 | `matrix[k][n]` with Python indexing: defined exactly for -(maxK+1) <= k <= maxK and -(maxN+1) <= n <= maxN (IndexError otherwise), negative indices count from the end, and the value is S_k(n), never negative |
| BigMatrix.PowerMatrixAsWritten | bigmatrix.py:31-47 | the constructor as written fails with IndexError exactly when maxK >= 1 and maxN = 0 (column 1 does not exist); otherwise every entry is S_k(n) |
| Commons2D.OrdersAreAllUpToThree | commons2D.py:31-33 | the ten listed orders are exactly the pairs (p, q) with p + q <= 3, each listed once |
| Commons2D.FirstOrders | commons2D.py:31-32 | the list starts (0, 0), (1, 0), (0, 1), (1, 1), and every listed exponent is at most 3 |
| Commons2D.MomentZeroIsCount | momentBlock2D.py:46-47 | m_00 of a black set is its number of pixels |
| Commons2D.MomentOfDisjointUnion | momentBlock2D.py:32-47 | moments add over disjoint pieces, which every decomposition method relies on |
| Commons2D.RectMoment | momentBlock2D.py:34-47 | the moment of the rectangle [x0, x1] x [y0, y1] is the product of the power sums along x and along y |
| Commons2D.RectSize | momentBlock2D.py:34-39 | a non-empty rectangle holds (x1 - x0 + 1)(y1 - y0 + 1) pixels |
| Commons2D.SquareQuadrants | quadtree.py:247-254 | a square of side 2h is the union of its four quadrants of side h |
| MomentBlock2D.DifferenceIsRangeSum | momentBlock2D.py:34-43 | the extent c1 - c0 + 1 (k = 0), S_k(c1) - S_k(c0 - 1) (c0 > 0) and S_k(c1) (c0 = 0) are each the power sum of c0..c1 |
| MomentBlock2D.AxisSum | momentBlock2D.py:34-43 | one axis factor mx or my: order 0 always succeeds, a missing table raises AttributeError, an index outside the table IndexError, and on a non-negative range the factor is the power sum of that range |
| MomentBlock2D.AxisFailsAtOrderOne | momentBlock2D.py:27-43 | a block whose factors cannot be read at some order already fails at order (1, 1) |
| MomentBlock2D.BlockSumIsMoment | momentBlock2D.py:32-47 | for blocks with pairwise disjoint pixels, the sum of the products mx * my is the moment of the pixels the blocks cover |
| MomentBlock2D.MomentsOfBlocks | momentBlock2D.py:19-48 | a dictionary holding every block sum holds every moment m_pq of the covered pixels, m_00 being their number |
| MomentBlock2D.DirectEngine2D.constructor | momentBlock2D.py:11-12 | the module starts without a table |
| MomentBlock2D.DirectEngine2D.Preprocessing | momentBlock2D.py:14-17 | the new table covers 0..origsize for orders up to 3; a negative origsize raises IndexError and keeps the old table |
| MomentBlock2D.DirectEngine2D.OrderMoment | momentBlock2D.py:30-47 | fails exactly when some block's factor cannot be read (AttributeError without a table, IndexError otherwise); on anchored blocks the result is the sum of the block moments, whether or not the zero products are skipped |
| MomentBlock2D.DirectEngine2D.FillOrders | momentBlock2D.py:27-47 | each listed order's entry is replaced by its moment, the keys are kept, and the loop fails exactly when some order fails |
| MomentBlock2D.DirectEngine2D.BlockMoments | momentBlock2D.py:19-48 | fails exactly when some block cannot be read; otherwise the ten keys each hold the sum of the block moments, which for disjoint blocks is m_pq of the covered pixels |
| Commons3D.OrdersAreAllUpToThree | commons3D.py:31-34 | the twenty listed orders are exactly the triples (p, q, r) with p + q + r <= 3, each listed once |
| Commons3D.FirstOrders | commons3D.py:31-34 | the list has twenty orders, starts with (0, 0, 0) and ends with (1, 1, 1), and no exponent exceeds 3 |
| Commons3D.OrdersUpToThree | commons3D.py:31-34 | every listed order has total degree at most three |
| Commons3D.OrdersComplete | commons3D.py:31-34 | every order of total degree at most three is listed |
| Commons3D.OrdersDistinct | commons3D.py:31-34 | no order is listed twice |
| Commons3D.MomentZeroIsCount | momentBlock3D.py:64-65 | m_000 of a black set is its number of voxels |
| Commons3D.MomentOfDisjointUnion | momentBlock3D.py:34-65 | moments add over disjoint pieces |
| Commons3D.BoxMoment | momentBlock3D.py:36-65 | the moment of a box is the product of the power sums along its three axes |
| Commons3D.BoxSize | momentBlock3D.py:36-46 | a non-empty box holds (x1 - x0 + 1)(y1 - y0 + 1)(z1 - z0 + 1) voxels |
| MomentBlock3D.AxisFailsAtOrderOne3 | momentBlock3D.py:28-50 | a block whose factors cannot be read at some order already fails at order (1, 1, 1) |
| MomentBlock3D.BlockSumIsMoment3 | momentBlock3D.py:34-65 | for blocks with pairwise disjoint voxels, the sum of mx * my * mz is the moment of the voxels they cover |
| MomentBlock3D.MomentsOfBlocks3 | momentBlock3D.py:19-66 | a dictionary holding every block sum holds every moment m_pqr of the covered voxels, m_000 being their number |
| MomentBlock3D.DirectEngine3D.constructor | momentBlock3D.py:11-12 | the module starts without a table |
| MomentBlock3D.DirectEngine3D.Preprocessing | momentBlock3D.py:14-17 | the new table covers 0..origsize for orders up to 3; a negative origsize raises IndexError and keeps the old table |
| MomentBlock3D.DirectEngine3D.OrderMoment | momentBlock3D.py:31-65 | fails exactly when some block's factor cannot be read (AttributeError without a table, IndexError otherwise); on anchored blocks the result is the sum of the block moments |
| MomentBlock3D.DirectEngine3D.FillOrders | momentBlock3D.py:28-65 | each listed order's entry is replaced by its moment, the keys are kept, and the loop fails exactly when some order fails |
| MomentBlock3D.DirectEngine3D.BlockMoments | momentBlock3D.py:19-66 | fails exactly when some block cannot be read; otherwise the twenty keys each hold the sum of the block moments, which for disjoint blocks is m_pqr of the covered voxels |
| Spiliotis2D.HasEqualXY | spiliotis2D.py:41-45 | true exactly when the two blocks have the same bounds |
| Spiliotis2D.EqualXYIsSamePixels | spiliotis2D.py:41-45 | two non-empty blocks have equal bounds exactly when they cover the same pixels |
| Spiliotis2D.PixelNumCounts | spiliotis2D.py:50-54 | pixel_num of a non-empty block is its number of pixels, at least 1 |
| Spiliotis2D.PixelNumSum | spiliotis2D.py:50-54 | over disjoint non-empty blocks, the pixel_num values add up to the number of pixels covered |
| Spiliotis2D.BlockImage2D.constructor | spiliotis2D.py:62-64 | no blocks and origsize 0 |
| Spiliotis2D.BlockImage2D.AddBlock | spiliotis2D.py:66-68 | the block is appended and origsize is unchanged |
| Spiliotis2D.BlockImage2D.MaxEdge | spiliotis2D.py:85-92 | the larger of the greatest width and the greatest height of the blocks, 0 without blocks |
| Spiliotis2D.BlockImage2D.MaxPair | spiliotis2D.py:94-103 | the greatest height and the greatest width, in that order, each 0 without blocks |
| Spiliotis2D.MaxEdgeIsLargerOfPair | spiliotis2D.py:85-103 | max_edge bounds every side of every block and is a side of some block (or 0) |
| Spiliotis2D.ScannedRun | spiliotis2D.py:139-167 | a run start..x-1 of black pixels is exactly what the scan passes between the run's start and its end |
| Spiliotis2D.ExtendSlot | spiliotis2D.py:149-153 | a pending block that spans the run's columns and ends at row y - 1 grows down by the run, and the scan invariant holds after the run |
| Spiliotis2D.FlushSlot | spiliotis2D.py:154-158 | a pending block that does not fit the run is written out and its slot restarts with the run; the blocks stay disjoint and still cover the scanned pixels |
| Spiliotis2D.NewSlot | spiliotis2D.py:159-161 | an empty slot starts a block holding the run |
| Spiliotis2D.FlushPending | spiliotis2D.py:188-192 | writing out a pending block keeps the blocks disjoint and good and leaves the covered pixels unchanged |
| Spiliotis2D.CloseRun | spiliotis2D.py:144-161 | closing the run start..xe of row y (extend, flush or start a block) keeps the scan invariant and moves it past the run; origsize is unchanged |
| Spiliotis2D.ScanRow | spiliotis2D.py:139-185 | one row of the scan keeps the scan invariant, from the start of row y to the start of row y + 1; the run that reaches column SX is closed at the end of the row |
| Spiliotis2D.FlushAll | spiliotis2D.py:188-192 | after the last pending block is written out, the blocks are disjoint, good, and cover exactly the black pixels in range |
| Spiliotis2D.ExtractSliceBlocks | spiliotis2D.py:125-194 | origsize is max(SX, SY); the blocks are pairwise disjoint, each row of each block is a maximal run of the image, and together they cover exactly the black pixels in columns 0..SX and rows 0..SY |
| Spiliotis2D.ExtractBlocks | spiliotis2D.py:196-212 | an empty list raises ValueError (max of an empty list); otherwise SX and SY are the largest listed coordinates and the blocks partition the listed pixels with non-negative coordinates |
| Spiliotis2D.CheckBlocks | spiliotis2D.py:214-248 | true exactly when the blocks list every pixel as often as the image does: no toggled pixel was white and no black pixel is left |
| Spiliotis2D.ToggleBlock | spiliotis2D.py:230-238 | toggling one block removes its pixels from the remaining list, and the flag stays true exactly when all pixels toggled so far were black |
| Spiliotis2D.ToggleColumn | spiliotis2D.py:232-238 | toggling one column of a block, one pixel at a time |
| SetSums.SeqBagIsPartition | spiliotis2D.py:214-222 | for an image without repeated pixels, checkBlocks' condition holds exactly when the blocks are pairwise disjoint and cover exactly the image |
| SetSums.MaxOf | spiliotis2D.py:204-205 | the largest value of a non-empty list: it bounds every entry and is one of them |
| SetSums.MaxOver | spiliotis2D.py:99-103 | the running maximum from 0: at least 0, bounds every value, and is 0 or one of the values |
| SetSums.RemoveFirst | spiliotis2D.py:233-234 | `list.remove` takes one occurrence of the pixel away |
| Spiliotis3D.HasEqualXY | spiliotis3D.py:47-51 | true exactly when the blocks agree in x and y, whatever their depths |
| Spiliotis3D.PixelNumCounts | spiliotis3D.py:56-60 | pixel_num of a non-empty block is its number of voxels, at least 1 |
| Spiliotis3D.PixelNumSum | spiliotis3D.py:56-60 | over disjoint non-empty blocks, the pixel_num values add up to the number of voxels covered |
| Spiliotis3D.Max3 | spiliotis3D.py:131 | `max([a, b, c])`: bounds all three and is one of them |
| Spiliotis3D.BlockImage3D.constructor | spiliotis3D.py:67-69 | no blocks and origsize 0 |
| Spiliotis3D.BlockImage3D.AddBlock | spiliotis3D.py:71-73 | the block is appended and origsize is unchanged |
| Spiliotis3D.BlockImage3D.MaxTriplet | spiliotis3D.py:90-101 | the greatest width, height and depth of the blocks, in that order, each 0 without blocks |
| Spiliotis3D.SectionMember | spiliotis3D.py:138 | pixel (x, y) of the slice of depth z is black exactly when voxel (x, y, z) is |
| Spiliotis3D.LiftSlice | spiliotis3D.py:150-155 | rectangles of a slice placed at depth z stay disjoint and cover exactly the black voxels of that slice |
| Spiliotis3D.ExtractSliceBlocks | spiliotis3D.py:119-189 | origsize is max(SX, SY, z); the blocks are flat at depth z, pairwise disjoint, and cover exactly the black voxels of slice z in columns 0..SX and rows 0..SY |
| Spiliotis3D.BeforeNext | spiliotis3D.py:211-212 | the voxels before slice z + 1 are those before slice z plus slice z, which is disjoint from them |
| Spiliotis3D.MergeBack | spiliotis3D.py:220-223 | a pending block with the same x and y extent as the rectangle ends at depth z - 1, and extending it to depth z keeps the blocks disjoint and adds exactly the rectangle's voxels |
| Spiliotis3D.FlushSlot | spiliotis3D.py:225-229 | writing out one pending block keeps the blocks disjoint and in range and leaves the covered voxels unchanged |
| Spiliotis3D.PlaceSlot | spiliotis3D.py:230 | the rectangle placed in its empty slot adds exactly its voxels |
| Spiliotis3D.FlushRange | spiliotis3D.py:225-229 | slots x0..x1 are emptied into the output, the other slots are unchanged, and the covered voxels are unchanged |
| Spiliotis3D.MergeBlock | spiliotis3D.py:217-240 | one rectangle of slice z extends its slot's block when their x and y extents agree, and otherwise flushes the slots under it and takes slot x1; either way the covered voxels grow by exactly the rectangle |
| Spiliotis3D.FlushStale | spiliotis3D.py:242-249 | pending blocks ending at depth z - 1 are written out, so every pending block then ends at z; the covered voxels are unchanged |
| Spiliotis3D.SliceStep | spiliotis3D.py:217 | each rectangle of slice z is disjoint from the voxels in front of slice z and from the earlier rectangles of the slice |
| Spiliotis3D.MergeSlice | spiliotis3D.py:211-249 | one slice: afterwards the blocks written and pending cover exactly the black voxels up to and including slice z |
| Spiliotis3D.FlushAll | spiliotis3D.py:252-256 | after the last pending block is written out, the blocks are disjoint, in range, and cover the voxels covered before |
| Spiliotis3D.MergeSlices | spiliotis3D.py:206-258 | origsize is max(SX, SY, SZ); the blocks are disjoint, inside the range, and cover exactly the black voxels in it |
| Spiliotis3D.ExtractBlocks | spiliotis3D.py:191-258 | an empty list raises ValueError; otherwise SX, SY, SZ are the largest listed coordinates and the blocks partition the listed voxels with non-negative coordinates |
| Spiliotis3D.CheckBlocks | spiliotis3D.py:260-296 | true exactly when the blocks list every voxel as often as the image does |
| Spiliotis3D.ToggleBlock | spiliotis3D.py:277-286 | toggling one block removes its voxels from the remaining list, and the flag stays true exactly when all voxels toggled so far were black |
| Spiliotis3D.ToggleSheet | spiliotis3D.py:279-286 | toggling sheet x of a block, line by line |
| Spiliotis3D.ToggleLine | spiliotis3D.py:280-286 | toggling one line of a block, voxel by voxel |
| Quadtree.Parent | quadtree.py:33-41 | the parent code drops the last digit; the root has no parent |
| Quadtree.ParentOfChild | quadtree.py:33-50 | the parent of child i of a code is that code |
| Quadtree.QuadrantCover | quadtree.py:43-50 | the four children of a node cover its square |
| Quadtree.QuadrantsDisjoint | quadtree.py:43-50 | two different children of a node do not overlap |
| Quadtree.ChildCell | quadtree.py:141-153 | child i's square is the quadrant of its parent's square that the digit selects, half the side |
| Quadtree.NewNode | quadtree.py:56-72 | a node records its corner, exponent and colour, and its stored centre is the centre of its square for every exponent, including the one-pixel node |
| Quadtree.Side | quadtree.py:74-75 | the side of a node's square is 2^exponent, at least 1 |
| Quadtree.LeafNodeCell | quadtree.py:56-75 | the square of the leaf stored at a code is the cell the code names |
| Quadtree.PowerOfTwo | quadtree.py:84-96 | the exponent found by doubling is the least E with 2^E at least both sides |
| Quadtree.QtrTree.constructor | quadtree.py:102-132 | a new tree has the least square exponent for its sides, side 2^E, and the white root as its only leaf |
| Quadtree.QtrTree.NodeSide | quadtree.py:134-139 | the side of a node halves per level, so 2^depth nodes of a level span the domain |
| Quadtree.QtrTree.MinPixel | quadtree.py:141-153 | the lowest pixel of a code's node, decoded in code_for_pixel's layout (the one the build stores), lies in its square and is below and left of every pixel of it |
| Quadtree.QtrTree.MinPixelAsWritten | quadtree.py:141-153 | the loop as written decodes in the layout the module description documents, so against code_for_pixel's layout it returns the node's lowest pixel with x and y swapped |
| Quadtree.MinPixelSwapExample | quadtree.py:141-174 | in the 2 x 2 tree pixel (1, 0) has code [2], whose lowest pixel is (1, 0), not the (0, 1) min_pixel reports |
| Quadtree.QtrTree.CodeForPixel | quadtree.py:155-174 | the code of a pixel has one digit per level, names the one-pixel node at that pixel, and agrees with the reference encoding |
| Quadtree.CodeForPixelNeverStopsAtExponentZero | quadtree.py:155-174 | with exponent 0 the halving value is 0.5 and then 0 for ever, so the as-written loop never meets its exit test |
| Quadtree.CodeForPixelStopsAfterExponentDigits | quadtree.py:155-174 | with exponent at least 1 the as-written loop exits exactly after E digits |
| Quadtree.EncodeOfCorner | quadtree.py:155-174 | the reference encoding of a code's lowest pixel is that code: pixel to code and code to lowest pixel are inverse |
| Quadtree.CornerOfEncode | quadtree.py:141-174 | a pixel's code is a valid full-length code whose lowest pixel is that pixel again |
| Quadtree.CellOfFullCode | quadtree.py:141-174 | the node of a full-length code is the single pixel at its corner |
| Quadtree.QtrTree.NumElem | quadtree.py:176-181 | the black-leaf count is at most the number of leaves, with equality exactly when every leaf is black |
| Quadtree.QtrTree.AddPixel | quadtree.py:227-231 | a black pixel becomes the one-pixel black leaf stored under its code |
| Quadtree.QtrTree.MergeGroup | quadtree.py:247-254 | the four sibling leaves under a code are replaced by one black leaf at that code with one more level of exponent |
| Quadtree.MergedParentIsNew | quadtree.py:242-254 | the parent of a complete group of four leaves is not itself a leaf |
| Quadtree.MergeKeepsPartition | quadtree.py:247-254 | merging a complete group keeps the leaves a partition of the black pixels and removes three leaves |
| Quadtree.MergeStep | quadtree.py:237-258 | one merge, with its parent queued, keeps the build invariant and removes three leaves |
| Quadtree.InsertStep | quadtree.py:227-231 | inserting one more black pixel keeps the insertion invariant |
| Quadtree.InsertPixels | quadtree.py:225-231 | after the first pass every black pixel is a one-pixel leaf, the leaves partition the black set, and the parent of every child-0 leaf is queued |
| Quadtree.MergeCandidates | quadtree.py:237-258 | after the FIFO scan the leaves still partition the black set and no four sibling leaves are left unmerged |
| Quadtree.QuadtreeBuild | quadtree.py:211-259 | the built tree's leaves are black squares that partition the black pixels, no complete sibling group remains, and the root is a leaf exactly when every pixel of the domain is black |
| Quadtree.QuadtreeBuildAsWritten | quadtree.py:211-259 | as written, the build raises IndexError exactly when every pixel of the domain is black, and otherwise builds the same maximal partition |
| Quadtree.MergeCandidatesAsWritten | quadtree.py:237-258 | as written, the merge pass fails when it merges the root's four children, reading the last digit of the empty code |
| Quadtree.RootOfFullDomain | quadtree.py:237-258 | a maximal partition of the whole domain has the root as a leaf |
| Quadtree.LeafAreasCountPixels | quadtree.py:176-181 | the leaf areas add up to the number of black pixels |
| Quadtree.BuildQuadtree | quadtree.py:329-336 | the tree of the smallest image holding the pixels, sides one more than the largest coordinates; an empty list fails with ValueError |
| Octree.DigitBits | octree.py:163-185 | a child digit below 8 is 2 times its x half plus its y half plus 4 times its z half |
| Octree.Parent | octree.py:37-45 | the parent code drops the last digit; the root has no parent |
| Octree.ParentOfChild | octree.py:37-54 | the parent of child i of a code is that code |
| Octree.KidsAreChildren | octree.py:47-54 | the children of a code are exactly that code followed by one digit below 8 |
| Octree.KidsDistinct | octree.py:47-54 | a node has eight distinct children, none of them the node itself |
| Octree.ChildOfVoxel | octree.py:163-185 | a voxel of a node's cube lies in the cube of exactly the child that the voxel's code names at that depth |
| Octree.NewNode | octree.py:60-79 | a node records its corner, exponent and colour, and its stored centre is the centre of its cube for every exponent, including the one-voxel node |
| Octree.Side | octree.py:81-82 | the side of a node's cube is 2^exponent, at least 1 |
| Octree.LeafNodeCell | octree.py:60-82 | the cube of the leaf stored at a code is the cell the code names |
| Octree.PowerOfTwo | octree.py:90-102 | the exponent found by doubling is the least E with 2^E at least all three sides |
| Octree.OctTree.constructor | octree.py:108-139 | a new tree has the least cube exponent for its sides, side 2^E, and the white root as its only leaf |
| Octree.OctTree.NodeSide | octree.py:141-146 | the side of a node halves per level, so 2^depth nodes of a level span each axis of the domain |
| Octree.OctTree.MinVoxel | octree.py:148-161 | the lowest voxel of a code's node, decoded in code_for_pixel's layout (the one the build stores), lies in its cube and is below the other voxels of it on all three axes |
| Octree.OctTree.MinPixelAsWritten | octree.py:148-161 | the loop as written drops z, which its docstring promises, and against code_for_pixel's layout returns the node's lowest (y, x) pair |
| Octree.MinPixelExample | octree.py:148-185 | in the 2 x 2 x 2 tree voxel (1, 0, 1) has code [6], whose lowest voxel is (1, 0, 1), not the (0, 1) min_pixel reports |
| Octree.OctTree.CodeForPixel | octree.py:163-185 | the code of a voxel has one digit per level, names the one-voxel node at that voxel, and agrees with the reference encoding |
| Octree.CornerOfEncode | octree.py:148-185 | a voxel's code is a valid full-length code whose lowest voxel is that voxel again |
| Octree.EncodeOfCorner | octree.py:148-185 | the code of a full-length code's lowest voxel is that code: voxel to code and code to lowest voxel are inverse |
| Octree.CellOfFullCode | octree.py:148-185 | the node of a full-length code is the single voxel at its corner |
| Octree.OctTree.NumElem | octree.py:187-192 | the black-leaf count is at most the number of leaves, with equality exactly when every leaf is black |
| Octree.OctTree.AddVoxel | octree.py:230-236 | a black voxel becomes the one-voxel black leaf stored under its code |
| Octree.OctTree.MergeGroup | octree.py:245-258 | the eight sibling leaves under a code are replaced by one black leaf at that code with one more level of exponent |
| Octree.CompleteIsKids | octree.py:245-247 | a code is complete exactly when all eight of its children are leaves |
| Octree.MergedParentIsNew | octree.py:245-258 | the parent of a complete group of eight leaves is not itself a leaf |
| Octree.MergeKeepsPartition | octree.py:251-258 | merging a complete group keeps the leaves a partition of the black voxels and removes seven leaves |
| Octree.MergeStep | octree.py:242-259 | one merge, with its parent queued, keeps the build invariant |
| Octree.InsertStep | octree.py:230-236 | inserting one more black voxel keeps the insertion invariant |
| Octree.InsertVoxels | octree.py:229-236 | after the first pass every black voxel is a one-voxel leaf, the leaves partition the black set, and the parent of every child-0 leaf is queued |
| Octree.MergeCandidates | octree.py:240-259 | after the FIFO scan the leaves still partition the black set and no eight sibling leaves are left unmerged |
| Octree.OctreeBuild | octree.py:215-260 | the built tree's leaves are black cubes that partition the black voxels, no complete sibling group remains, and the root is a leaf exactly when every voxel of the domain is black |
| Octree.OctreeBuildAsWritten | octree.py:215-260 | as written, the build raises IndexError exactly when every voxel of the domain is black, and otherwise builds the same maximal partition |
| Octree.MergeCandidatesAsWritten | octree.py:240-259 | as written, the merge pass fails when it merges the root's eight children, reading the last digit of the empty code |
| Octree.RootOfFullDomain | octree.py:240-259 | a maximal partition of the whole domain has the root as a leaf |
| Octree.LeafVolumesCountVoxels | octree.py:187-192 | the leaf volumes add up to the number of black voxels |
| Octree.BuildOctree | octree.py:334-342 | the tree of the smallest image holding the voxels, sides one more than the largest coordinates; an empty list fails with ValueError |
| MomentTree2D.RangeSumClosed1 | momentTree2D.py:8-9 | the sum of x over side consecutive integers from coord is side coord + (side^2 - side)/2 |
| MomentTree2D.RangeSumClosed2 | momentTree2D.py:12-13 | the sum of x^2 over side consecutive integers from coord is the order-2 closed form factorG uses |
| MomentTree2D.RangeSumClosed3 | momentTree2D.py:14-17 | the sum of x^3 over side consecutive integers from coord is the order-3 closed form factorG uses |
| MomentTree2D.FactorGIsRangeSum | momentTree2D.py:4-17 | for orders 0 to 3 factorG is exactly the power sum of side consecutive integers from coord |
| MomentTree2D.FactorProduct | momentTree2D.py:46 | the product of two factorG values is the integer product of the two range sums, so int() drops nothing |
| MomentTree2D.LeafTerm | momentTree2D.py:43-46 | a leaf's term for order (p, q) is the moment of its square |
| MomentTree2D.NodeMomentIsMoment | momentTree2D.py:43-46 | the product of range sums of a node equals the moment of the pixels of its square |
| MomentTree2D.LeafSumIsMoment | momentTree2D.py:40-46 | over leaves that partition a pixel set, the leaf terms add up to that set's moment |
| MomentTree2D.AddLeaf | momentTree2D.py:45-46 | one black leaf adds its term to every listed order and leaves the other entries alone |
| MomentTree2D.SumLeaves | momentTree2D.py:40-46 | after the loop over the leaves each listed order holds the sum of the black leaves' terms |
| MomentTree2D.MomentsOfLeaves | momentTree2D.py:31-47 | for disjoint black leaves the sums are the moments of the pixels the leaves cover, and m00 is their number |
| MomentTree2D.QuadtreeMoments | momentTree2D.py:31-47 | the result has one entry per order up to 3, each the sum of the black leaves' terms, which for a well-formed tree is the moment of the black pixels |
| MomentTree3D.FactorProduct3 | momentTree3D.py:47 | the product of three factorG values is the product of the three range sums |
| MomentTree3D.LeafTerm | momentTree3D.py:44-47 | a leaf's term for order (p, q, r) is the moment of its cube |
| MomentTree3D.NodeMomentIsMoment | momentTree3D.py:44-47 | the product of range sums of a node equals the moment of the voxels of its cube |
| MomentTree3D.LeafSumIsMoment | momentTree3D.py:41-47 | over leaves that partition a voxel set, the leaf terms add up to that set's moment |
| MomentTree3D.AddLeaf | momentTree3D.py:46-47 | one black leaf adds its term to every listed order and leaves the other entries alone |
| MomentTree3D.SumLeaves | momentTree3D.py:41-47 | after the loop over the leaves each listed order holds the sum of the black leaves' terms |
| MomentTree3D.MomentsOfLeaves | momentTree3D.py:32-48 | for disjoint black leaves the sums are the moments of the voxels the leaves cover, and m000 is their number |
| MomentTree3D.OctreeMoments | momentTree3D.py:32-48 | the result has one entry per order up to 3, each the sum of the black leaves' terms, which for a well-formed tree is the moment of the black voxels |
| MomentTreeNew2D.CoversExactly | momentTreeNew2D.py:12-33 | a table of n entries built up to max_side covers exactly the exponents 0 and 1 and those whose side 2^e is at most max_side |
| MomentTreeNew2D.HalfStep | momentTreeNew2D.py:26-27 | each odd t adds (t/2)^2 to sommaQ, so sommaQ stays the sum of (j - 1/2)^2 for j up to half the edge |
| MomentTreeNew2D.EvenCentral2 | momentTreeNew2D.py:23-30 | twice the sum of (j - 1/2)^2 for j = 1..m is mu20 of the square of side 2m |
| MomentTreeNew2D.ExactEntry | momentTreeNew2D.py:30 | int(2 edge sommaQ) drops nothing: it is exactly edge mu20, the central moment mu20 of the edge x edge square |
| MomentTreeNew2D.TreeEntry | momentTreeNew2D.py:28-30 | the pair the loop appends for an even edge is mu00 = edge^2 and mu20 of the edge x edge square |
| MomentTreeNew2D.StoreSquare | momentTreeNew2D.py:29-30 | appending the entry for the next power of two keeps every table entry the central moments of its square |
| MomentTreeNew2D.DoublingStep | momentTreeNew2D.py:32-33 | prev_edge = edge and edge doubled keep edge = 2^n and prev_edge = 2^(n-1) |
| MomentTreeNew2D.AddOddSquares | momentTreeNew2D.py:26-27 | the inner loop over odd t extends sommaQ from half of prev_edge to half of edge |
| MomentTreeNew2D.SetCentralMoments | momentTreeNew2D.py:4-34 | entry e of the two tables is mu00 and mu20 = mu02 of the square of side 2^e, for sides 1, 2 and every power of two up to max_side |
| MomentTreeNew2D.WellFormedLeaves | momentTreeNew2D.py:53 | every leaf of a well-formed tree stores the centre of its square and is no larger than the domain |
| MomentTreeNew2D.ShiftIsNodeMoment | momentTreeNew2D.py:56-78 | each of the ten terms built from the tabulated central moments and the leaf's centre is the moment of the leaf's square |
| MomentTreeNew2D.ShiftIsLeafMoment | momentTreeNew2D.py:56-89 | all ten orders of a leaf's shifted terms are the moments of its square |
| MomentTreeNew2D.AddLeafToSums | momentTreeNew2D.py:80-89 | adding one more leaf's terms extends the sums over the leaves done so far by that leaf |
| MomentTreeNew2D.AddLeaf | momentTreeNew2D.py:53-89 | with correct tables, one black leaf adds the moment of its square to each of the ten orders, the int() casts dropping nothing |
| MomentTreeNew2D.SumLeaves | momentTreeNew2D.py:49-91 | the loop fails with IndexError exactly when a black leaf's exponent is beyond the tables; otherwise each order holds the sum of the black leaves' moments |
| MomentTreeNew2D.TablesCoverTree | momentTreeNew2D.py:36-38 | tables built for the side of a well-formed tree's domain reach every leaf |
| MomentTreeNew2D.TreeEngine2D.constructor | momentTreeNew2D.py:36-38 | before preprocessing no tables are set |
| MomentTreeNew2D.TreeEngine2D.Preprocessing | momentTreeNew2D.py:36-38 | preprocessing stores correct tables covering the tree's side |
| MomentTreeNew2D.TreeEngine2D.QuadtreeMoments | momentTreeNew2D.py:41-91 | NameError before preprocessing; IndexError exactly when a black leaf is beyond the tables; otherwise the ten moments of the black pixels of a well-formed tree |
| MomentTreeNew3D.EvenEntry | momentTreeNew3D.py:23-29 | for an even edge, 2 edge sommaQ is an integer equal to edge mu20 of the square |
| MomentTreeNew3D.CubeFromSquare | momentTreeNew3D.py:29 | int(2 edge^2 sommaQ) drops nothing: it is edge times the square's entry edge mu20, which is mu200 of the cube |
| MomentTreeNew3D.TreeEntry | momentTreeNew3D.py:27-29 | the pair the loop appends for an even edge is mu000 = edge^3 and mu200 of the edge x edge x edge cube |
| MomentTreeNew3D.StoreCube | momentTreeNew3D.py:28-29 | appending the entry for the next power of two keeps every table entry the central moments of its cube |
| MomentTreeNew3D.SetCentralMoments | momentTreeNew3D.py:4-33 | entry e of the two tables is mu000 and mu200 = mu020 = mu002 of the cube of side 2^e, for sides 1, 2 and every power of two up to max_side |
| MomentTreeNew3D.WellFormedLeaves | momentTreeNew3D.py:52 | every leaf of a well-formed tree stores the centre of its cube and is no larger than the domain |
| MomentTreeNew3D.ShiftIsNodeMoment | momentTreeNew3D.py:55-80 | each of the twenty moments built from the tabulated central moments and the leaf's centre is the moment of the leaf's cube |
| MomentTreeNew3D.ShiftIsLeafMoment | momentTreeNew3D.py:55-103 | all twenty orders of a leaf's shifted moments are the moments of its cube |
| MomentTreeNew3D.AddLeaf | momentTreeNew3D.py:52-103 | with correct tables, one black leaf adds the moment of its cube to each of the twenty orders |
| MomentTreeNew3D.AddLeafToSums | momentTreeNew3D.py:82-103 | adding one more leaf's moments extends the sums over the leaves done so far by that leaf |
| MomentTreeNew3D.SumLeaves | momentTreeNew3D.py:48-105 | the loop fails with IndexError exactly when a black leaf's exponent is beyond the tables; otherwise each order holds the sum of the black leaves' moments |
| MomentTreeNew3D.TablesCoverTree | momentTreeNew3D.py:47 | tables built for the side of a well-formed tree's domain reach every leaf |
| MomentTreeNew3D.OutOfTableIsBeyondSide | momentTreeNew3D.py:47-55 | with tables built for a side, a black leaf is out of the tables exactly when its exponent is above 1 and its side exceeds that side |
| MomentTreeNew3D.OctreeMoments | momentTreeNew3D.py:39-105 | the tables are rebuilt for the tree's side; IndexError exactly when a black leaf is larger than that side; a well-formed tree never fails and gets the twenty moments of its black voxels |
| MomentTreeNew3D.TreeEngine3D.constructor | momentTreeNew3D.py:35-37 | before preprocessing no tables are set |
| MomentTreeNew3D.TreeEngine3D.Preprocessing | momentTreeNew3D.py:35-37 | preprocessing stores correct tables covering the tree's side |
| MomentBlockNew2D.HalfSums | momentBlockNew2D.py:81-84 | entry f of sum_half is 0.5^2 + 1.5^2 + ... + (f - 0.5)^2, one entry per side up to the longer maximum |
| MomentBlockNew2D.FullSums | momentBlockNew2D.py:82-86 | entry f of sum_full is 1^2 + ... + f^2 |
| MomentBlockNew2D.HalfOrFullIsCentral | momentBlockNew2D.py:97-113 | twice sum_x[X // 2], half sums for even X and full sums for odd X, is mu20 of a row of X pixels, (X^3 - X)/12 |
| MomentBlockNew2D.RowEntry | momentBlockNew2D.py:107-113 | the entry stored for X x Y, X Y with 2 Y sum_x[X // 2] and 2 X sum_y[Y // 2], is mu00, mu20 and mu02 of the X x Y rectangle |
| MomentBlockNew2D.StoreEntry | momentBlockNew2D.py:74-113 | storing the central moments of one more size keeps every table entry correct |
| MomentBlockNew2D.FillFirstRow | momentBlockNew2D.py:93-100 | the first loop adds exactly the sizes X x 1 for X up to the longer maximum, each with its central moments |
| MomentBlockNew2D.FillRow | momentBlockNew2D.py:105-113 | one pass of the inner loop adds exactly the sizes X x Y for X from Y to the longer maximum, each with its central moments |
| MomentBlockNew2D.SetCentralMoments | momentBlockNew2D.py:52-134 | the tables hold exactly 1 x 1, every X x 1 and every X x Y with 2 <= Y <= less and Y <= X <= more, each with the central moments of that rectangle |
| MomentBlockNew2D.CentralMatchesBruteForce | momentBlockNew2D.py:114-133 | the tabulated mu20 and mu02 equal the sums of squared distances from the barycentre that the disabled brute-force comparison computes pixel by pixel |
| MomentBlockNew2D.Key | momentBlockNew2D.py:218-224 | a block's key is its size with the longer side first, width first on a tie |
| MomentBlockNew2D.Lookup | momentBlockNew2D.py:218-227 | the lookup fails with KeyError exactly when the key is missing; with correct tables it returns mu00, mu20, mu02 of the block, exchanged back for a tall block |
| MomentBlockNew2D.KeyPresent | momentBlockNew2D.py:218-227 | tables holding every size of a range contain every block whose sides fit that range |
| MomentBlockNew2D.BarycentreIsCentre | momentBlockNew2D.py:215-216 | the barycentre 0.5 (x0 + x1) is the centre of the block's columns |
| MomentBlockNew2D.BlockCentral | momentBlockNew2D.py:215-227 | the looked-up values and the barycentre are the central moments and the centre of the block |
| MomentBlockNew2D.ShiftIsBlockOrder | momentBlockNew2D.py:231-240 | each moment shifted from the block's central moments is the block's moment of that order |
| MomentBlockNew2D.ShiftIsBlockMoment | momentBlockNew2D.py:231-252 | all ten shifted moments of a block are its moments, so the int() casts drop nothing |
| MomentBlockNew2D.AddDirect | momentBlockNew2D.py:194-205 | the direct way fails exactly when a power sum cannot be read (AttributeError without a table, IndexError past it); otherwise every order gains the block's moment |
| MomentBlockNew2D.AddCentral | momentBlockNew2D.py:211-252 | the new way fails with KeyError exactly when the block's size is not tabulated; with correct tables every order gains the block's moment |
| MomentBlockNew2D.FallbackCount | momentBlockNew2D.py:190-207 | the number of blocks left to the direct way is at most the number of blocks and is 0 below level 2 |
| MomentBlockNew2D.DirectFailsAtOrderOne | momentBlockNew2D.py:194-205 | the direct way fails for some order exactly when one of the block's order-1 factors cannot be read |
| MomentBlockNew2D.KeysCover | momentBlockNew2D.py:145-154 | every block the new way handles has its size among the keys preprocessing tabulates for the decomposition's largest sides |
| MomentBlockNew2D.DirectReadsInTable | momentBlockNew2D.py:155 | a power-sum table up to the image size reads every block inside the image |
| MomentBlockNew2D.NoErrorAfterPreprocessing | momentBlockNew2D.py:136-207 | after preprocessing, blockMoments raises for no block of an anchored decomposition inside the image |
| MomentBlockNew2D.OnceTablesMissWideBlocks | momentBlockNew2D.py:158-168 | the tables preprocessing_once builds at level 1 stop at LIMIT, so a block with both sides above LIMIT raises KeyError at that level |
| MomentBlockNew2D.AddBlockToSums | momentBlockNew2D.py:188-252 | one more block adds its moment to every running sum |
| MomentBlockNew2D.TablesFor | momentBlockNew2D.py:145-154 | the three levels tabulate exactly the sizes of their argument to setCentralMoments, each correct |
| MomentBlockNew2D.CentralEngine2D.constructor | momentBlockNew2D.py:42-45 | the module starts at level 2 with no power table and no central tables |
| MomentBlockNew2D.CentralEngine2D.SetOptimizationLevel | momentBlockNew2D.py:47-50 | levels 0, 1 and 2 are set; any other level fails the assertion and leaves the level unchanged |
| MomentBlockNew2D.CentralEngine2D.Preprocessing | momentBlockNew2D.py:136-155 | the tables hold exactly the sizes for the largest block sides at the current level; level 2 also builds the power table up to the image size |
| MomentBlockNew2D.CentralEngine2D.PreprocessingOnce | momentBlockNew2D.py:158-168 | the power table up to max_side, then the tables for (max_side, max_side) at level 0 and (max_side, LIMIT) otherwise; a negative size fails first |
| MomentBlockNew2D.CentralEngine2D.CentralStep | momentBlockNew2D.py:211-252 | the new way for one block fails exactly with the block's error (NameError without tables, KeyError for a missing size) and otherwise adds the block's moments |
| MomentBlockNew2D.CentralEngine2D.DirectStep | momentBlockNew2D.py:192-207 | the direct way for one block fails exactly with the block's error and otherwise adds the block's moments |
| MomentBlockNew2D.CentralEngine2D.SumBlocks | momentBlockNew2D.py:188-252 | the loop succeeds exactly when no block raises, fails with the first block's error otherwise, counts the direct and new blocks, and sums the blocks' moments |
| MomentBlockNew2D.CentralEngine2D.BlockMoments | momentBlockNew2D.py:170-254 | succeeds exactly when no block raises, else raises the first failing block's error; NUOVO and VECCHIO count the two ways; for anchored disjoint blocks the ten moments are those of the pixels they cover |
| MomentBlockNew3D.Sorted3 | momentBlockNew3D.py:193 | sorted() of three sides lists the same three values in increasing order |
| MomentBlockNew3D.SortedMonotone | momentBlockNew3D.py:149-154 | raising each of three sides raises each of the sorted values, so every block's sorted sides are bounded by the sorted largest sides |
| MomentBlockNew3D.StoreEntry3 | momentBlockNew3D.py:78-131 | storing the central moments of one more size keeps every table entry correct |
| MomentBlockNew3D.LineEntry | momentBlockNew3D.py:95-102 | the entry stored for X x 1 x 1 is mu000 = X, mu200 of a row of X voxels, and 0 for mu020 and mu002 |
| MomentBlockNew3D.PlaneEntry | momentBlockNew3D.py:106-115 | the entry stored for X x Y x 1 is X Y, 2 Y sum_x[X // 2] and 2 X sum_y[Y // 2], the central moments of the X x Y x 1 cuboid, with mu002 = 0 |
| MomentBlockNew3D.BoxEntry | momentBlockNew3D.py:119-131 | the entry stored for X x Y x Z is X Y Z with 2 Y Z sum_x, 2 X Z sum_y and 2 X Y sum_z, the central moments of the X x Y x Z cuboid |
| MomentBlockNew3D.FillLine | momentBlockNew3D.py:95-102 | the first loop adds exactly the sizes X x 1 x 1 up to the longest maximum, each with its central moments |
| MomentBlockNew3D.FillFlatRow | momentBlockNew3D.py:107-115 | one inner pass adds exactly the sizes X x Y x 1 for X from Y to the longest maximum |
| MomentBlockNew3D.FillRow3 | momentBlockNew3D.py:121-131 | one innermost pass adds exactly the sizes X x Y x Z for X from Y to the longest maximum |
| MomentBlockNew3D.FillLayer | momentBlockNew3D.py:120-131 | one layer adds exactly the sizes X x Y x Z with Z <= Y <= mid and Y <= X <= more |
| MomentBlockNew3D.FillFlatRows | momentBlockNew3D.py:106-115 | the second loop adds exactly the sizes X x Y x 1 with 2 <= Y <= mid and Y <= X <= more |
| MomentBlockNew3D.FillLayers | momentBlockNew3D.py:119-131 | the third loop adds exactly the sizes X x Y x Z with 2 <= Z <= less, Z <= Y <= mid and Y <= X <= more |
| MomentBlockNew3D.KeyGroups | momentBlockNew3D.py:79-131 | the sizes of the four groups the loops fill are exactly the tabulated keys |
| MomentBlockNew3D.SetCentralMoments3 | momentBlockNew3D.py:56-134 | the tables hold exactly the sizes 1 x 1 x 1, X x 1 x 1, X x Y x 1 and X x Y x Z with sides sorted and within (more, mid, less), each with the central moments of that cuboid |
| MomentBlockNew3D.CentralMatchesBruteForce3 | momentBlockNew3D.py:63-64 | the tabulated second central moments equal the sums of squared distances of the voxels from the barycentre |
| MomentBlockNew3D.Key3 | momentBlockNew3D.py:226-267 | whichever of the six branches a block takes, its key is its three sizes in decreasing order |
| MomentBlockNew3D.Lookup3 | momentBlockNew3D.py:226-267 | the lookup fails with KeyError exactly when the key is missing |
| MomentBlockNew3D.PermutedBoxes | momentBlockNew3D.py:226-267 | reordering a cuboid's sides reorders its second central moments the same way, which is how each branch reassigns them |
| MomentBlockNew3D.LookupIsBoxCentral | momentBlockNew3D.py:226-267 | with correct tables every branch hands the block its own mu000, mu200, mu020 and mu002 |
| MomentBlockNew3D.KeyPresent3 | momentBlockNew3D.py:226-267 | tables holding every size of a range contain every block whose sorted sides fit that range |
| MomentBlockNew3D.BlockCentral3 | momentBlockNew3D.py:219-267 | the looked-up values and the barycentre are the central moments and centre of the block |
| MomentBlockNew3D.ShiftIsBlockOrder3 | momentBlockNew3D.py:270-297 | each moment shifted from the block's central moments is the block's moment of that order |
| MomentBlockNew3D.ShiftIsBlockMoment3 | momentBlockNew3D.py:270-320 | all twenty shifted moments of a block are its moments, so the int() casts drop nothing |
| MomentBlockNew3D.AddDirect3 | momentBlockNew3D.py:196-212 | the direct way fails exactly when a power sum cannot be read (AttributeError without a table, IndexError past it); otherwise every order gains the block's moment |
| MomentBlockNew3D.AddCentral3 | momentBlockNew3D.py:218-320 | the new way fails with KeyError exactly when the block's size is not tabulated; with correct tables every order gains the block's moment |
| MomentBlockNew3D.FallbackCount3 | momentBlockNew3D.py:191-214 | the number of blocks left to the direct way is at most the number of blocks and is 0 below level 2 |
| MomentBlockNew3D.DirectFailsAtOrderOne3 | momentBlockNew3D.py:196-212 | the direct way fails for some order exactly when one of the block's order-1 factors cannot be read |
| MomentBlockNew3D.KeysCover3 | momentBlockNew3D.py:145-155 | every block the new way handles has its sorted size among the keys preprocessing tabulates for the decomposition's largest sides |
| MomentBlockNew3D.DirectReadsInTable3 | momentBlockNew3D.py:156 | a power-sum table up to the image size reads every block inside the image |
| MomentBlockNew3D.NoErrorAfterPreprocessing3 | momentBlockNew3D.py:136-214 | after preprocessing, blockMoments raises for no block of an anchored decomposition inside the image |
| MomentBlockNew3D.OnceTablesMissThickBlocks | momentBlockNew3D.py:158-168 | the tables preprocessing_once builds at level 1 stop at LIMIT_Y and LIMIT_Z, so a block whose middle side exceeds LIMIT_Y or shortest side exceeds LIMIT_Z raises KeyError at that level |
| MomentBlockNew3D.AddBlockToSums3 | momentBlockNew3D.py:189-320 | one more block adds its moment to every running sum |
| MomentBlockNew3D.TablesFor3 | momentBlockNew3D.py:145-155 | the three levels tabulate exactly the sizes of their argument to setCentralMoments, each correct |
| MomentBlockNew3D.CentralStep | momentBlockNew3D.py:218-320 | the new way for one block fails exactly with the block's error (NameError without tables, KeyError for a missing size) and otherwise adds the block's moments |
| MomentBlockNew3D.DirectStep | momentBlockNew3D.py:196-214 | the direct way for one block fails exactly with the block's error and otherwise adds the block's moments |
| MomentBlockNew3D.BlockStep | momentBlockNew3D.py:191-320 | a block takes the direct way exactly when level 2 finds its sorted sides beyond the limits, fails exactly with its error, and otherwise adds its moments |
| MomentBlockNew3D.SumBlocks | momentBlockNew3D.py:189-320 | the loop succeeds exactly when no block raises, fails with the first block's error otherwise, counts the direct and new blocks, and sums the blocks' moments |
| MomentBlockNew3D.CentralEngine3D.constructor | momentBlockNew3D.py:46-49 | the module starts at level 2 with no power table and no central tables |
| MomentBlockNew3D.CentralEngine3D.SetOptimizationLevel | momentBlockNew3D.py:51-54 | levels 0, 1 and 2 are set; any other level fails the assertion and leaves the level unchanged |
| MomentBlockNew3D.CentralEngine3D.Preprocessing | momentBlockNew3D.py:136-156 | the tables hold exactly the sizes for the largest block sides at the current level; level 2 also builds the power table up to the image size |
| MomentBlockNew3D.CentralEngine3D.PreprocessingOnce | momentBlockNew3D.py:158-168 | the power table up to max_side, then the tables for max_side on every side at level 0 and (max_side, LIMIT_Y, LIMIT_Z) otherwise; a negative size fails first |
| MomentBlockNew3D.CentralEngine3D.BlockMoments | momentBlockNew3D.py:170-322 | succeeds exactly when no block raises, else raises the first failing block's error; NUOVO and VECCHIO count the two ways; for anchored disjoint blocks the twenty moments are those of the voxels they cover |
| CentralShift2D.AddShifted | momentBlockNew2D.py:243-252 | the ten dictionary updates add to each order its term: m00 as it is and every other moment through int() |
| CentralShift2D.AxisOne | momentBlockNew2D.py:232 | m10 = xx mu00 is the product (W xx) H, so int() returns that integer product |
| CentralShift2D.AxisTwo | momentBlockNew2D.py:235 | m20 = mu20 + xx m10 is (W xx^2 + v) H, an integer product int() leaves alone |
| CentralShift2D.AxisThree | momentBlockNew2D.py:237 | m30 = 3 xx m20 - 2 xx^2 m10 is (W xx^3 + 3 xx v) H, an integer product int() leaves alone |
| CentralShift2D.CrossOne | momentBlockNew2D.py:234 | m11 = yy m10 is (W xx)(H yy), an integer product int() leaves alone |
| CentralShift2D.CrossTwo | momentBlockNew2D.py:239 | m21 = yy m20 is the order-2 sum along x times H yy, an integer product int() leaves alone |
| CentralShift2D.TransposeShift | momentBlockNew2D.py:231-240 | the shift is symmetric: exchanging x and y in its input exchanges them in its ten outputs |
| CentralShift2D.TransposeRect | momentBlockNew2D.py:218-227 | exchanging x and y in a rectangle exchanges mu20 with mu02 and the two centre coordinates |
| CentralShift2D.RectAxisOne | momentBlockNew2D.py:232 | int(m10) of a W x H rectangle is the sum of its column coordinates times its row count |
| CentralShift2D.RectAxisTwo | momentBlockNew2D.py:235 | int(m20) of a W x H rectangle is the sum of the squared column coordinates times its row count |
| CentralShift2D.RectAxisThree | momentBlockNew2D.py:237 | int(m30) of a W x H rectangle is the sum of the cubed column coordinates times its row count |
| CentralShift2D.RectCrossOne | momentBlockNew2D.py:234 | int(m11) of a rectangle is the product of the sums of its column and row coordinates |
| CentralShift2D.RectCrossTwo | momentBlockNew2D.py:239 | int(m21) of a rectangle is the sum of the squared column coordinates times the sum of the row coordinates |
| CentralShift2D.ShiftIsRectMoment | momentBlockNew2D.py:231-252 | for every order p + q <= 3, the shifted central moments of the rectangle give exactly its moment, the product of the power sums along its columns and rows |
| CentralShift3D.AddShifted3 | momentBlockNew3D.py:299-320 | the twenty dictionary updates add to each order its term: m000 as it is and every other moment through int() |
| CentralShift3D.AddShiftedReal3 | momentTreeNew3D.py:82-103 | the twenty dictionary updates of the tree method add every moment as it is |
| CentralShift3D.AxisFromCentre | momentBlockNew3D.py:270-297 | sums n, n c, n c^2 + v and n c^3 + 3 c v satisfy the recurrences the shift applies along one axis |
| CentralShift3D.AxisOfShifts | momentBlockNew3D.py:270-297 | the power sums of a run of integers satisfy those recurrences about its centre |
| CentralShift3D.FirstOrderSums | momentBlockNew3D.py:270-279 | m100, m010, m001, m011, m101, m110 and m111 are products of the first-order and count sums of the three axes |
| CentralShift3D.SecondOrderSums | momentBlockNew3D.py:281-283 | m200, m020 and m002 are the second-order sum along their axis times the counts of the other two |
| CentralShift3D.MixedThirdSums | momentBlockNew3D.py:286-291 | the six moments of type (2, 1, 0) are a second-order sum times a first-order sum times a count |
| CentralShift3D.PureThirdSums | momentBlockNew3D.py:293-295 | m300, m030 and m003 are the third-order sum along their axis times the counts of the other two |
| CentralShift3D.ShiftSums | momentBlockNew3D.py:270-297 | the twenty lines of the shift make every moment the product of the axis sums of its three orders |
| CentralShift3D.AllFields | momentBlockNew3D.py:270-297 | the shift of central moments of three axes gives the products of their sums for all twenty orders |
| CentralShift3D.FieldIsProduct | momentBlockNew3D.py:270-297 | the shifted moment of each order p + q + r <= 3 is the product of the axis sums of orders p, q and r |
| CentralShift3D.BoxAxes | momentBlockNew3D.py:229-267 | the central moments of a W x H x D cuboid are those of its three axes |
| CentralShift3D.SumOfAxis | momentBlockNew3D.py:270-297 | the order-k sum of the axis of a run is the power sum of that run, for k up to 3 |
| CentralShift3D.BoxProducts | momentBlockNew3D.py:270-297 | the shifted moments of a cuboid are the products of the power sums along its three axes |
| CentralShift3D.FieldIsIntegerProduct | momentBlockNew3D.py:299-320 | when the axis sums are integers, each shifted moment is their integer product |
| CentralShift3D.ShiftIsBoxMoment | momentBlockNew3D.py:270-320 | for every order p + q + r <= 3 the shifted central moments of a cuboid are exactly its moment, and so is the term the block method adds through int() |
| PowerSums.SumHalfClosed | momentBlockNew2D.py:81-84 | the running sum 0.5^2 + 1.5^2 + ... + (m - 0.5)^2 equals m(4m^2 - 1)/12 for every m |
| PowerSums.SumFullClosed | momentBlockNew2D.py:85-86 | the running sum 1^2 + ... + m^2 equals m(m + 1)(2m + 1)/6 for every m |
| PowerSums.HalfAndFullSumsGiveCentral2 | momentBlockNew2D.py:97-100 | twice sum_half[n/2] (n even) or twice sum_full[n/2] (n odd) is the second central moment of a run of n unit pixels |
| PowerSums.CentralIsDeviationSum | momentBlockNew2D.py:112-123 | the second central moment of a run of n pixels equals the sum of squared deviations from its barycentre (n - 1)/2, the quantity the disabled brute-force comparison recomputes |

## Left out

- Reading images from files (`readPixels`, `readCubes`), console output (`printMoments`,
  `print_me`, `stampa`, `stampaGestione`, `statistiche`, `prova`, `__str__`), the printing and
  `sys.exit` inside `checkBlocks`, and the command-line drivers (`main`, `main_for_tests.py`)
  are input and output and are not modelled.
- `Funziona_ma_lento_quadtreeBuild` (quadtree.py) and `Funziona_ma_lento_octreeBuild`
  (octree.py:262-332) are slower alternative builders that no caller uses, so they are not modelled.
- The `children` helpers (quadtree.py:43-50 and the octree counterpart) concatenate a tuple
  with a list, which raises, and no caller uses them. The model uses its own child function.
- Python float rounding is not modelled: halves and quarters are exact `real`s. This is exact
  for every value the source forms, because every value that reaches `int()` is proved integral.
- The source adds each shifted moment into `MM` with its own `+=` line (ten in 2D, twenty in
  3D). The model does this as one map update that has the same entries.
- `checkBlocks` removes pixels from the caller's list as a side effect. The model works on a
  copy (a value), so the caller's list is unchanged here.
- Quadtree.BuildQuadtree and Octree.BuildOctree require non-negative coordinates. With a
  negative coordinate the source's domain and codes are meaningless, and its callers never
  supply one.
- Octree.OctTree.CodeForPixel: the exponent-0 non-termination of octree.py:163-185 is the
  same loop as the quadtree finding below. The model returns the empty code there, and no
  separate as-written lemma is stated for the octree copy.
- In momentTreeNew3D.py, `preprocessing` stores tables that `octreeMoments` never reads,
  because `octreeMoments` rebuilds its own tables from the tree's side. The model does the
  same: `TreeEngine3D.Preprocessing` fills the engine's field, and `OctreeMoments` takes only
  the tree.
- MomentBlock2D.DirectEngine2D.Preprocessing, MomentBlock3D.DirectEngine3D.Preprocessing,
  MomentBlockNew2D.CentralEngine2D.Preprocessing, MomentBlockNew2D.CentralEngine2D.PreprocessingOnce,
  MomentBlockNew3D.CentralEngine3D.Preprocessing, MomentBlockNew3D.CentralEngine3D.PreprocessingOnce,
  Quadtree.BuildQuadtree and Octree.BuildOctree are built on the corrected members of the
  Findings table: the PowerMatrix constructor, QuadtreeBuild/OctreeBuild and CodeForPixel. Their
  stated failures are therefore only the source's other failures, not every way the source
  fails. In the source, preprocessing an image whose origsize (or max_side) is 0 raises
  IndexError. buildQuadtree([(0, 0)]) and buildOctree([(0, 0, 0)]) never terminate. Building
  the full 2 x 2 square or the full 2 x 2 x 2 cube raises IndexError in the merge. The model
  succeeds on all of these inputs. The as-written members of the Findings table state the
  source's behaviour on them.
- Quadtree.QtrTree.NodeSide and Octree.OctTree.NodeSide require a code no longer than the
  exponent. For a longer code the source's node_side returns the fraction 2**(E - len(code)).
  No caller passes such a code, and it names no node.
- Module-level globals shared between modules become fields of one engine object per module.
  Sharing through import is not modelled.
- Timing, the repeat count, and the counters printed only for statistics are not modelled.
  `NUOVO` and `VECCHIO` are kept, because their sum is stated.

## Findings

| source | as written | input that shows it | evidently intended | confidence | as-written member | corrected member |
|---|---|---|---|---|---|---|
| bigmatrix.py:31-47 | with maxN = 0 every row has one column, and line 41 writes `matrix[k][1]` for every k >= 1 | PowerMatrix(3, 0), reached by the direct block engines on the single pixel (0, 0), whose origsize is 0 | write column 1 only when it exists, giving the table S_k(0) = 0 | not executed | BigMatrix.PowerMatrixAsWritten | BigMatrix.PowerMatrix.constructor |
| quadtree.py:155-174 | with exponent 0, `middle` is 0.5 and then 0.0 for ever, so the loop never reaches its exit test `middle == 1` | code_for_pixel(0, 0) in the tree of the single pixel (0, 0), where power_of_two gives exponent 0 | return the empty code of the root | not executed | Quadtree.CodeForPixelNeverStopsAtExponentZero | Quadtree.QtrTree.CodeForPixel |
| quadtree.py:237-258 | merging the root's four children evaluates `C[-1]` on the empty code and raises IndexError | the four pixels (0,0), (0,1), (1,0), (1,1) | the root becomes the single leaf | not executed | Quadtree.QuadtreeBuildAsWritten | Quadtree.QuadtreeBuild |
| octree.py:240-259 | merging the root's eight children evaluates `C[-1]` on the empty code and raises IndexError | the eight voxels of the 2 x 2 x 2 cube | the root becomes the single leaf | not executed | Octree.OctreeBuildAsWritten | Octree.OctreeBuild |
| quadtree.py:141-153 | min_pixel and code_for_pixel use opposite digit layouts: min_pixel reads x from the low bit of each digit and y from the high bit, as the module description of the children (quadtree.py:8-13) documents, while code_for_pixel (quadtree.py:165-170) writes x to the high bit | code [2] in the 2 x 2 tree: the build stores pixel (1, 0) under it, but min_pixel returns (0, 1) | one layout for both; the model keeps code_for_pixel's, because it is what the build stores, and decodes with it | not executed | Quadtree.QtrTree.MinPixelAsWritten | Quadtree.QtrTree.MinPixel |
| octree.py:148-161 | min_pixel returns only (x, y) although its docstring promises (x, y, z); and, as in the quadtree, its x and y bits follow the module description of the children (octree.py:8-17) while code_for_pixel (octree.py:174-182) uses the opposite x/y layout | code [6] in the 2 x 2 x 2 tree: the build stores voxel (1, 0, 1) under it, but min_pixel returns (0, 1) | return (x, y, z), in one layout shared with code_for_pixel; the model keeps code_for_pixel's, which the build stores | not executed | Octree.OctTree.MinPixelAsWritten | Octree.OctTree.MinVoxel |
