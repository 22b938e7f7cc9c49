# YOLO grid targets from Pascal VOC annotations

This project models the target encoding of `utils/ReadPascalVoc2.py` in
Darknet.keras. The code turns Pascal VOC annotations into training targets
for a YOLO-style detector:

- An `image` holds a 7 x 7 grid of `Cell`s. Each cell has an occupied flag
  and a list of `objInfo` records.
- `parseXML` rescales every annotated box into a 448-pixel square frame. It
  picks the cell that holds the box centre and appends the box's record to
  that cell: the in-cell centre offsets, the square roots of the normalised
  height and width, and the class number.
- `generate_batch_data` cuts the first 5000 names of the name file into
  windows of `batch_size`. `prepareBatch` loads one window of images.
  Each grid is then flattened into a 1225-entry vector, 25 entries per cell,
  in row-major order.

The Dafny modules follow the pieces of that file:

| file | module | what it holds |
|---|---|---|
| `py_builtins.dfy` | `PyBuiltins` | `int()` on a float (truncation toward zero), list subscripts with negative indices, `list.index`, `str.strip` |
| `voc_data.dfy` | `VocData` | `objInfo`, `Cell`, raw annotation boxes, the 20 VOC labels, the exceptions |
| `box_encoding.dfy` | `BoxEncoding` | the per-box arithmetic of `parseXML` |
| `image_grid.dfy` | `ImageGrid` | the `image` class (constructor, `parseXML`) and the cell update |
| `target_vector.dfy` | `TargetVector` | the flattening loops and the layout of the target vector |
| `batching.dfy` | `Batching` | the epoch windows, `prepareBatch`, and one step of the epoch loop |

`image` is a class, since `parseXML` updates its `boxes` in place. Cells and
`objInfo` records are values inside that field, because the code never
shares them between images or cells. The exceptions the code can raise are
an explicit `Result` or `Option`:

- `labels.index` on an unknown name;
- a zero width, height or side (`ZeroDivisionError`);
- a row or column outside the grid (`IndexError`);
- a missing line of the name file;
- a zero `batch_size` in `range`.

Python semantics are written out wherever they matter:

- `int()` truncates toward zero.
- A negative subscript counts from the end of the list.
- `strip('\n')` removes newlines at both ends.

`np.sqrt`, reading an annotation file and joining paths are function
parameters (`sqrt`, `annotationOf`, `pathOf`). They are not modelled.

## Where the code and its description differ

The model follows the code.

- `parseXML` keeps every box. All boxes that fall in a cell are appended to
  its `objs`. The "first box wins" effect exists only because the flattening
  reads `objs[0]` (`FirstBoxWins`, `LaterObjectsIgnored`).
- Nothing rejects a malformed box. A negative height or width reaches
  `np.sqrt` unchecked: the size term is just the signed ratio (`EncodeBox`,
  `SizeTermBounds`).
- Nothing clamps the cell index:
  - A centre on the right or bottom edge gives index `side`, and the grid
    access raises `IndexError` (`EdgeCentreRaises`).
  - A centre left of (or above) the image is not rejected either, and
    `int()` truncates toward zero (`NegativeCentreCells`). Less than one cell
    outside, the index is 0 and the offset negative, so the box lands in the
    first column (`NearLeftCentreStaysInFirstColumn`). One to two cells
    outside, the index is -1, and Python's negative subscript stores the box
    in the last column (`NegativeCentreWraps`). At least `side + 1` cells
    outside, the index is below `-side` and the grid access raises
    `IndexError`.
- The last window of an epoch is not dropped. `range(0, 5000, batch_size)`
  has ceil(5000 / batch_size) starts. With a batch size of 32 there are 157
  windows, and the last one reaches name 5023 (`EpochOf32`).
- `prepareBatch(start, end)` returns `end - start` images, not the
  `end - start + 1` its docstring promises (`PrepareBatch`).

## Model

| member | source | states |
|---|---|---|
| PyBuiltins.Trunc | utils/ReadPascalVoc2.py:82-83 | `int()` of a float truncates toward zero: a non-negative value gives the floor, a negative one gives the ceiling |
| PyBuiltins.PyIndex | utils/ReadPascalVoc2.py:92-93 | a subscript succeeds exactly for `-n <= i < n`; a negative index reaches `i + n`, others reach `i` |
| PyBuiltins.IndexOf | utils/ReadPascalVoc2.py:62 | `labels.index(name)` fails exactly when the name is missing; otherwise it is the first position holding the name |
| PyBuiltins.LeadingRun | utils/ReadPascalVoc2.py:112 | the count of leading newlines covers exactly the run of them at the start |
| PyBuiltins.TrailingRun | utils/ReadPascalVoc2.py:112 | the count of trailing newlines covers exactly the run of them at the end |
| PyBuiltins.StripCharSpec | utils/ReadPascalVoc2.py:112 | `strip('\n')` is the contiguous middle of the line, with only newlines around it and neither end a newline; it is empty exactly when the line is all newlines |
| BoxEncoding.SizeTerm | utils/ReadPascalVoc2.py:68-69 | the value given to `np.sqrt` is the box extent divided by the image dimension |
| BoxEncoding.EncodeBox | utils/ReadPascalVoc2.py:61-91 | an unknown name raises ValueError and a zero width, height or side raises ZeroDivisionError (both exactly when they apply); otherwise the class number is the name's first position in `labels`, and the size entries are `sqrt` of the height and width ratios |
| BoxEncoding.SizeTermBounds | utils/ReadPascalVoc2.py:78-79 | the size term lies in [0, 1] exactly when the extent lies in [0, dim] |
| BoxEncoding.ScaledCenter | utils/ReadPascalVoc2.py:73-83 | helper for `AxisPlacement`: the rescaled centre in cell units equals `side * (lo + hi) / (2 * dim)` |
| BoxEncoding.ScaledCenterRange | utils/ReadPascalVoc2.py:73-83 | that quotient lies in [0, side) exactly when the centre lies in [0, dim), and equals `side` on the far edge |
| BoxEncoding.CellOffsetIsRemainder | utils/ReadPascalVoc2.py:86-89 | helper for `AxisPlacement`: the in-cell offset is the quotient minus the cell index |
| BoxEncoding.CellBracket | utils/ReadPascalVoc2.py:86-89 | helper for `AxisPlacement` (a fact about reals): a cell index that brackets the quotient also brackets the position, in pixels |
| BoxEncoding.AxisPlacement | utils/ReadPascalVoc2.py:73-89 | along one axis, the cell index lies in [0, side) and the offset in [0, 1) exactly when the centre is inside the image; the cell then brackets the rescaled centre; a centre on the far edge gives index `side` |
| BoxEncoding.NegativeCentreCells | utils/ReadPascalVoc2.py:82-89 | a quotient in (-1, 0) gives index 0 with a negative offset, one in (-2, -1] gives index -1, and one at or below `-(side + 1)` gives an index below `-side` |
| BoxEncoding.CentredBoxLandsInGrid | utils/ReadPascalVoc2.py:61-91 | for a known class and positive sizes, encoding succeeds, and each of row and column is in range with its offset in [0, 1) exactly when the centre is inside the image along that axis |
| BoxEncoding.WorkedExample | utils/ReadPascalVoc2.py:73-91 | a 200-pixel box centred in a 400 x 400 image goes to cell (3, 3) with offsets 1/2 and size terms 1/2 |
| ImageGrid.ResolveCell | utils/ReadPascalVoc2.py:92-93 | `boxes[row][col]` succeeds exactly when both subscripts are in Python's range; non-negative indices reach themselves, a negative row reaches `row + len(boxes)` and a negative column `col + len(row)`; otherwise IndexError |
| ImageGrid.AddToCell | utils/ReadPascalVoc2.py:92-93 | the target cell becomes occupied and gets the record appended after its earlier ones; every other cell is unchanged and the shape is kept |
| ImageGrid.AddToCellCount | utils/ReadPascalVoc2.py:92-93 | the cell update stores exactly one more object in the grid |
| ImageGrid.EncodeOneAppends | utils/ReadPascalVoc2.py:61-93 | a successful iteration only appends, adds exactly one object, and keeps class numbers within the label list |
| ImageGrid.ParseObjectsAppends | utils/ReadPascalVoc2.py:61-93 | whether or not it raises, the object loop keeps the grid's shape, never drops an earlier object, and keeps a well-formed grid well formed |
| ImageGrid.ParseObjectsStoresAll | utils/ReadPascalVoc2.py:61-93 | without an exception, every object is stored once and has a known class; an unknown class always raises |
| ImageGrid.EncodeOneError | utils/ReadPascalVoc2.py:61-93 | on a square grid, one iteration fails exactly when the object raises, and with that object's exception, whatever the cells hold |
| ImageGrid.ParseErrorIsFirstObjectError | utils/ReadPascalVoc2.py:61-93 | the loop raises exactly the exception of the first object, in document order, that raises |
| ImageGrid.RaisingObjectChangesNothing | utils/ReadPascalVoc2.py:61-93 | an object that raises (an unknown class, say) stops the loop before any cell is changed for it |
| ImageGrid.CentredBoxIsStored | utils/ReadPascalVoc2.py:73-93 | a box with a known class whose centre is inside the image is stored in the in-range cell it was encoded to |
| ImageGrid.EdgeCentreRaises | utils/ReadPascalVoc2.py:82-92 | a centre on the bottom or right edge raises IndexError at the grid access |
| ImageGrid.NearLeftCentreEncoding | utils/ReadPascalVoc2.py:82-89 | a centre a quarter cell left of the image gets column 0 and offset -0.25 |
| ImageGrid.NearLeftCentreStaysInFirstColumn | utils/ReadPascalVoc2.py:82-93 | that box is stored in cell (0, 0), and the last column stays empty |
| ImageGrid.NegativeCentreWraps | utils/ReadPascalVoc2.py:82-92 | a centre one cell left of the image is stored in the last column |
| ImageGrid.Image.constructor | utils/ReadPascalVoc2.py:39-46 | a fresh image has `side` rows of `side` cells each (none for a negative side); every cell is unoccupied with no objects |
| ImageGrid.Image.ParseXML | utils/ReadPascalVoc2.py:48-93 | the loop over the objects leaves the grid and the exception that `ParseObjects` describes |
| TargetVector.Zeros | utils/ReadPascalVoc2.py:173 | `[0] * n` has length `n` and holds only zeros |
| TargetVector.OneHot | utils/ReadPascalVoc2.py:173-174 | the class vector has 20 entries, and its only 1 is at the class number; `index(1)` recovers that number |
| TargetVector.CellVector | utils/ReadPascalVoc2.py:165-178 | each cell contributes exactly 25 entries |
| TargetVector.CellRoundTrip | utils/ReadPascalVoc2.py:165-178 | a cell's 25 entries decode back to its first object, or to nothing for an empty cell |
| TargetVector.LaterObjectsIgnored | utils/ReadPascalVoc2.py:165-166 | objects appended after the first leave a cell's entries unchanged |
| TargetVector.RowPrefixAt | utils/ReadPascalVoc2.py:158-178 | the first `j` cells of a row take 25 entries each, in order |
| TargetVector.GridPrefixAt | utils/ReadPascalVoc2.py:157-178 | the first `i` rows take 175 entries each, in order |
| TargetVector.TargetAt | utils/ReadPascalVoc2.py:156-178 | entry `k` of cell `(i, j)` sits at position `25 * (7 * i + j) + k` of the target |
| TargetVector.TargetLayout | utils/ReadPascalVoc2.py:156-178 | the target has 1225 entries, and cell `(i, j)` fills the 25 entries from `25 * (7 * i + j)` on |
| TargetVector.TargetDecodes | utils/ReadPascalVoc2.py:156-178 | reading cell `(i, j)`'s slice of the target gives back its first object, or nothing |
| TargetVector.WellFormedIsReady | utils/ReadPascalVoc2.py:157-174 | a 7 x 7 grid whose class numbers come from at most 20 labels can be flattened without an index error |
| TargetVector.FirstBoxWins | utils/ReadPascalVoc2.py:92-93 | when two objects are stored in the same empty cell, the target of that cell describes the first one |
| TargetVector.AppendCell | utils/ReadPascalVoc2.py:159-178 | one cell step appends exactly that cell's 25 entries |
| TargetVector.AppendRow | utils/ReadPascalVoc2.py:158-178 | the inner loop appends a row's cells, left to right |
| TargetVector.Flatten | utils/ReadPascalVoc2.py:156-179 | the flattening loop yields the 1225-entry target of the grid |
| TargetVector.BatchArrays | utils/ReadPascalVoc2.py:152-183 | one path and one target per image, in the images' order |
| Batching.EpochStarts | utils/ReadPascalVoc2.py:146 | `range(0, 5000, batch_size)` raises ValueError exactly for a zero step, and a negative step gives no window; `EpochWindows` describes the windows of a positive step |
| Batching.StartsShape | utils/ReadPascalVoc2.py:146 | element `k` of a range is `lo + k * step`, and there are just enough elements to reach `stop` |
| Batching.DivUnique | utils/ReadPascalVoc2.py:146-147 | helper for `EpochWindows` and `WindowOfIndex` (a fact about integers): `k` is `n / b` exactly when `k * b <= n < (k + 1) * b` |
| Batching.EpochWindows | utils/ReadPascalVoc2.py:146-147 | window `k` starts at `k * batch_size`; consecutive windows meet without overlap; the last one starts below 5000 and ends at or past it; there are ceil(5000 / batch_size) of them |
| Batching.WindowOfIndex | utils/ReadPascalVoc2.py:146-147 | each of the first 5000 names lies in exactly one window, the one numbered `idx / batch_size` |
| Batching.EpochOf32 | utils/ReadPascalVoc2.py:146-147 | batches of 32 give 157 windows, and the last one ends at 5024 |
| Batching.SampleName | utils/ReadPascalVoc2.py:112 | `imageNames[i].strip('\n')` succeeds exactly for Python-valid indices and yields the stripped line |
| Batching.FirstErrorNone | utils/ReadPascalVoc2.py:111-117 | no exception occurs in a window exactly when no line of it fails |
| Batching.FirstErrorSome | utils/ReadPascalVoc2.py:111-117 | otherwise the exception is that of the lowest failing line, and every earlier line loads |
| Batching.FirstErrorStep | utils/ReadPascalVoc2.py:111-117 | the window's first exception is either that of its first line or one from the rest of the window |
| Batching.LoadedGridReady | utils/ReadPascalVoc2.py:115-116 | every loaded grid, even one left partial by an exception, is 7 x 7 and can be flattened |
| Batching.LoadImage | utils/ReadPascalVoc2.py:112-116 | loading one line fails exactly when that line fails, with its exception; otherwise it yields a fresh image with the stripped name's path and the parsed grid |
| Batching.PrepareBatch | utils/ReadPascalVoc2.py:95-119 | loading succeeds exactly when no line in `[start, end)` fails, and otherwise raises the lowest failing line's exception; on success it yields `end - start` images (none if `end < start`), image `k` loaded from line `start + k` |
| Batching.NextBatch | utils/ReadPascalVoc2.py:146-183 | one window succeeds exactly when `prepareBatch` does and otherwise raises its exception; on success it yields `batch_size` paths and targets, entry `k` for name `i + k` |

## Left out

- Reading the XML annotation with ElementTree is not modelled. `ParseXML`
  takes the parsed width, height and boxes as an `Annotation`, and
  `annotationOf` stands for reading a sample's annotation file.
- The names file is not read or rewritten. `lines` is its list of lines.
- `random.shuffle` is not modelled. `NextBatch` takes whatever order the
  lines are in.
- The endless `while 1` / `yield` driver is not modelled. `NextBatch` is one
  step of its inner loop, and `EpochWindows` describes the windows that loop
  visits.
- Loading and cropping the picture (`crop`) is not modelled. Neither are the
  numpy conversions. The model keeps each image's path and its target.
- `np.sqrt` and IEEE floating point are not modelled. Arithmetic is on exact
  reals, and `sqrt` is an unspecified function parameter. NaN and rounding
  are therefore not modelled.
- Path joining and the module-level `vocPath` are not modelled. `pathOf`
  stands for turning a stripped name into an image path.
- The `__main__` debug block is not modelled. It is Python 2 code that
  unpacks a generator. Its offset `25*25` reads cell (3, 4), not the cell
  (3, 3) its comment names.
- Batching.PrepareBatch: the model takes the label list as a parameter. The
  code fixes it to the 20 VOC names, and `NextBatch` requires at most 20
  labels, which the VOC list meets.
- ImageGrid.Image.ParseXML: an exception is returned as a value instead of
  propagating. The grid keeps whatever the earlier objects stored, as in the
  code.
- Cells are values inside the `boxes` field rather than separate objects.
  Two cells, or two images, sharing one `Cell` object cannot arise in the
  code. So aliasing between cells is not modelled.
