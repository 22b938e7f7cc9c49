/** The `image` class: a `side x side` matrix of cells built empty by the
    constructor and filled by `parseXML`, which stores every object of the
    annotation in the cell that holds its centre. */
module ImageGrid {
  import opened PyBuiltins
  import opened VocData
  import opened BoxEncoding

  /** The grid a fresh `image(n, ...)` holds. */
  function EmptyGrid(n: nat): Grid
  {
    seq(n, _ => seq(n, _ => EmptyCell))
  }

  /** Subscripts `boxes[row][col]` as Python does: the row against the number
      of rows, then the column against the length of that row. */
  function ResolveCell(g: Grid, row: int, col: int): (r: Result<(nat, nat)>)
    ensures r.Ok? ==> r.value.0 < |g| && r.value.1 < |g[r.value.0]|
    ensures r.Err? ==> r.error == IndexError
    ensures r.Ok? <==> -|g| <= row < |g| && -|g[PyIndex(row, |g|).value]| <= col < |g[PyIndex(row, |g|).value]|
    ensures 0 <= row < |g| && 0 <= col < |g[row]| ==> r == Ok((row, col))
    ensures r.Ok? && row < 0 ==> r.value.0 == row + |g|
    ensures r.Ok? && col < 0 ==> r.value.1 == col + |g[r.value.0]|
  {
    match PyIndex(row, |g|)
    case None => Err(IndexError)
    case Some(i) =>
      match PyIndex(col, |g[i]|)
      case None => Err(IndexError)
      case Some(j) => Ok((i, j))
  }

  /** `boxes[r][c].has_obj = True; boxes[r][c].objs.append(info)`. Only that
      cell changes, and its earlier objects stay in place. */
  function AddToCell(g: Grid, r: nat, c: nat, info: ObjInfo): (g': Grid)
    requires r < |g| && c < |g[r]|
    ensures |g'| == |g| && forall i :: 0 <= i < |g| ==> |g'[i]| == |g[i]|
    ensures g'[r][c].hasObj && g'[r][c].objs == g[r][c].objs + [info]
    ensures forall i, j :: 0 <= i < |g| && 0 <= j < |g[i]| && (i != r || j != c) ==> g'[i][j] == g[i][j]
  {
    g[r := g[r][c := Cell(true, g[r][c].objs + [info])]]
  }

  /** One iteration of the loop in `parseXML`: encode the object, then store
      it in its cell, or report the exception that iteration raises. */
  function EncodeOne(g: Grid, o: RawObject, width: int, height: int, labels: seq<string>,
                     side: int, sqrt: real -> real): Result<Grid>
  {
    match EncodeBox(o, width, height, labels, side, sqrt)
    case Err(e) => Err(e)
    case Ok(p) =>
      match ResolveCell(g, p.row, p.col)
      case Err(e) => Err(e)
      case Ok(rc) => Ok(AddToCell(g, rc.0, rc.1, p.info))
  }

  /** A cell is marked occupied exactly when it holds an object, and each of
      its class numbers indexes the label list. */
  predicate CellWellFormed(c: Cell, numLabels: nat)
  {
    && c.hasObj == (|c.objs| > 0)
    && forall k :: 0 <= k < |c.objs| ==> c.objs[k].classNum < numLabels
  }

  predicate WellFormedGrid(g: Grid, numLabels: nat)
  {
    forall i, j :: 0 <= i < |g| && 0 <= j < |g[i]| ==> CellWellFormed(g[i][j], numLabels)
  }

  /** `g'` arises from `g` by appending only: the same shape, no cell loses
      its occupied mark, and every cell's earlier objects are kept in order. */
  predicate Extends(g: Grid, g': Grid)
  {
    && |g'| == |g|
    && (forall i :: 0 <= i < |g| ==> |g'[i]| == |g[i]|)
    && forall i, j :: 0 <= i < |g| && 0 <= j < |g[i]| && j < |g'[i]| ==>
         (g[i][j].hasObj ==> g'[i][j].hasObj) && g[i][j].objs <= g'[i][j].objs
  }

  /** Number of objects stored in one row of cells. */
  function RowCount(row: seq<Cell>): nat
  {
    if row == [] then 0 else RowCount(row[..|row| - 1]) + |row[|row| - 1].objs|
  }

  /** Number of objects stored in the whole grid. */
  function ObjCount(g: Grid): nat
  {
    if g == [] then 0 else ObjCount(g[..|g| - 1]) + RowCount(g[|g| - 1])
  }

  lemma {:induction false} RowCountUpdate(row: seq<Cell>, c: nat, x: Cell)
    requires c < |row|
    ensures RowCount(row[c := x]) + |row[c].objs| == RowCount(row) + |x.objs|
    decreases |row|
  {
    var n := |row| - 1;
    if c < n {
      assert row[c := x][..n] == row[..n][c := x];
      RowCountUpdate(row[..n], c, x);
    } else {
      assert row[c := x][..n] == row[..n];
    }
  }

  lemma {:induction false} ObjCountUpdate(g: Grid, r: nat, row: seq<Cell>)
    requires r < |g|
    ensures ObjCount(g[r := row]) + RowCount(g[r]) == ObjCount(g) + RowCount(row)
    decreases |g|
  {
    var n := |g| - 1;
    if r < n {
      assert g[r := row][..n] == g[..n][r := row];
      ObjCountUpdate(g[..n], r, row);
    } else {
      assert g[r := row][..n] == g[..n];
    }
  }

  /** Storing one object raises the grid's object count by exactly one. */
  lemma AddToCellCount(g: Grid, r: nat, c: nat, info: ObjInfo)
    requires r < |g| && c < |g[r]|
    ensures ObjCount(AddToCell(g, r, c, info)) == ObjCount(g) + 1
  {
    var x := Cell(true, g[r][c].objs + [info]);
    RowCountUpdate(g[r], c, x);
    ObjCountUpdate(g, r, g[r][c := x]);
  }

  /** A successful iteration appends exactly one object to exactly one cell
      and keeps the grid well formed. */
  lemma EncodeOneAppends(g: Grid, o: RawObject, width: int, height: int, labels: seq<string>,
                         side: int, sqrt: real -> real)
    requires EncodeOne(g, o, width, height, labels, side, sqrt).Ok?
    ensures var g' := EncodeOne(g, o, width, height, labels, side, sqrt).value;
            && Extends(g, g')
            && ObjCount(g') == ObjCount(g) + 1
            && (WellFormedGrid(g, |labels|) ==> WellFormedGrid(g', |labels|))
  {
    var p := EncodeBox(o, width, height, labels, side, sqrt).value;
    var rc := ResolveCell(g, p.row, p.col).value;
    var g' := AddToCell(g, rc.0, rc.1, p.info);
    AddToCellCount(g, rc.0, rc.1, p.info);
    if WellFormedGrid(g, |labels|) {
      forall i, j | 0 <= i < |g'| && 0 <= j < |g'[i]|
        ensures CellWellFormed(g'[i][j], |labels|)
      {
        if i == rc.0 && j == rc.1 {
          var objs := g'[i][j].objs;
          assert CellWellFormed(g[i][j], |labels|);
          forall k | 0 <= k < |objs| ensures objs[k].classNum < |labels| {
            if k < |g[i][j].objs| {
              assert objs[k] == g[i][j].objs[k];
            }
          }
        }
      }
    }
  }

  /** The outcome of `parseXML`: the grid after the objects it got through,
      and the exception that stopped it, if any. */
  datatype Parsed = Parsed(grid: Grid, err: Option<Error>)

  /** The loop of `parseXML` over the annotation's objects, in document
      order. An exception leaves the cells filled by the earlier objects. */
  function ParseObjects(g: Grid, objs: seq<RawObject>, width: int, height: int, labels: seq<string>,
                        side: int, sqrt: real -> real): Parsed
    decreases |objs|
  {
    if objs == [] then Parsed(g, None)
    else
      match EncodeOne(g, objs[0], width, height, labels, side, sqrt)
      case Err(e) => Parsed(g, Some(e))
      case Ok(g') => ParseObjects(g', objs[1..], width, height, labels, side, sqrt)
  }

  /** `parseXML` only appends: whether or not it stops early, the grid keeps
      its shape, every earlier object stays in place, and a well-formed grid
      stays well formed. */
  lemma {:induction false} ParseObjectsAppends(g: Grid, objs: seq<RawObject>, width: int, height: int,
                                               labels: seq<string>, side: int, sqrt: real -> real)
    ensures var r := ParseObjects(g, objs, width, height, labels, side, sqrt);
            && Extends(g, r.grid)
            && (WellFormedGrid(g, |labels|) ==> WellFormedGrid(r.grid, |labels|))
    decreases |objs|
  {
    if objs != [] {
      var step := EncodeOne(g, objs[0], width, height, labels, side, sqrt);
      if step.Ok? {
        var g' := step.value;
        EncodeOneAppends(g, objs[0], width, height, labels, side, sqrt);
        ParseObjectsAppends(g', objs[1..], width, height, labels, side, sqrt);
        var r := ParseObjects(g', objs[1..], width, height, labels, side, sqrt);
        forall i, j | 0 <= i < |g| && 0 <= j < |g[i]|
          ensures (g[i][j].hasObj ==> r.grid[i][j].hasObj) && g[i][j].objs <= r.grid[i][j].objs
        {
          assert g[i][j].objs <= g'[i][j].objs <= r.grid[i][j].objs;
        }
      }
    }
  }

  /** Without an exception `parseXML` stores every object, one each, and
      each one's class is a known label; an unknown class always raises. */
  lemma {:induction false} ParseObjectsStoresAll(g: Grid, objs: seq<RawObject>, width: int, height: int,
                                                 labels: seq<string>, side: int, sqrt: real -> real)
    ensures var r := ParseObjects(g, objs, width, height, labels, side, sqrt);
            && (r.err.None? ==> ObjCount(r.grid) == ObjCount(g) + |objs|)
            && (r.err.None? ==> forall k :: 0 <= k < |objs| ==> objs[k].name in labels)
            && ((exists k :: 0 <= k < |objs| && objs[k].name !in labels) ==> r.err.Some?)
    decreases |objs|
  {
    if objs != [] {
      var step := EncodeOne(g, objs[0], width, height, labels, side, sqrt);
      if step.Ok? {
        var g' := step.value;
        EncodeOneAppends(g, objs[0], width, height, labels, side, sqrt);
        ParseObjectsStoresAll(g', objs[1..], width, height, labels, side, sqrt);
        assert forall k :: 1 <= k < |objs| ==> objs[k] == objs[1..][k - 1];
      }
    }
  }

  /** `side` rows of `side` cells each. */
  predicate IsSquare(g: Grid, side: int)
  {
    |g| == side && forall i :: 0 <= i < |g| ==> |g[i]| == side
  }

  /** The exception one object raises against a `side` x `side` grid, if
      any: an unknown class, a zero divisor, or a row or column the grid
      cannot be subscripted with. The cells' contents play no part. */
  function ObjectError(o: RawObject, width: int, height: int, labels: seq<string>, side: int,
                       sqrt: real -> real): Option<Error>
  {
    if o.name !in labels then Some(UnknownLabel)
    else if width == 0 || height == 0 || side == 0 then Some(ZeroDivision)
    else
      var row := CellIndex(Rescale(Center(o.ymin, o.ymax), height), side);
      var col := CellIndex(Rescale(Center(o.xmin, o.xmax), width), side);
      if -side <= row < side && -side <= col < side then None else Some(IndexError)
  }

  /** The exception of the first object, in document order, that raises one. */
  function FirstObjectError(objs: seq<RawObject>, width: int, height: int, labels: seq<string>,
                            side: int, sqrt: real -> real): Option<Error>
    decreases |objs|
  {
    if objs == [] then None
    else if ObjectError(objs[0], width, height, labels, side, sqrt).Some? then
      ObjectError(objs[0], width, height, labels, side, sqrt)
    else FirstObjectError(objs[1..], width, height, labels, side, sqrt)
  }

  /** Storing one object into a square grid fails exactly when the object
      raises, and with its exception. */
  lemma EncodeOneError(g: Grid, o: RawObject, width: int, height: int, labels: seq<string>,
                       side: int, sqrt: real -> real)
    requires IsSquare(g, side)
    ensures var e := ObjectError(o, width, height, labels, side, sqrt);
            var r := EncodeOne(g, o, width, height, labels, side, sqrt);
            (r.Err? <==> e.Some?) && (r.Err? ==> e == Some(r.error))
  {
    var placed := EncodeBox(o, width, height, labels, side, sqrt);
    if placed.Ok? {
      var p := placed.value;
      if -side <= p.row < side {
        assert |g[PyIndex(p.row, |g|).value]| == side;
      }
    }
  }

  /** `parseXML` on a square grid raises exactly the exception of the first
      object that raises one, whatever the cells already hold. */
  lemma {:induction false} ParseErrorIsFirstObjectError(g: Grid, objs: seq<RawObject>, width: int,
                                                        height: int, labels: seq<string>, side: int,
                                                        sqrt: real -> real)
    requires IsSquare(g, side)
    ensures ParseObjects(g, objs, width, height, labels, side, sqrt).err
         == FirstObjectError(objs, width, height, labels, side, sqrt)
    decreases |objs|
  {
    if objs != [] {
      EncodeOneError(g, objs[0], width, height, labels, side, sqrt);
      var r := EncodeOne(g, objs[0], width, height, labels, side, sqrt);
      if r.Ok? {
        EncodeOneAppends(g, objs[0], width, height, labels, side, sqrt);
        ParseErrorIsFirstObjectError(r.value, objs[1..], width, height, labels, side, sqrt);
      }
    }
  }

  /** An object that raises (an unknown class among them) stops `parseXML`
      before any cell is touched for it: the grid is left as it was. */
  lemma RaisingObjectChangesNothing(g: Grid, o: RawObject, rest: seq<RawObject>, width: int, height: int,
                                    labels: seq<string>, side: int, sqrt: real -> real)
    requires IsSquare(g, side) && ObjectError(o, width, height, labels, side, sqrt).Some?
    ensures ParseObjects(g, [o] + rest, width, height, labels, side, sqrt)
         == Parsed(g, ObjectError(o, width, height, labels, side, sqrt))
  {
    EncodeOneError(g, o, width, height, labels, side, sqrt);
    assert ([o] + rest)[0] == o;
  }

  /** A box whose centre lies inside the image, with a known class, is
      stored in the cell that holds its centre, and nothing else changes. */
  lemma CentredBoxIsStored(g: Grid, o: RawObject, width: int, height: int, labels: seq<string>,
                           side: int, sqrt: real -> real)
    requires o.name in labels && width > 0 && height > 0 && side > 0
    requires |g| == side && forall i :: 0 <= i < side ==> |g[i]| == side
    requires 0 <= o.xmin + o.xmax < 2 * width && 0 <= o.ymin + o.ymax < 2 * height
    ensures var p := EncodeBox(o, width, height, labels, side, sqrt);
            && p.Ok? && 0 <= p.value.row < side && 0 <= p.value.col < side
            && EncodeOne(g, o, width, height, labels, side, sqrt)
               == Ok(AddToCell(g, p.value.row, p.value.col, p.value.info))
  {
    CentredBoxLandsInGrid(o, width, height, labels, side, sqrt);
  }

  /** A centre on the right or bottom edge of the image yields the index
      `side`, and subscripting the grid with it raises IndexError. */
  lemma EdgeCentreRaises(g: Grid, o: RawObject, width: int, height: int, labels: seq<string>,
                         side: int, sqrt: real -> real)
    requires o.name in labels && width > 0 && height > 0 && side > 0
    requires |g| == side && forall i :: 0 <= i < side ==> |g[i]| == side
    requires || o.ymin + o.ymax == 2 * height
             || (0 <= o.ymin + o.ymax < 2 * height && o.xmin + o.xmax == 2 * width)
    ensures EncodeOne(g, o, width, height, labels, side, sqrt) == Err(IndexError)
  {
    CentredBoxLandsInGrid(o, width, height, labels, side, sqrt);
  }

  /** A centre one cell's width left of the image: `int()` gives column -1
      and Python's negative subscript stores the box in the last column. */
  lemma NegativeCentreWraps(sqrt: real -> real)
    ensures var r := EncodeOne(EmptyGrid(7), RawObject("aeroplane", -64, 32, -64, 32),
                               448, 448, VocLabels, 7, sqrt);
            r.Ok? && r.value[0][6].hasObj
  {
    var pos := Rescale(Center(-64, -64), 448);
    assert pos == -64.0;
    assert pos / CellSize(7) == -1.0;
    assert CellIndex(pos, 7) == -1;
    var posY := Rescale(Center(32, 32), 448);
    assert posY / CellSize(7) == 0.5;
    assert CellIndex(posY, 7) == 0;
  }

  /** A centre a quarter cell left of the image: `int()` truncates -0.25 to
      column 0, so the box goes to the first column with a negative offset. */
  lemma NearLeftCentreEncoding(sqrt: real -> real)
    ensures var p := EncodeBox(RawObject("aeroplane", -32, 32, 0, 32), 448, 448, VocLabels, 7, sqrt);
            p.Ok? && p.value.row == 0 && p.value.col == 0 && p.value.info.x == -0.25
  {
    var pos := Rescale(Center(-32, 0), 448);
    assert pos == -16.0;
    assert pos / CellSize(7) == -0.25;
    assert CellIndex(pos, 7) == 0;
    assert CellOffset(pos, 7) == -0.25;
    var posY := Rescale(Center(32, 32), 448);
    assert posY / CellSize(7) == 0.5;
    assert CellIndex(posY, 7) == 0;
  }

  /** That box is stored in cell (0, 0), and the last column stays empty. */
  lemma NearLeftCentreStaysInFirstColumn(sqrt: real -> real)
    ensures var r := EncodeOne(EmptyGrid(7), RawObject("aeroplane", -32, 32, 0, 32),
                               448, 448, VocLabels, 7, sqrt);
            r.Ok? && r.value[0][0].hasObj && !r.value[0][6].hasObj
  {
    NearLeftCentreEncoding(sqrt);
    var g := EmptyGrid(7);
    var p := EncodeBox(RawObject("aeroplane", -32, 32, 0, 32), 448, 448, VocLabels, 7, sqrt).value;
    assert ResolveCell(g, 0, 0) == Ok((0, 0));
    assert EncodeOne(g, RawObject("aeroplane", -32, 32, 0, 32), 448, 448, VocLabels, 7, sqrt)
        == Ok(AddToCell(g, 0, 0, p.info));
  }

  /** `image`: the path of the picture and its grid of cells. */
  class Image {
    const imgPath: string
    var boxes: Grid

    /** `image(side, imgPath)`: `side` rows of `side` empty cells each. */
    constructor (side: int, imgPath: string)
      ensures this.imgPath == imgPath
      ensures |boxes| == (if side < 0 then 0 else side)
      ensures forall i :: 0 <= i < |boxes| ==> |boxes[i]| == |boxes|
      ensures forall i, j :: 0 <= i < |boxes| && 0 <= j < |boxes[i]| ==>
                !boxes[i][j].hasObj && boxes[i][j].objs == []
      ensures boxes == EmptyGrid(if side < 0 then 0 else side)
    {
      var n := if side < 0 then 0 else side;
      var grid: Grid := [];
      for i := 0 to n
        invariant |grid| == i
        invariant forall k :: 0 <= k < i ==> grid[k] == EmptyGrid(n)[k]
      {
        var rows: seq<Cell> := [];
        for j := 0 to n
          invariant |rows| == j
          invariant forall k :: 0 <= k < j ==> rows[k] == EmptyCell
        {
          rows := rows + [EmptyCell];
        }
        grid := grid + [rows];
      }
      this.imgPath := imgPath;
      boxes := grid;
    }

    /** `parseXML`: stores every object of the annotation in its cell, in
        document order, and stops at the first exception. */
    method ParseXML(ann: Annotation, labels: seq<string>, side: int, sqrt: real -> real)
      returns (err: Option<Error>)
      modifies this
      ensures Parsed(boxes, err)
           == ParseObjects(old(boxes), ann.objects, ann.width, ann.height, labels, side, sqrt)
    {
      var objs := ann.objects;
      for k := 0 to |objs|
        invariant ParseObjects(old(boxes), objs, ann.width, ann.height, labels, side, sqrt)
               == ParseObjects(boxes, objs[k..], ann.width, ann.height, labels, side, sqrt)
      {
        assert objs[k..][0] == objs[k] && objs[k..][1..] == objs[k + 1..];
        var placed := EncodeBox(objs[k], ann.width, ann.height, labels, side, sqrt);
        if placed.Err? {
          return Some(placed.error);
        }
        var p := placed.value;
        var cell := ResolveCell(boxes, p.row, p.col);
        if cell.Err? {
          return Some(cell.error);
        }
        var (r, c) := cell.value;
        boxes := boxes[r := boxes[r][c := Cell(true, boxes[r][c].objs + [p.info])]];
      }
      assert objs[|objs|..] == [];
      return None;
    }
  }
}
