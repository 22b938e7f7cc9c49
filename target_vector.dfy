/** The training target of one image (the inner loops of
    `generate_batch_data`): the 7 x 7 grid flattened row by row into 25
    entries per cell, `x, y, h, w`, a 20-way one-hot class vector and the
    objectness flag. Only the first object of a cell is written. */
module TargetVector {
  import opened PyBuiltins
  import opened VocData
  import opened BoxEncoding
  import opened ImageGrid

  /** The flattening is written for a 7 x 7 grid and 20 classes. */
  const Side: nat := 7
  const NumClasses: nat := 20
  /** Entries per cell: four coordinates, the class vector, objectness. */
  const CellLen: nat := 25
  const TargetLen: nat := 1225

  /** `[0] * n` */
  function Zeros(n: nat): (v: seq<real>)
    ensures |v| == n && forall i :: 0 <= i < n ==> v[i] == 0.0
  {
    seq(n, _ => 0.0)
  }

  /** `labels = [0] * 20; labels[k] = 1`: its only 1 is at `k`. */
  function OneHot(k: nat): (v: seq<real>)
    requires k < NumClasses
    ensures |v| == NumClasses
    ensures forall i :: 0 <= i < NumClasses ==> (v[i] == 1.0 <==> i == k)
    ensures forall i :: 0 <= i < NumClasses && i != k ==> v[i] == 0.0
    ensures IndexOf(v, 1.0) == Some(k)
  {
    var v := Zeros(NumClasses)[k := 1.0];
    assert v[k] == 1.0;
    v
  }

  /** What the flattening needs of a cell: an occupied cell has a first
      object, and its class number indexes the 20-entry class vector. */
  predicate CellReady(c: Cell)
  {
    c.hasObj ==> |c.objs| > 0 && c.objs[0].classNum < NumClasses
  }

  /** What the flattening needs of a row: at least 7 cells, each of the
      cells it reads ready. */
  predicate RowReady(row: seq<Cell>)
  {
    |row| >= Side && forall j :: 0 <= j < Side ==> CellReady(row[j])
  }

  /** What the flattening needs of a grid: at least 7 rows, each ready. */
  predicate GridReady(g: Grid)
  {
    |g| >= Side && forall i :: 0 <= i < Side ==> RowReady(g[i])
  }

  /** The 25 entries one cell contributes. */
  function CellVector(c: Cell): (v: seq<real>)
    requires CellReady(c)
    ensures |v| == CellLen
  {
    if c.hasObj then
      var o := c.objs[0];
      [o.x, o.y, o.h, o.w] + OneHot(o.classNum) + [1.0]
    else
      Zeros(CellLen)
  }

  /** Reads 25 entries back as a cell's first object (the class is the
      position of the 1 in the class vector), or None when the objectness
      entry is not 1. */
  function DecodeCell(v: seq<real>): Option<ObjInfo>
    requires |v| == CellLen
  {
    if v[CellLen - 1] != 1.0 then None
    else
      match IndexOf(v[4..4 + NumClasses], 1.0)
      case None => None
      case Some(k) => Some(ObjInfo(v[0], v[1], v[2], v[3], k))
  }

  /** A cell's 25 entries determine exactly its first object, or that it is empty. */
  lemma CellRoundTrip(c: Cell)
    requires CellReady(c)
    ensures DecodeCell(CellVector(c)) == if c.hasObj then Some(c.objs[0]) else None
  {
    var v := CellVector(c);
    if c.hasObj {
      var o := c.objs[0];
      assert v[4..4 + NumClasses] == OneHot(o.classNum);
    } else {
      assert v[CellLen - 1] == 0.0;
    }
  }

  /** Objects after the first never reach the target. */
  lemma LaterObjectsIgnored(c: Cell, more: seq<ObjInfo>)
    requires CellReady(c) && c.hasObj
    ensures CellReady(Cell(true, c.objs + more))
    ensures CellVector(Cell(true, c.objs + more)) == CellVector(c)
  {
    assert (c.objs + more)[0] == c.objs[0];
  }

  /** The entries of the first `j` cells of a row, left to right. */
  function RowPrefix(row: seq<Cell>, j: nat): seq<real>
    requires RowReady(row) && j <= Side
  {
    if j == 0 then [] else RowPrefix(row, j - 1) + CellVector(row[j - 1])
  }

  /** The entries of the first `i` rows, top to bottom. */
  function GridPrefix(g: Grid, i: nat): seq<real>
    requires GridReady(g) && i <= Side
  {
    if i == 0 then [] else GridPrefix(g, i - 1) + RowPrefix(g[i - 1], Side)
  }

  /** The target vector of a grid. */
  function Target(g: Grid): seq<real>
    requires GridReady(g)
  {
    GridPrefix(g, Side)
  }

  /** The first `j` cells of a row take 25 entries each, in order. */
  lemma {:induction false} RowPrefixAt(row: seq<Cell>, j: nat, c: nat, k: nat)
    requires RowReady(row) && j <= Side
    ensures |RowPrefix(row, j)| == CellLen * j
    ensures c < j && k < CellLen ==> RowPrefix(row, j)[CellLen * c + k] == CellVector(row[c])[k]
  {
    if j > 0 {
      RowPrefixAt(row, j - 1, c, k);
      if c < j - 1 && k < CellLen {
        assert CellLen * c + k < CellLen * (j - 1);
      }
    }
  }

  /** The first `i` rows take 7 * 25 entries each, in order. */
  lemma {:induction false} GridPrefixAt(g: Grid, i: nat, r: nat, m: nat)
    requires GridReady(g) && i <= Side
    ensures |GridPrefix(g, i)| == Side * CellLen * i
    ensures r < i && m < Side * CellLen ==>
              |RowPrefix(g[r], Side)| == Side * CellLen
              && GridPrefix(g, i)[Side * CellLen * r + m] == RowPrefix(g[r], Side)[m]
  {
    if i > 0 {
      RowPrefixAt(g[i - 1], Side, 0, 0);
      GridPrefixAt(g, i - 1, r, m);
      if r < i - 1 && m < Side * CellLen {
        assert Side * CellLen * r + m < Side * CellLen * (i - 1);
      }
    }
  }

  /** Entry `k` of cell `(i, j)` sits at `25 * (7 * i + j) + k` of the target. */
  lemma TargetAt(g: Grid, i: nat, j: nat, k: nat)
    requires GridReady(g) && i < Side && j < Side && k < CellLen
    ensures |Target(g)| == TargetLen
    ensures Target(g)[CellLen * (Side * i + j) + k] == CellVector(g[i][j])[k]
  {
    var m := CellLen * j + k;
    assert CellLen * (Side * i + j) + k == Side * CellLen * i + m;
    GridPrefixAt(g, Side, i, m);
    RowPrefixAt(g[i], Side, j, k);
  }

  /** The layout of the target: 1225 entries, and cell `(i, j)` occupies the
      25 entries from `25 * (7 * i + j)` on. */
  lemma TargetLayout(g: Grid, i: nat, j: nat)
    requires GridReady(g) && i < Side && j < Side
    ensures |Target(g)| == TargetLen
    ensures var at := CellLen * (Side * i + j);
            Target(g)[at..at + CellLen] == CellVector(g[i][j])
  {
    var at := CellLen * (Side * i + j);
    var t := Target(g);
    TargetAt(g, i, j, 0);
    forall k | 0 <= k < CellLen ensures t[at..at + CellLen][k] == CellVector(g[i][j])[k] {
      TargetAt(g, i, j, k);
    }
  }

  /** Reading cell `(i, j)`'s slice of the target gives back its first
      object, or None when it is empty. */
  lemma TargetDecodes(g: Grid, i: nat, j: nat)
    requires GridReady(g) && i < Side && j < Side
    ensures var at := CellLen * (Side * i + j);
            at + CellLen <= |Target(g)|
            && DecodeCell(Target(g)[at..at + CellLen])
               == if g[i][j].hasObj then Some(g[i][j].objs[0]) else None
  {
    TargetLayout(g, i, j);
    CellRoundTrip(g[i][j]);
  }

  /** Grids whose class numbers come from a list of at most 20 labels are ready. */
  lemma WellFormedIsReady(g: Grid, numLabels: nat)
    requires WellFormedGrid(g, numLabels) && numLabels <= NumClasses
    requires |g| >= Side && forall i :: 0 <= i < Side ==> |g[i]| >= Side
    ensures GridReady(g)
  {
    forall i, j | 0 <= i < Side && 0 <= j < Side ensures CellReady(g[i][j]) {
      assert CellWellFormed(g[i][j], numLabels);
    }
    assert forall i :: 0 <= i < Side ==> RowReady(g[i]);
  }

  /** Two objects that `parseXML` stores in the same, so far empty, cell:
      the target of that cell describes the first one. */
  lemma FirstBoxWins(g: Grid, o1: RawObject, o2: RawObject, width: int, height: int,
                     labels: seq<string>, side: int, sqrt: real -> real, r: nat, c: nat)
    requires WellFormedGrid(g, |labels|) && |labels| <= NumClasses
    requires r < |g| && c < |g[r]| && !g[r][c].hasObj
    requires var p1 := EncodeBox(o1, width, height, labels, side, sqrt);
             p1.Ok? && ResolveCell(g, p1.value.row, p1.value.col) == Ok((r, c))
    requires var p2 := EncodeBox(o2, width, height, labels, side, sqrt);
             p2.Ok? && ResolveCell(g, p2.value.row, p2.value.col) == Ok((r, c))
    ensures var out := ParseObjects(g, [o1, o2], width, height, labels, side, sqrt);
            && out.err.None?
            && r < |out.grid| && c < |out.grid[r]|
            && CellReady(out.grid[r][c])
            && DecodeCell(CellVector(out.grid[r][c]))
               == Some(EncodeBox(o1, width, height, labels, side, sqrt).value.info)
  {
    var p1 := EncodeBox(o1, width, height, labels, side, sqrt).value;
    var p2 := EncodeBox(o2, width, height, labels, side, sqrt).value;
    var g1 := AddToCell(g, r, c, p1.info);
    assert EncodeOne(g, o1, width, height, labels, side, sqrt) == Ok(g1);
    assert ResolveCell(g1, p2.row, p2.col) == Ok((r, c));
    var g2 := AddToCell(g1, r, c, p2.info);
    assert EncodeOne(g1, o2, width, height, labels, side, sqrt) == Ok(g2);
    assert ParseObjects(g1, [o2], width, height, labels, side, sqrt) == Parsed(g2, None) by {
      assert [o2][1..] == [];
    }
    assert ParseObjects(g, [o1, o2], width, height, labels, side, sqrt) == Parsed(g2, None) by {
      assert [o1, o2][0] == o1 && [o1, o2][1..] == [o2];
    }
    assert g[r][c].objs == [] by {
      assert CellWellFormed(g[r][c], |labels|);
    }
    assert g2[r][c].objs == [p1.info, p2.info];
    CellRoundTrip(g2[r][c]);
  }

  /** The body of the flattening loop for one cell: `x, y, h, w` of the
      first object, its class vector and 1, or 25 zeros for an empty cell. */
  method AppendCell(y: seq<real>, box: Cell) returns (y': seq<real>)
    requires CellReady(box)
    ensures y' == y + CellVector(box)
  {
    y' := y;
    if box.hasObj {
      var obj := box.objs[0];
      y' := y' + [obj.x];
      y' := y' + [obj.y];
      y' := y' + [obj.h];
      y' := y' + [obj.w];
      var labels := Zeros(NumClasses);
      labels := labels[obj.classNum := 1.0];
      y' := y' + labels;
      y' := y' + [1.0];
      assert labels == OneHot(obj.classNum);
      assert y' == y + ([obj.x, obj.y, obj.h, obj.w] + labels + [1.0]);
    } else {
      y' := y' + Zeros(CellLen);
    }
  }

  /** The inner flattening loop: appends the cells of row `i`, left to right. */
  method AppendRow(y: seq<real>, row: seq<Cell>) returns (y': seq<real>)
    requires RowReady(row)
    ensures y' == y + RowPrefix(row, Side)
  {
    y' := y;
    for j := 0 to Side
      invariant y' == y + RowPrefix(row, j)
    {
      y' := AppendCell(y', row[j]);
    }
  }

  /** The flattening loop for one image: appends each cell's entries, row
      by row, and produces the target vector. */
  method Flatten(boxes: Grid) returns (y: seq<real>)
    requires GridReady(boxes)
    ensures |y| == TargetLen
    ensures y == Target(boxes)
  {
    y := [];
    for i := 0 to Side
      invariant y == GridPrefix(boxes, i)
    {
      y := AppendRow(y, boxes[i]);
    }
    GridPrefixAt(boxes, Side, 0, 0);
  }

  /** The loop over a batch's images in `generate_batch_data`: each
      image's path (what the picture is cropped from) and its target vector,
      one per image, in order. */
  method BatchArrays(images: seq<Image>) returns (paths: seq<string>, targets: seq<seq<real>>)
    requires forall k :: 0 <= k < |images| ==> GridReady(images[k].boxes)
    ensures |paths| == |targets| == |images|
    ensures forall k :: 0 <= k < |images| ==> paths[k] == images[k].imgPath
    ensures forall k :: 0 <= k < |images| ==> |targets[k]| == TargetLen && targets[k] == Target(images[k].boxes)
  {
    paths, targets := [], [];
    for k := 0 to |images|
      invariant |paths| == |targets| == k
      invariant forall m :: 0 <= m < k ==> paths[m] == images[m].imgPath
      invariant forall m :: 0 <= m < k ==> |targets[m]| == TargetLen && targets[m] == Target(images[m].boxes)
    {
      var y := Flatten(images[k].boxes);
      paths := paths + [images[k].imgPath];
      targets := targets + [y];
    }
  }
}
