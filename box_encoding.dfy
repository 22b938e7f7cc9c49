/** The per-box arithmetic of `image.parseXML`: rescale a box into the
    448-pixel canonical frame, pick the grid cell that holds its centre, and
    compute the in-cell offsets and the size terms of the `objInfo`. */
module BoxEncoding {
  import opened PyBuiltins
  import opened VocData

  /** Where a box is to be stored: the row and column as computed (before
      the grid is subscripted with them) and the record to append there. */
  datatype Placement = Placement(row: int, col: int, info: ObjInfo)

  /** `(hi + lo) / 2.0`: the centre of a box along one axis, in source pixels. */
  function Center(lo: int, hi: int): real
  {
    (hi + lo) as real / 2.0
  }

  /** `(448.0 / dim) * v`: a source coordinate rescaled into the canonical frame. */
  function Rescale(v: real, dim: int): real
    requires dim != 0
  {
    (Canonical / dim as real) * v
  }

  /** `448.0 / side`: the edge of one grid cell in the canonical frame. */
  function CellSize(side: int): real
    requires side != 0
  {
    Canonical / side as real
  }

  /** `int(pos / cell_size)`: the row or column a canonical coordinate falls in. */
  function CellIndex(pos: real, side: int): int
    requires side != 0
  {
    Trunc(pos / CellSize(side))
  }

  /** `(pos - index * cell_size) / cell_size`: the offset inside that cell,
      in units of the cell size. */
  function CellOffset(pos: real, side: int): real
    requires side != 0
  {
    (pos - CellIndex(pos, side) as real * CellSize(side)) / CellSize(side)
  }

  /** `extent * (448.0 / dim) / 448.0`, the value handed to `np.sqrt`: the
      extent as a fraction of the source dimension. */
  function SizeTerm(extent: int, dim: int): (r: real)
    requires dim != 0
    ensures r == extent as real / dim as real
  {
    extent as real * (Canonical / dim as real) / Canonical
  }

  /** Encodes one raw object (the body of the loop in `parseXML`): looks up
      the class number, then computes the cell and the `objInfo`. `sqrt`
      stands for `np.sqrt`. */
  function EncodeBox(o: RawObject, width: int, height: int, labels: seq<string>, side: int,
                     sqrt: real -> real): (r: Result<Placement>)
    ensures r == Err(UnknownLabel) <==> o.name !in labels
    ensures r == Err(ZeroDivision) <==> o.name in labels && (width == 0 || height == 0 || side == 0)
    ensures r.Ok? || r == Err(UnknownLabel) || r == Err(ZeroDivision)
    ensures r.Ok? ==> var k := r.value.info.classNum;
                      k < |labels| && labels[k] == o.name && o.name !in labels[..k]
    ensures r.Ok? ==> r.value.info.h == sqrt((o.ymax - o.ymin) as real / height as real)
    ensures r.Ok? ==> r.value.info.w == sqrt((o.xmax - o.xmin) as real / width as real)
  {
    match IndexOf(labels, o.name)
    case None => Err(UnknownLabel)
    case Some(classNum) =>
      if width == 0 || height == 0 || side == 0 then Err(ZeroDivision)
      else
        var newx := Rescale(Center(o.xmin, o.xmax), width);
        var newy := Rescale(Center(o.ymin, o.ymax), height);
        var info := ObjInfo(CellOffset(newx, side), CellOffset(newy, side),
                            sqrt(SizeTerm(o.ymax - o.ymin, height)),
                            sqrt(SizeTerm(o.xmax - o.xmin, width)), classNum);
        Ok(Placement(CellIndex(newy, side), CellIndex(newx, side), info))
  }

  /** The size term lies in [0, 1] exactly when the extent lies in [0, dim]. */
  lemma SizeTermBounds(extent: int, dim: int)
    requires dim > 0
    ensures 0.0 <= SizeTerm(extent, dim) <= 1.0 <==> 0 <= extent <= dim
  {
    var q := extent as real / dim as real;
    assert q * dim as real == extent as real;
    if 0.0 <= q <= 1.0 {
      assert q * dim as real <= dim as real;
    }
  }

  /** Dividing the rescaled centre by the cell size gives `side * (lo + hi) / (2 * dim)`. */
  lemma {:induction false} ScaledCenter(lo: int, hi: int, dim: int, side: int)
    requires dim > 0 && side > 0
    ensures Rescale(Center(lo, hi), dim) / CellSize(side)
         == (side * (lo + hi)) as real / (2 * dim) as real
  {
    var s, d, n := side as real, dim as real, (lo + hi) as real;
    calc {
      Rescale(Center(lo, hi), dim) / CellSize(side);
      ((448.0 / d) * (n / 2.0)) / (448.0 / s);
      { assert (448.0 / d) * (n / 2.0) == 224.0 * n / d; }
      (224.0 * n / d) / (448.0 / s);
      { assert (224.0 * n / d) / (448.0 / s) == (224.0 * n / d) * (s / 448.0); }
      (224.0 * n / d) * (s / 448.0);
      (s * n) / (2.0 * d);
    }
  }

  /** Comparing a quotient by a positive divisor is comparing the dividend. */
  lemma QuotientCompare(x: real, d: real, y: real)
    requires d > 0.0
    ensures x / d < y <==> x < y * d
    ensures 0.0 <= x / d <==> 0.0 <= x
  {
    var q := x / d;
    assert q * d == x;
    assert (y - q) * d == y * d - x;
  }

  /** Scaling by a positive integer keeps order and sign. */
  lemma ScaleCompare(s: int, n: int, d: int)
    requires s > 0
    ensures s * n < s * d <==> n < d
    ensures 0 <= s * n <==> 0 <= n
  {
    assert s * d - s * n == s * (d - n);
  }

  /** The rescaled centre, in units of the cell size, lies in [0, side)
      exactly when the centre lies in [0, dim), and equals `side` on the far
      edge. */
  lemma ScaledCenterRange(lo: int, hi: int, dim: int, side: int)
    requires dim > 0 && side > 0
    ensures var t := Rescale(Center(lo, hi), dim) / CellSize(side);
            && (t < side as real <==> lo + hi < 2 * dim)
            && (0.0 <= t <==> 0 <= lo + hi)
            && (lo + hi == 2 * dim ==> t == side as real)
  {
    ScaledCenter(lo, hi, dim, side);
    var n, d := lo + hi, 2 * dim;
    QuotientCompare((side * n) as real, d as real, side as real);
    assert side as real * d as real == (side * d) as real;
    ScaleCompare(side, n, d);
    if n == d {
      assert (side * n) as real == side as real * d as real;
    }
  }

  /** The offset inside the cell is the fractional part left after the
      cell index: `pos / cell_size - index`. */
  lemma CellOffsetIsRemainder(pos: real, side: int)
    requires side > 0
    ensures CellOffset(pos, side) == pos / CellSize(side) - CellIndex(pos, side) as real
  {
    var cs := CellSize(side);
    var idx := CellIndex(pos, side) as real;
    assert cs > 0.0;
    assert (pos - idx * cs) / cs == pos / cs - idx * cs / cs;
  }

  /** `int()` of a quotient in [0, side) is a cell index in [0, side) with a
      remainder in [0, 1), and only such a quotient gives both. */
  lemma TruncIntoCell(t: real, side: int)
    requires side > 0
    ensures (0 <= Trunc(t) < side && 0.0 <= t - Trunc(t) as real < 1.0) <==> 0.0 <= t < side as real
  {
  }

  /** Multiplying the bracket `idx <= pos / cs < idx + 1` back by the cell size. */
  lemma CellBracket(pos: real, cs: real, idx: int)
    requires cs > 0.0 && idx as real <= pos / cs < (idx + 1) as real
    ensures idx as real * cs <= pos < (idx + 1) as real * cs
  {
    assert pos / cs * cs == pos;
    assert idx as real * cs <= pos / cs * cs;
    assert pos / cs * cs < (idx + 1) as real * cs;
  }

  /** One axis of the cell assignment. The cell index lies in [0, side) and
      the in-cell offset in [0, 1) exactly when the box centre lies inside
      the image; the cell then brackets the rescaled centre. A centre on the
      far edge gives the index `side`: nothing clamps it. */
  lemma {:induction false} AxisPlacement(lo: int, hi: int, dim: int, side: int)
    requires dim > 0 && side > 0
    ensures var pos := Rescale(Center(lo, hi), dim);
            (0 <= CellIndex(pos, side) < side && 0.0 <= CellOffset(pos, side) < 1.0)
              <==> 0 <= lo + hi < 2 * dim
    ensures var pos := Rescale(Center(lo, hi), dim);
            var idx := CellIndex(pos, side);
            0 <= lo + hi < 2 * dim ==>
              idx as real * CellSize(side) <= pos < (idx + 1) as real * CellSize(side)
    ensures lo + hi == 2 * dim ==> CellIndex(Rescale(Center(lo, hi), dim), side) == side
  {
    var pos := Rescale(Center(lo, hi), dim);
    var t := pos / CellSize(side);
    ScaledCenterRange(lo, hi, dim, side);
    CellOffsetIsRemainder(pos, side);
    TruncIntoCell(t, side);
    if 0 <= lo + hi < 2 * dim {
      CellBracket(pos, CellSize(side), CellIndex(pos, side));
    }
  }

  /** Left of (or above) the image nothing clamps either, and `int()`
      truncates toward zero: a centre less than one cell outside gets index 0
      and a negative offset; one to two cells outside gets index -1; and more
      than `side` cells outside gets an index below `-side`, which no
      subscript of a `side`-long list accepts. */
  lemma NegativeCentreCells(pos: real, side: int)
    requires side > 0
    ensures var t := pos / CellSize(side);
            -1.0 < t < 0.0 ==> CellIndex(pos, side) == 0 && CellOffset(pos, side) < 0.0
    ensures var t := pos / CellSize(side);
            -2.0 < t <= -1.0 ==> CellIndex(pos, side) == -1
    ensures var t := pos / CellSize(side);
            t <= -(side + 1) as real ==> CellIndex(pos, side) < -side
  {
    CellOffsetIsRemainder(pos, side);
  }

  /** Both axes of a box whose class is known and whose image and grid
      sizes are positive: encoding succeeds, and the row, the column and the
      offsets are in range exactly when the centre lies inside the image. */
  lemma CentredBoxLandsInGrid(o: RawObject, width: int, height: int, labels: seq<string>,
                              side: int, sqrt: real -> real)
    requires o.name in labels && width > 0 && height > 0 && side > 0
    ensures EncodeBox(o, width, height, labels, side, sqrt).Ok?
    ensures var p := EncodeBox(o, width, height, labels, side, sqrt).value;
            (0 <= p.col < side && 0.0 <= p.info.x < 1.0) <==> 0 <= o.xmin + o.xmax < 2 * width
    ensures var p := EncodeBox(o, width, height, labels, side, sqrt).value;
            (0 <= p.row < side && 0.0 <= p.info.y < 1.0) <==> 0 <= o.ymin + o.ymax < 2 * height
    ensures var p := EncodeBox(o, width, height, labels, side, sqrt).value;
            (o.xmin + o.xmax == 2 * width ==> p.col == side)
            && (o.ymin + o.ymax == 2 * height ==> p.row == side)
  {
    AxisPlacement(o.xmin, o.xmax, width, side);
    AxisPlacement(o.ymin, o.ymax, height, side);
  }

  /** A 200-pixel box centred in a 400 x 400 image lands in cell (3, 3) of
      the 7 x 7 grid, at the middle of the cell, with both size terms 1/2. */
  lemma WorkedExample(sqrt: real -> real)
    ensures EncodeBox(RawObject("aeroplane", 100, 100, 300, 300), 400, 400, VocLabels, 7, sqrt)
         == Ok(Placement(3, 3, ObjInfo(0.5, 0.5, sqrt(0.5), sqrt(0.5), 0)))
  {
    var pos := Rescale(Center(100, 300), 400);
    assert pos == 224.0;
    assert pos / CellSize(7) == 3.5;
    assert CellIndex(pos, 7) == 3;
  }
}
