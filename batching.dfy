/** The batching of `generate_batch_data` and `prepareBatch`: each epoch
    cuts the first 5000 lines of the name list into windows of
    `batch_size`, and each window becomes a list of parsed images and their
    target vectors, in name order. */
module Batching {
  import opened PyBuiltins
  import opened VocData
  import opened ImageGrid
  import opened TargetVector

  /** Only the first 5000 names are used in an epoch. */
  const SampleNumber: nat := 5000

  /** `range(lo, stop, step)` for a positive step. */
  function Starts(lo: int, stop: int, step: nat): seq<int>
    requires step > 0
    decreases stop - lo
  {
    if lo >= stop then [] else [lo] + Starts(lo + step, stop, step)
  }

  /** `range(0, 5000, batch_size)`: the first index of every window of an
      epoch. A step of 0 raises ValueError; a negative step gives no window. */
  function EpochStarts(batchSize: int): (r: Result<seq<int>>)
    ensures r.Err? <==> batchSize == 0
    ensures r.Err? ==> r.error == ZeroStep
    ensures batchSize < 0 ==> r == Ok([])
  {
    if batchSize == 0 then Err(ZeroStep)
    else if batchSize < 0 then Ok([])
    else Ok(Starts(0, SampleNumber, batchSize))
  }

  /** The `k`-th element of `range(lo, stop, step)` is `lo + k * step`, and
      there are just enough of them to pass `stop`. */
  lemma {:induction false} StartsShape(lo: int, stop: int, step: nat)
    requires step > 0
    ensures var s := Starts(lo, stop, step);
            forall k :: 0 <= k < |s| ==> s[k] == lo + k * step
    ensures var s := Starts(lo, stop, step);
            lo < stop ==> |s| > 0 && lo + (|s| - 1) * step < stop <= lo + |s| * step
    ensures lo >= stop ==> Starts(lo, stop, step) == []
    decreases stop - lo
  {
    if lo < stop {
      var s := Starts(lo, stop, step);
      var rest := Starts(lo + step, stop, step);
      StartsShape(lo + step, stop, step);
      assert s == [lo] + rest;
      forall k | 0 <= k < |s| ensures s[k] == lo + k * step {
        if k > 0 {
          assert s[k] == rest[k - 1];
          assert (k - 1) * step + step == k * step;
        }
      }
      if lo + step < stop {
        assert (|rest| - 1) * step + step == (|s| - 1) * step;
        assert |rest| * step + step == |s| * step;
      } else {
        assert |s| == 1;
      }
    }
  }

  /** Cancelling a positive factor from a strict inequality. */
  lemma MulLessCancel(a: int, c: int, b: int)
    requires b > 0 && a * b < c * b
    ensures a < c
  {
    assert c * b - a * b == (c - a) * b;
  }

  /** `k` is `n / b` exactly when `k * b <= n < (k + 1) * b`. */
  lemma DivUnique(n: int, b: int, k: int)
    requires b > 0
    ensures k * b <= n < k * b + b <==> k == n / b
  {
    var q := n / b;
    assert q * b <= n < q * b + b;
    if k * b <= n < k * b + b {
      assert k * b < (q + 1) * b;
      MulLessCancel(k, q + 1, b);
      assert q * b < (k + 1) * b;
      MulLessCancel(q, k + 1, b);
    }
  }

  /** The windows of an epoch, `[i, i + batch_size)` for each start `i`:
      window `k` starts at `k * batch_size`, each starts where the previous
      one ends (so none overlap), the last one starts below 5000 and ends at
      or past it, and there are ceil(5000 / batch_size) of them. */
  lemma EpochWindows(batchSize: int)
    requires batchSize > 0
    ensures EpochStarts(batchSize).Ok?
    ensures var w := EpochStarts(batchSize).value;
            && |w| == (SampleNumber + batchSize - 1) / batchSize
            && (forall k :: 0 <= k < |w| ==> w[k] == k * batchSize)
            && (forall k :: 0 <= k < |w| - 1 ==> w[k] + batchSize == w[k + 1])
            && w[|w| - 1] < SampleNumber <= w[|w| - 1] + batchSize
  {
    var w := Starts(0, SampleNumber, batchSize);
    StartsShape(0, SampleNumber, batchSize);
    var m := |w|;
    assert (m - 1) * batchSize + batchSize == m * batchSize;
    DivUnique(SampleNumber + batchSize - 1, batchSize, m);
    forall k | 0 <= k < m - 1 ensures w[k] + batchSize == w[k + 1] {
      assert k * batchSize + batchSize == (k + 1) * batchSize;
    }
  }

  /** Every one of the first 5000 names falls in exactly one window: the
      one numbered `idx / batch_size`. */
  lemma WindowOfIndex(batchSize: int, idx: int, k: int)
    requires batchSize > 0 && 0 <= idx < SampleNumber
    ensures var w := EpochStarts(batchSize).value;
            0 <= idx / batchSize < |w|
            && (0 <= k < |w| ==> (w[k] <= idx < w[k] + batchSize <==> k == idx / batchSize))
  {
    var w := EpochStarts(batchSize).value;
    EpochWindows(batchSize);
    var m := |w|;
    var q := idx / batchSize;
    DivUnique(idx, batchSize, q);
    assert 0 <= q by {
      assert -1 * batchSize < q * batchSize;
      MulLessCancel(-1, q, batchSize);
    }
    assert q < m by {
      assert (m - 1) * batchSize + batchSize == m * batchSize;
      assert q * batchSize < m * batchSize;
      MulLessCancel(q, m, batchSize);
    }
    if 0 <= k < m {
      DivUnique(idx, batchSize, k);
    }
  }

  /** With batches of 32 an epoch has 157 windows, not 156: the last one,
      `[4992, 5024)`, reads 24 names past the first 5000. */
  lemma EpochOf32()
    ensures var w := EpochStarts(32).value;
            |w| == 157 && w[156] == 4992 && w[156] + 32 == 5024
  {
    EpochWindows(32);
  }

  /** Line `i` of the name list without its newline (`strip('\n')`), or
      IndexError. */
  function SampleName(lines: seq<string>, i: int): (r: Result<string>)
    ensures r.Ok? <==> -|lines| <= i < |lines|
    ensures r.Ok? && 0 <= i ==> r.value == StripChar(lines[i], '\n')
  {
    match PyIndex(i, |lines|)
    case None => Err(IndexError)
    case Some(k) => Ok(StripChar(lines[k], '\n'))
  }

  /** What `image(7, path)` followed by `parseXML(xml, labels, 7)` yields
      for an annotation. */
  function LoadGrid(ann: Annotation, labels: seq<string>, sqrt: real -> real): Parsed
  {
    ParseObjects(EmptyGrid(Side), ann.objects, ann.width, ann.height, labels, Side, sqrt)
  }

  /** The exception loading sample `i` raises, if any: a missing line, or
      the first object of its annotation that raises. `annotationOf` stands
      for reading and parsing the sample's annotation file. */
  function SampleError(lines: seq<string>, i: int, labels: seq<string>, annotationOf: string -> Annotation,
                       sqrt: real -> real): Option<Error>
  {
    match SampleName(lines, i)
    case Err(e) => Some(e)
    case Ok(name) =>
      var ann := annotationOf(name);
      FirstObjectError(ann.objects, ann.width, ann.height, labels, Side, sqrt)
  }

  /** The exception of the first failing sample among `lo, ..., hi - 1`. */
  function FirstError(lines: seq<string>, lo: int, hi: int, labels: seq<string>, annotationOf: string -> Annotation,
                      sqrt: real -> real): Option<Error>
    decreases hi - lo
  {
    if lo >= hi then None
    else if SampleError(lines, lo, labels, annotationOf, sqrt).Some? then SampleError(lines, lo, labels, annotationOf, sqrt)
    else FirstError(lines, lo + 1, hi, labels, annotationOf, sqrt)
  }

  /** `FirstError` is None exactly when no sample in the range fails. */
  lemma {:induction false} FirstErrorNone(lines: seq<string>, lo: int, hi: int,
                                          labels: seq<string>, annotationOf: string -> Annotation, sqrt: real -> real)
    ensures FirstError(lines, lo, hi, labels, annotationOf, sqrt).None? <==>
              forall i :: lo <= i < hi ==> SampleError(lines, i, labels, annotationOf, sqrt).None?
    decreases hi - lo
  {
    if lo < hi {
      FirstErrorNone(lines, lo + 1, hi, labels, annotationOf, sqrt);
    }
  }

  /** Otherwise `FirstError` is the exception of the lowest failing sample. */
  lemma {:induction false} FirstErrorSome(lines: seq<string>, lo: int, hi: int,
                                          labels: seq<string>, annotationOf: string -> Annotation, sqrt: real -> real)
    requires FirstError(lines, lo, hi, labels, annotationOf, sqrt).Some?
    ensures exists i :: && lo <= i < hi
                        && SampleError(lines, i, labels, annotationOf, sqrt) == FirstError(lines, lo, hi, labels, annotationOf, sqrt)
                        && forall j :: lo <= j < i ==> SampleError(lines, j, labels, annotationOf, sqrt).None?
    decreases hi - lo
  {
    if SampleError(lines, lo, labels, annotationOf, sqrt).None? {
      FirstErrorSome(lines, lo + 1, hi, labels, annotationOf, sqrt);
      var i :| && lo + 1 <= i < hi
               && SampleError(lines, i, labels, annotationOf, sqrt) == FirstError(lines, lo + 1, hi, labels, annotationOf, sqrt)
               && forall j :: lo + 1 <= j < i ==> SampleError(lines, j, labels, annotationOf, sqrt).None?;
      assert forall j :: lo <= j < i ==> SampleError(lines, j, labels, annotationOf, sqrt).None?;
    }
  }

  /** Unfolds `FirstError` at its first sample. */
  lemma FirstErrorStep(lines: seq<string>, lo: int, hi: int, labels: seq<string>, annotationOf: string -> Annotation,
                       sqrt: real -> real)
    requires lo < hi
    ensures SampleError(lines, lo, labels, annotationOf, sqrt).None? ==>
              FirstError(lines, lo, hi, labels, annotationOf, sqrt) == FirstError(lines, lo + 1, hi, labels, annotationOf, sqrt)
    ensures SampleError(lines, lo, labels, annotationOf, sqrt).Some? ==>
              FirstError(lines, lo, hi, labels, annotationOf, sqrt) == SampleError(lines, lo, labels, annotationOf, sqrt)
  {
  }

  /** Every loaded grid is 7 x 7 and well formed, so it can be flattened,
      whether or not parsing stopped early. */
  lemma LoadedGridReady(ann: Annotation, labels: seq<string>, sqrt: real -> real)
    requires |labels| <= NumClasses
    ensures GridReady(LoadGrid(ann, labels, sqrt).grid)
  {
    var g := EmptyGrid(Side);
    assert WellFormedGrid(g, |labels|);
    var out := LoadGrid(ann, labels, sqrt);
    ParseObjectsAppends(g, ann.objects, ann.width, ann.height, labels, Side, sqrt);
    WellFormedIsReady(out.grid, |labels|);
  }

  /** The target vector of a loaded annotation. */
  function LoadTarget(ann: Annotation, labels: seq<string>, sqrt: real -> real): seq<real>
    requires |labels| <= NumClasses
  {
    LoadedGridReady(ann, labels, sqrt);
    Target(LoadGrid(ann, labels, sqrt).grid)
  }

  /** `img` is what loading line `i` of the name list yields: its path is
      that of the stripped name, its grid the parsed annotation. */
  predicate IsLoaded(img: Image, lines: seq<string>, i: int, labels: seq<string>, annotationOf: string -> Annotation,
                     pathOf: string -> string, sqrt: real -> real)
    reads img
  {
    && SampleName(lines, i).Ok?
    && img.imgPath == pathOf(SampleName(lines, i).value)
    && img.boxes == LoadGrid(annotationOf(SampleName(lines, i).value), labels, sqrt).grid
  }

  /** The body of the loop in `prepareBatch` for line `i`: strip the name,
      build a fresh 7 x 7 image and parse its annotation into it. */
  method LoadImage(lines: seq<string>, i: int, labels: seq<string>, annotationOf: string -> Annotation,
                   pathOf: string -> string, sqrt: real -> real) returns (r: Result<Image>)
    ensures r.Ok? <==> SampleError(lines, i, labels, annotationOf, sqrt).None?
    ensures r.Err? ==> SampleError(lines, i, labels, annotationOf, sqrt) == Some(r.error)
    ensures r.Ok? ==> fresh(r.value) && IsLoaded(r.value, lines, i, labels, annotationOf, pathOf, sqrt)
  {
    var name := SampleName(lines, i);
    if name.Err? {
      return Err(name.error);
    }
    var ann := annotationOf(name.value);
    var img := new Image(Side, pathOf(name.value));
    var err := img.ParseXML(ann, labels, Side, sqrt);
    ParseErrorIsFirstObjectError(EmptyGrid(Side), ann.objects, ann.width, ann.height, labels, Side, sqrt);
    if err.Some? {
      return Err(err.value);
    }
    return Ok(img);
  }

  /** The images loaded for lines `start, start + 1, ...`, in order. */
  predicate LoadedFrom(imageList: seq<Image>, start: int, lines: seq<string>,
                       labels: seq<string>, annotationOf: string -> Annotation, pathOf: string -> string, sqrt: real -> real)
    reads set k | 0 <= k < |imageList| :: imageList[k]
  {
    forall k :: 0 <= k < |imageList| ==>
      IsLoaded(imageList[k], lines, start + k, labels, annotationOf, pathOf, sqrt)
  }

  /** `prepareBatch(start, end)`: one parsed image per line `start`, ...,
      `end - 1` of the name list, in that order, so `end - start` of them;
      the first failing line's exception otherwise. `pathOf` stands for the
      path joining. */
  method PrepareBatch(start: int, end: int, lines: seq<string>, labels: seq<string>, annotationOf: string -> Annotation,
                      pathOf: string -> string, sqrt: real -> real) returns (r: Result<seq<Image>>)
    ensures r.Ok? <==> FirstError(lines, start, end, labels, annotationOf, sqrt).None?
    ensures r.Err? ==> FirstError(lines, start, end, labels, annotationOf, sqrt) == Some(r.error)
    ensures r.Ok? ==> |r.value| == if start <= end then end - start else 0
    ensures r.Ok? ==> LoadedFrom(r.value, start, lines, labels, annotationOf, pathOf, sqrt)
  {
    var imageList: seq<Image> := [];
    var i := start;
    while i < end
      invariant i == start + |imageList|
      invariant start <= end ==> i <= end
      invariant end < start ==> imageList == []
      invariant FirstError(lines, start, end, labels, annotationOf, sqrt)
             == FirstError(lines, i, end, labels, annotationOf, sqrt)
      invariant LoadedFrom(imageList, start, lines, labels, annotationOf, pathOf, sqrt)
      decreases end - i
    {
      FirstErrorStep(lines, i, end, labels, annotationOf, sqrt);
      var img := LoadImage(lines, i, labels, annotationOf, pathOf, sqrt);
      if img.Err? {
        return Err(img.error);
      }
      imageList := imageList + [img.value];
      i := i + 1;
    }
    return Ok(imageList);
  }

  /** `path` and `target` describe line `i` of the name list: the path of
      the stripped name and the target vector of its annotation. */
  predicate SampleData(path: string, target: seq<real>, i: int, lines: seq<string>, labels: seq<string>,
                       annotationOf: string -> Annotation, pathOf: string -> string, sqrt: real -> real)
    requires |labels| <= NumClasses
  {
    && SampleName(lines, i).Ok?
    && path == pathOf(SampleName(lines, i).value)
    && target == LoadTarget(annotationOf(SampleName(lines, i).value), labels, sqrt)
  }

  /** `paths` and `targets` describe lines `i, i + 1, ...` of the name list, in order. */
  predicate WindowData(paths: seq<string>, targets: seq<seq<real>>, i: int, lines: seq<string>, labels: seq<string>,
                       annotationOf: string -> Annotation, pathOf: string -> string, sqrt: real -> real)
    requires |labels| <= NumClasses
  {
    && |paths| == |targets|
    && forall k :: 0 <= k < |paths| ==>
         SampleData(paths[k], targets[k], i + k, lines, labels, annotationOf, pathOf, sqrt)
  }

  /** One step of the epoch loop for the window starting at `i`: the image
      paths handed to the image loader and the target vectors, one per
      name, in name order. */
  method NextBatch(i: int, batchSize: int, lines: seq<string>, labels: seq<string>, annotationOf: string -> Annotation,
                   pathOf: string -> string, sqrt: real -> real)
    returns (r: Result<(seq<string>, seq<seq<real>>)>)
    requires |labels| <= NumClasses
    ensures r.Ok? <==> FirstError(lines, i, i + batchSize, labels, annotationOf, sqrt).None?
    ensures r.Err? ==> FirstError(lines, i, i + batchSize, labels, annotationOf, sqrt) == Some(r.error)
    ensures r.Ok? ==> |r.value.0| == if batchSize < 0 then 0 else batchSize
    ensures r.Ok? ==> WindowData(r.value.0, r.value.1, i, lines, labels, annotationOf, pathOf, sqrt)
  {
    var batch := PrepareBatch(i, i + batchSize, lines, labels, annotationOf, pathOf, sqrt);
    if batch.Err? {
      return Err(batch.error);
    }
    var imageList := batch.value;
    forall k | 0 <= k < |imageList| ensures GridReady(imageList[k].boxes) {
      assert IsLoaded(imageList[k], lines, i + k, labels, annotationOf, pathOf, sqrt);
      LoadedGridReady(annotationOf(SampleName(lines, i + k).value), labels, sqrt);
    }
    var paths, boxes := BatchArrays(imageList);
    forall k | 0 <= k < |paths|
      ensures SampleData(paths[k], boxes[k], i + k, lines, labels, annotationOf, pathOf, sqrt)
    {
      assert IsLoaded(imageList[k], lines, i + k, labels, annotationOf, pathOf, sqrt);
      assert paths[k] == imageList[k].imgPath;
      assert boxes[k] == Target(imageList[k].boxes);
    }
    assert WindowData(paths, boxes, i, lines, labels, annotationOf, pathOf, sqrt);
    return Ok((paths, boxes));
  }
}
