/** The values the encoder works on: raw annotation boxes, the encoded
    `objInfo` record, grid cells, and the errors the encoder can raise. */
module VocData {

  /** The square frame (in pixels) every box is rescaled into. */
  const Canonical: real := 448.0

  /** The Pascal VOC class names, in the order that fixes each class number. */
  const VocLabels: seq<string> := [
    "aeroplane", "bicycle", "bird", "boat", "bottle", "bus", "car", "cat", "chair", "cow",
    "diningtable", "dog", "horse", "motorbike", "person", "pottedplant", "sheep", "sofa", "train", "tvmonitor"
  ]

  /** The exceptions the modelled code can raise:
      UnknownLabel is the ValueError of `labels.index`, ZeroDivision a zero
      width, height or side, IndexError a list subscript out of range, and
      ZeroStep the ValueError of `range` with step 0. */
  datatype Error = UnknownLabel | ZeroDivision | IndexError | ZeroStep

  datatype Result<T> = Ok(value: T) | Err(error: Error)

  /** One `object` entry of an annotation: its class name and its box corners
      in source-image pixels. */
  datatype RawObject = RawObject(name: string, xmin: int, ymin: int, xmax: int, ymax: int)

  /** The part of an annotation file the encoder reads. */
  datatype Annotation = Annotation(width: int, height: int, objects: seq<RawObject>)

  /** `objInfo`: in-cell centre offsets `x`, `y`, size terms `h`, `w`
      (square roots of the normalised height and width) and the class number. */
  datatype ObjInfo = ObjInfo(x: real, y: real, h: real, w: real, classNum: nat)

  /** `Cell`: whether any object was assigned to it, and every object
      assigned to it, in order. */
  datatype Cell = Cell(hasObj: bool, objs: seq<ObjInfo>)

  const EmptyCell: Cell := Cell(false, [])

  /** An image's `boxes`: a list of rows, each a list of cells. */
  type Grid = seq<seq<Cell>>
}
