/**
 * The geometry codecs of src/strategy.py (and of the inline writer in src/run.py):
 * how one detected instance becomes one annotation line.
 *
 * A line is kept as structured data: the integer class id followed by its
 * coordinates, each coordinate held as an integer number of millionths
 * (the value the text `0.312500` or `0.3125` denotes after rounding to six
 * decimals). The OpenCV contour routines are not part of this model; they
 * enter as the function-valued fields of `ContourOps`.
 */
module Geometry {
  import opened Common

  type Pos = n: int | n > 0 witness 1

  /** The (width, height) that x and y coordinates are divided by. */
  datatype Size = Size(width: Pos, height: Pos)

  /** Both drivers resize every image and frame to 640 x 640 and pass this size to the strategy. */
  const Canonical: Size := Size(640, 640)

  /** `boxes.xyxy[i]`: the corners of a box, in pixels of the resized frame. */
  datatype Box = Box(xmin: real, ymin: real, xmax: real, ymax: real)

  /** One entry of `boxes`: its class id `int(boxes.cls[i])` and its corners. */
  datatype Detected = Detected(classId: nat, box: Box)

  /** A contour vertex, in integer pixel coordinates (x is the column, y the row). */
  datatype Point = Point(x: int, y: int)

  type Contour = seq<Point>

  /** `mask.data[0]`: a raster of per-pixel occupancy scores, `rows` x `cols`. */
  datatype Mask = Mask(rows: Pos, cols: Pos, prob: (nat, nat) -> real)

  /** A binary raster, as handed to `cv2.findContours`. */
  datatype Raster = Raster(rows: Pos, cols: Pos, on: (nat, nat) -> bool)

  /**
   * The OpenCV routines the segmentation writer relies on, left uninterpreted:
   * `findContours` (external contours, in extraction order), `contourArea`,
   * `arcLength` (closed) and `approxPolyDP` (closed, with the given tolerance).
   */
  datatype ContourOps = ContourOps(
    find: Raster -> seq<Contour>,
    area: Contour -> real,
    arcLength: Contour -> real,
    approxPoly: (Contour, real) -> Contour)

  /** One inference result: the boxes with their class ids and, for segmentation models, the masks. */
  datatype Results = Results(boxes: seq<Detected>, masks: Option<seq<Mask>>)

  /** One line of a label file: the class id, then the coordinates in millionths. */
  datatype Line = Line(classId: nat, coords: seq<int>)

  /** Coordinates are written with six decimal digits. */
  const Micro: int := 1000000

  /** `m` millionths is `v` rounded to six decimals. */
  predicate Approximates(m: int, v: real) {
    v * Micro as real - 0.5 < m as real <= v * Micro as real + 0.5
  }

  function Abs(x: real): real { if x < 0.0 then -x else x }

  /** Rounding to six decimal digits (the `:.6f` format and `round(6)`), halves rounded up. */
  function Round6(x: real): (r: int)
    ensures Approximates(r, x)
  {
    (x * Micro as real + 0.5).Floor
  }

  /** A value in [0, 1] rounds to a number of millionths in [0, 10^6]. */
  lemma Round6InUnit(x: real)
    requires 0.0 <= x <= 1.0
    ensures 0 <= Round6(x) <= Micro
  {
  }

  // ---------------------------------------------------------------------
  // Detection: one box becomes centre x, centre y, width, height.
  // ---------------------------------------------------------------------

  /** The exact (unrounded) normalised box of the YOLO detection format. */
  datatype BoxGeometry = BoxGeometry(cx: real, cy: real, w: real, h: real)

  function Normalise(b: Box, s: Size): BoxGeometry {
    var width, height := s.width as real, s.height as real;
    BoxGeometry((b.xmin + b.xmax) / 2.0 / width, (b.ymin + b.ymax) / 2.0 / height,
                (b.xmax - b.xmin) / width, (b.ymax - b.ymin) / height)
  }

  /** The inverse reading of a normalised box: multiply back and recombine the corners. */
  function Denormalise(g: BoxGeometry, s: Size): Box {
    var width, height := s.width as real, s.height as real;
    Box((g.cx - g.w / 2.0) * width, (g.cy - g.h / 2.0) * height,
        (g.cx + g.w / 2.0) * width, (g.cy + g.h / 2.0) * height)
  }

  /** Multiplying back by width and height and recombining recovers the original corners. */
  lemma DenormaliseNormalise(b: Box, s: Size)
    ensures Denormalise(Normalise(b, s), s) == b
  {
  }

  /** Every normalised box is the normalisation of exactly the box it denormalises to. */
  lemma NormaliseDenormalise(g: BoxGeometry, s: Size)
    ensures Normalise(Denormalise(g, s), s) == g
  {
  }

  /** A part of a positive whole is a fraction in [0, 1]. */
  lemma FractionInUnit(part: real, whole: real)
    requires 0.0 <= part <= whole && whole > 0.0
    ensures 0.0 <= part / whole <= 1.0
  {
    assert (part / whole) * whole == part;
  }

  /** A box that lies inside the frame normalises to four values in [0, 1]. */
  lemma NormalisedInUnit(b: Box, s: Size)
    requires 0.0 <= b.xmin <= b.xmax <= s.width as real
    requires 0.0 <= b.ymin <= b.ymax <= s.height as real
    ensures var g := Normalise(b, s);
      0.0 <= g.cx <= 1.0 && 0.0 <= g.cy <= 1.0 && 0.0 <= g.w <= 1.0 && 0.0 <= g.h <= 1.0
  {
    var width, height := s.width as real, s.height as real;
    FractionInUnit((b.xmin + b.xmax) / 2.0, width);
    FractionInUnit((b.ymin + b.ymax) / 2.0, height);
    FractionInUnit(b.xmax - b.xmin, width);
    FractionInUnit(b.ymax - b.ymin, height);
  }

  /** The detection line of one box: its class id and four coordinates, each the normalised value to six decimals. */
  function BoxLine(d: Detected, s: Size): (r: Line)
    ensures r.classId == d.classId && |r.coords| == 4
  {
    var g := Normalise(d.box, s);
    Line(d.classId, [Round6(g.cx), Round6(g.cy), Round6(g.w), Round6(g.h)])
  }

  /** A box inside the frame is written with four coordinates in [0, 1]. */
  lemma BoxLineInUnit(d: Detected, s: Size)
    requires 0.0 <= d.box.xmin <= d.box.xmax <= s.width as real
    requires 0.0 <= d.box.ymin <= d.box.ymax <= s.height as real
    ensures forall k :: 0 <= k < 4 ==> 0 <= BoxLine(d, s).coords[k] <= Micro
  {
    var g := Normalise(d.box, s);
    NormalisedInUnit(d.box, s);
    Round6InUnit(g.cx);
    Round6InUnit(g.cy);
    Round6InUnit(g.w);
    Round6InUnit(g.h);
  }

  /** The box a four-coordinate line denotes, read back in pixels of a frame of size `s`. */
  function Recover(l: Line, s: Size): Box
    requires |l.coords| == 4
  {
    var m := Micro as real;
    Denormalise(BoxGeometry(l.coords[0] as real / m, l.coords[1] as real / m,
                            l.coords[2] as real / m, l.coords[3] as real / m), s)
  }

  /** Six-decimal rounding is off by at most half a millionth. */
  lemma RoundingError(c: int, v: real)
    requires Approximates(c, v)
    ensures Abs(c as real / Micro as real - v) <= 0.5 / Micro as real
  {
  }

  /** An error of at most 3/4 of a millionth, scaled by a positive dimension. */
  lemma ScaledError(err: real, dim: real)
    requires Abs(err) <= 0.75 / Micro as real && dim > 0.0
    ensures Abs(err * dim) <= 3.0 * dim / (4.0 * Micro as real)
  {
    var m := Micro as real;
    assert m == 1000000.0;
    assert Abs(err * dim) == Abs(err) * dim;
    assert Abs(err) * dim <= (0.75 / m) * dim;
    assert (0.75 / m) * dim == 3.0 * dim / (4.0 * m);
    assert Abs(err * dim) <= 3.0 * dim / (4.0 * m);
  }

  /** Recombining a centre and an extent, each off by at most half a millionth, moves both corners by at most 3/4 of a millionth of `dim`. */
  lemma CornerBound(rc: real, re: real, vc: real, ve: real, dim: real, lo: real, hi: real)
    requires Abs(rc - vc) <= 0.5 / Micro as real && Abs(re - ve) <= 0.5 / Micro as real && dim > 0.0
    requires (vc - ve / 2.0) * dim == lo && (vc + ve / 2.0) * dim == hi
    ensures Abs((rc - re / 2.0) * dim - lo) <= 3.0 * dim / (4.0 * Micro as real)
    ensures Abs((rc + re / 2.0) * dim - hi) <= 3.0 * dim / (4.0 * Micro as real)
  {
    var low := (rc - vc) - (re - ve) / 2.0;
    var high := (rc - vc) + (re - ve) / 2.0;
    assert (rc - re / 2.0) * dim - lo == low * dim;
    assert (rc + re / 2.0) * dim - hi == high * dim;
    ScaledError(low, dim);
    ScaledError(high, dim);
  }

  /** One axis of the round trip: the rounded centre and extent of [lo, hi] give back lo and hi up to 3/4 of a millionth of `dim`. */
  lemma AxisRecovers(lo: real, hi: real, dim: Pos, c: int, e: int, rlo: real, rhi: real)
    requires Approximates(c, (lo + hi) / 2.0 / dim as real) && Approximates(e, (hi - lo) / dim as real)
    requires rlo == (c as real / Micro as real - (e as real / Micro as real) / 2.0) * dim as real
    requires rhi == (c as real / Micro as real + (e as real / Micro as real) / 2.0) * dim as real
    ensures Abs(rlo - lo) <= 3.0 * dim as real / (4.0 * Micro as real)
    ensures Abs(rhi - hi) <= 3.0 * dim as real / (4.0 * Micro as real)
  {
    var vc, ve := (lo + hi) / 2.0 / dim as real, (hi - lo) / dim as real;
    assert (vc - ve / 2.0) * dim as real == lo;
    assert (vc + ve / 2.0) * dim as real == hi;
    RoundingError(c, vc);
    RoundingError(e, ve);
    CornerBound(c as real / Micro as real, e as real / Micro as real, vc, ve, dim as real, lo, hi);
  }

  /** The horizontal half of `BoxLineRecovers`. */
  lemma BoxLineRecoversX(d: Detected, s: Size)
    ensures var b := Recover(BoxLine(d, s), s);
      && Abs(b.xmin - d.box.xmin) <= 3.0 * s.width as real / (4.0 * Micro as real)
      && Abs(b.xmax - d.box.xmax) <= 3.0 * s.width as real / (4.0 * Micro as real)
  {
    var g := Normalise(d.box, s);
    var b := Recover(BoxLine(d, s), s);
    AxisRecovers(d.box.xmin, d.box.xmax, s.width, Round6(g.cx), Round6(g.w), b.xmin, b.xmax);
  }

  /** The vertical half of `BoxLineRecovers`. */
  lemma BoxLineRecoversY(d: Detected, s: Size)
    ensures var b := Recover(BoxLine(d, s), s);
      && Abs(b.ymin - d.box.ymin) <= 3.0 * s.height as real / (4.0 * Micro as real)
      && Abs(b.ymax - d.box.ymax) <= 3.0 * s.height as real / (4.0 * Micro as real)
  {
    var g := Normalise(d.box, s);
    var b := Recover(BoxLine(d, s), s);
    AxisRecovers(d.box.ymin, d.box.ymax, s.height, Round6(g.cy), Round6(g.h), b.ymin, b.ymax);
  }

  /**
   * Recombining the written (rounded) line recovers each corner of the box to within
   * 3/4 of a millionth of the frame dimension (under 0.0005 pixels at 640).
   */
  lemma BoxLineRecovers(d: Detected, s: Size)
    ensures var b := Recover(BoxLine(d, s), s);
      && Abs(b.xmin - d.box.xmin) <= 3.0 * s.width as real / (4.0 * Micro as real)
      && Abs(b.xmax - d.box.xmax) <= 3.0 * s.width as real / (4.0 * Micro as real)
      && Abs(b.ymin - d.box.ymin) <= 3.0 * s.height as real / (4.0 * Micro as real)
      && Abs(b.ymax - d.box.ymax) <= 3.0 * s.height as real / (4.0 * Micro as real)
  {
    BoxLineRecoversX(d, s);
    BoxLineRecoversY(d, s);
  }

  /** The label lines of `DetectionStrategy.process`: one per box, appended in box order. */
  function DetectionLines(boxes: seq<Detected>, s: Size): seq<Line>
    decreases |boxes|
  {
    if boxes == [] then []
    else DetectionLines(boxes[..|boxes| - 1], s) + [BoxLine(boxes[|boxes| - 1], s)]
  }

  /** Exactly one line per box, in index order, none skipped. */
  lemma {:induction false} DetectionLinesOnePerBox(boxes: seq<Detected>, s: Size)
    ensures |DetectionLines(boxes, s)| == |boxes|
    ensures forall i :: 0 <= i < |boxes| ==> DetectionLines(boxes, s)[i] == BoxLine(boxes[i], s)
    decreases |boxes|
  {
    if boxes != [] {
      DetectionLinesOnePerBox(boxes[..|boxes| - 1], s);
    }
  }

  /** An example: class 2, box (100, 50, 300, 250) at 640 x 640 gives 0.312500 0.234375 0.312500 0.312500. */
  lemma DetectionExample()
    ensures BoxLine(Detected(2, Box(100.0, 50.0, 300.0, 250.0)), Canonical)
         == Line(2, [312500, 234375, 312500, 312500])
  {
    var g := Normalise(Box(100.0, 50.0, 300.0, 250.0), Canonical);
    assert g == BoxGeometry(0.3125, 0.234375, 0.3125, 0.3125);
    assert Round6(0.3125) == 312500;
    assert Round6(0.234375) == 234375;
  }

  // ---------------------------------------------------------------------
  // Segmentation: one mask becomes a flattened polygon.
  // ---------------------------------------------------------------------

  /** The divisor of the vertices: the size the strategy is given, or the mask raster's own shape (src/run.py). */
  datatype Normaliser = ByFrame(size: Size) | ByMaskShape

  function Divisor(n: Normaliser, m: Mask): Size {
    match n
    case ByFrame(s) => s
    case ByMaskShape => Size(m.cols, m.rows)
  }

  /** `(mask > 0.5) * 255`: a pixel is foreground iff its score exceeds one half. */
  function Threshold(m: Mask): Raster {
    Raster(m.rows, m.cols, (r: nat, c: nat) => m.prob(r, c) > 0.5)
  }

  /** `max(contours, key=area)`: the first contour of largest area, as Python's `max` picks it. */
  function LargestIndex(cs: seq<Contour>, area: Contour -> real): (k: nat)
    requires cs != []
    ensures k < |cs|
    ensures forall j :: 0 <= j < |cs| ==> area(cs[j]) <= area(cs[k])
    ensures forall j :: 0 <= j < k ==> area(cs[j]) < area(cs[k])
    decreases |cs|
  {
    if |cs| == 1 then 0
    else
      var k := LargestIndex(cs[..|cs| - 1], area);
      if area(cs[|cs| - 1]) > area(cs[k]) then |cs| - 1 else k
  }

  /** The vertices divided by (width, height), flattened to x0, y0, x1, y1, ... and rounded to six decimals. */
  function Flatten(poly: Contour, s: Size): (r: seq<int>)
    ensures |r| == 2 * |poly|
    decreases |poly|
  {
    if poly == [] then []
    else
      var p := poly[|poly| - 1];
      Flatten(poly[..|poly| - 1], s)
        + [Round6(p.x as real / s.width as real), Round6(p.y as real / s.height as real)]
  }

  /** Vertex k occupies positions 2k (x / width) and 2k + 1 (y / height), in vertex order. */
  lemma {:induction false} FlattenAt(poly: Contour, s: Size, k: nat)
    requires k < |poly|
    ensures Flatten(poly, s)[2 * k] == Round6(poly[k].x as real / s.width as real)
    ensures Flatten(poly, s)[2 * k + 1] == Round6(poly[k].y as real / s.height as real)
    decreases |poly|
  {
    if k < |poly| - 1 {
      FlattenAt(poly[..|poly| - 1], s, k);
    }
  }

  /** Vertices inside the frame give coordinates in [0, 1]. */
  lemma FlattenInUnit(poly: Contour, s: Size)
    requires forall k :: 0 <= k < |poly| ==> 0 <= poly[k].x <= s.width && 0 <= poly[k].y <= s.height
    ensures forall j :: 0 <= j < |Flatten(poly, s)| ==> 0 <= Flatten(poly, s)[j] <= Micro
  {
    forall j | 0 <= j < |Flatten(poly, s)|
      ensures 0 <= Flatten(poly, s)[j] <= Micro
    {
      var k := j / 2;
      FlattenAt(poly, s, k);
      var p := poly[k];
      FractionInUnit(p.x as real, s.width as real);
      FractionInUnit(p.y as real, s.height as real);
      Round6InUnit(p.x as real / s.width as real);
      Round6InUnit(p.y as real / s.height as real);
    }
  }

  /** The simplified polygon of a non-empty contour list: the largest contour, simplified at 0.001 of its perimeter. */
  function Polygon(ops: ContourOps, cs: seq<Contour>): Contour
    requires cs != []
  {
    var c := cs[LargestIndex(cs, ops.area)];
    ops.approxPoly(c, 0.001 * ops.arcLength(c))
  }

  /**
   * The line mask `i` contributes, or `None` when it is skipped: when there is no
   * box at index `i`, or when the thresholded mask has no contour.
   */
  function MaskLine(ops: ContourOps, boxes: seq<Detected>, i: nat, m: Mask, n: Normaliser): (r: Option<Line>)
    ensures r.None? <==> i >= |boxes| || ops.find(Threshold(m)) == []
    ensures r.Some? ==> r.value.classId == boxes[i].classId
    ensures r.Some? ==> |r.value.coords| == 2 * |Polygon(ops, ops.find(Threshold(m)))|
  {
    if i >= |boxes| then None
    else
      var contours := ops.find(Threshold(m));
      if contours == [] then None
      else Some(Line(boxes[i].classId, Flatten(Polygon(ops, contours), Divisor(n, m))))
  }

  /** The lines written for `masks` (enumerated from index 0), in mask order, skipped masks contributing nothing. */
  function MaskLines(ops: ContourOps, boxes: seq<Detected>, masks: seq<Mask>, n: Normaliser): seq<Line>
    decreases |masks|
  {
    if masks == [] then []
    else
      var rest := MaskLines(ops, boxes, masks[..|masks| - 1], n);
      match MaskLine(ops, boxes, |masks| - 1, masks[|masks| - 1], n)
      case None => rest
      case Some(l) => rest + [l]
  }

  /** The indices of the masks that contribute a line, in increasing order. */
  function Survivors(ops: ContourOps, boxes: seq<Detected>, masks: seq<Mask>, n: Normaliser): seq<nat>
    decreases |masks|
  {
    if masks == [] then []
    else
      var rest := Survivors(ops, boxes, masks[..|masks| - 1], n);
      if MaskLine(ops, boxes, |masks| - 1, masks[|masks| - 1], n).Some? then rest + [|masks| - 1] else rest
  }

  /** The lines of the segmentation writer: none at all when the result carries no masks. */
  function SegmentationLines(ops: ContourOps, r: Results, n: Normaliser): seq<Line> {
    match r.masks
    case None => []
    case Some(masks) => MaskLines(ops, r.boxes, masks, n)
  }

  /**
   * The skip rules: line j is the line of the j-th surviving mask, the survivors are
   * in increasing mask order, and a mask survives iff `MaskLine` gives it a line.
   */
  lemma {:induction false} MaskLinesAreSurvivors(ops: ContourOps, boxes: seq<Detected>, masks: seq<Mask>, n: Normaliser)
    ensures var lines, kept := MaskLines(ops, boxes, masks, n), Survivors(ops, boxes, masks, n);
      && |lines| == |kept|
      && (forall j :: 0 <= j < |kept| ==>
            kept[j] < |masks| && MaskLine(ops, boxes, kept[j], masks[kept[j]], n) == Some(lines[j]))
      && (forall j1, j2 :: 0 <= j1 < j2 < |kept| ==> kept[j1] < kept[j2])
      && (forall i :: 0 <= i < |masks| && MaskLine(ops, boxes, i, masks[i], n).Some? ==> i in kept)
    decreases |masks|
  {
    if masks != [] {
      var prefix := masks[..|masks| - 1];
      MaskLinesAreSurvivors(ops, boxes, prefix, n);
      forall i | 0 <= i < |prefix| ensures masks[i] == prefix[i] { }
    }
  }

  /** Never more lines than masks, nor than boxes: a mask without a box is skipped. */
  lemma {:induction false} MaskLinesCount(ops: ContourOps, boxes: seq<Detected>, masks: seq<Mask>, n: Normaliser)
    ensures |MaskLines(ops, boxes, masks, n)| <= |masks|
    ensures |MaskLines(ops, boxes, masks, n)| <= |boxes|
    decreases |masks|
  {
    if masks != [] {
      MaskLinesCount(ops, boxes, masks[..|masks| - 1], n);
    }
  }

  /** Every segmentation line carries the class of the box at its mask's index and an even number of coordinates. */
  lemma {:induction false} MaskLinesShape(ops: ContourOps, boxes: seq<Detected>, masks: seq<Mask>, n: Normaliser)
    ensures forall l :: l in MaskLines(ops, boxes, masks, n) ==>
      |l.coords| % 2 == 0 && exists i :: 0 <= i < |boxes| && l.classId == boxes[i].classId
    decreases |masks|
  {
    if masks != [] {
      MaskLinesShape(ops, boxes, masks[..|masks| - 1], n);
    }
  }
}
