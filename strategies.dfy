/**
 * The annotation strategies and their factory. A strategy is stateless: it
 * turns one inference result into the lines of one label file. The detection
 * and segmentation writers open the label file for writing (creating or
 * truncating it) and append one line per kept object; the oriented-box
 * strategy does nothing and creates no file.
 */
module Strategies {
  import opened Common
  import opened Geometry
  import opened Storage

  datatype Strategy = SegmentationStrategy | DetectionStrategy | OrientedDetectionStrategy

  /** The factory's registry, keyed by the model type the user picks. */
  const Registry: map<string, Strategy> := map[
    "Segmentation" := SegmentationStrategy,
    "Object Detection" := DetectionStrategy,
    "Oriented Detection" := OrientedDetectionStrategy
  ]

  /** `AnnotationStrategyFactory.create_strategy`: a registry lookup that falls back to detection. */
  function CreateStrategy(modelType: string): (s: Strategy)
    ensures s == SegmentationStrategy <==> modelType == "Segmentation"
    ensures s == OrientedDetectionStrategy <==> modelType == "Oriented Detection"
    ensures s == DetectionStrategy <==> modelType != "Segmentation" && modelType != "Oriented Detection"
  {
    if modelType in Registry then Registry[modelType] else DetectionStrategy
  }

  /**
   * The model types the user interface offers. "Oriented Object Box" is not a
   * registry key, so choosing it yields the detection strategy, and the
   * oriented-box strategy cannot be reached from the interface at all.
   */
  lemma InterfaceChoices()
    ensures CreateStrategy("Object Detection") == DetectionStrategy
    ensures CreateStrategy("Segmentation") == SegmentationStrategy
    ensures CreateStrategy("Oriented Object Box") == DetectionStrategy
    ensures forall modelType :: modelType in ["Object Detection", "Segmentation", "Oriented Object Box"] ==>
      CreateStrategy(modelType) != OrientedDetectionStrategy
  {
    assert "Oriented Object Box" != "Oriented Detection" by {
      assert "Oriented Object Box"[9] != "Oriented Detection"[9];
    }
  }

  /** The content of the label file a strategy writes, or `None` when it writes no file. */
  function LabelLines(s: Strategy, ops: ContourOps, r: Results, size: Size): Option<seq<Line>> {
    match s
    case DetectionStrategy => Some(DetectionLines(r.boxes, size))
    case SegmentationStrategy => Some(SegmentationLines(ops, r, ByFrame(size)))
    case OrientedDetectionStrategy => None
  }

  /** The output directory after `strategy.process(results, path, size)`. */
  function AfterProcess(files: map<string, FileContent>, s: Strategy, ops: ContourOps, r: Results,
                        path: string, size: Size): map<string, FileContent> {
    match LabelLines(s, ops, r, size)
    case None => files
    case Some(lines) => files[path := Label(lines)]
  }

  /**
   * What `process` does to the directory: the oriented-box strategy leaves it
   * as it was; the other two leave exactly one label file at `path`, replacing
   * whatever was there, one line per box (detection) or at most one per mask
   * (segmentation), and touch no other path.
   */
  lemma {:induction false} ProcessEffect(files: map<string, FileContent>, s: Strategy, ops: ContourOps,
                                         r: Results, path: string, size: Size)
    ensures var after := AfterProcess(files, s, ops, r, path, size);
      && (s == OrientedDetectionStrategy <==> after == files && LabelLines(s, ops, r, size).None?)
      && (s != OrientedDetectionStrategy ==> path in after && after[path].Label?)
      && (s == DetectionStrategy ==> |after[path].lines| == |r.boxes|)
      && (s == SegmentationStrategy && r.masks.Some? ==> |after[path].lines| <= |r.masks.value|)
      && (s == SegmentationStrategy && r.masks.None? ==> after[path] == Label([]))
      && (forall key :: key != path ==> (key in after <==> key in files))
      && (forall key :: key != path && key in files ==> after[key] == files[key])
  {
    DetectionLinesOnePerBox(r.boxes, size);
    if r.masks.Some? {
      MaskLinesCount(ops, r.boxes, r.masks.value, ByFrame(size));
    }
  }

  /** `DetectionStrategy.process`: one line per box, in box order. */
  method WriteDetections(r: Results, path: string, size: Size, dir: OutputDir)
    modifies dir
    ensures dir.files == old(dir.files)[path := Label(DetectionLines(r.boxes, size))]
  {
    dir.Truncate(path);
    var index := 0;
    while index < |r.boxes|
      invariant 0 <= index <= |r.boxes|
      invariant dir.files == old(dir.files)[path := Label(DetectionLines(r.boxes[..index], size))]
    {
      assert r.boxes[..index + 1][..index] == r.boxes[..index];
      dir.Append(path, BoxLine(r.boxes[index], size));
      index := index + 1;
    }
    assert r.boxes[..index] == r.boxes;
  }

  lemma MaskLinesSnoc(ops: ContourOps, boxes: seq<Detected>, masks: seq<Mask>, i: nat, n: Normaliser)
    requires i < |masks|
    ensures MaskLines(ops, boxes, masks[..i + 1], n) ==
      MaskLines(ops, boxes, masks[..i], n) +
        (match MaskLine(ops, boxes, i, masks[i], n) case None => [] case Some(l) => [l])
  {
    assert masks[..i + 1][..i] == masks[..i];
  }

  /**
   * One pass of the mask loop: threshold the mask, take the contour of largest
   * area, simplify it with a tolerance of 0.1% of its perimeter and normalise it.
   * This is the loop body of `SegmentationStrategy.process` written as
   * statements; `MaskLine` is the same step as a value.
   */
  method TraceMask(ops: ContourOps, boxes: seq<Detected>, i: nat, m: Mask, n: Normaliser) returns (line: Option<Line>)
    ensures line == MaskLine(ops, boxes, i, m, n)
  {
    if i >= |boxes| {
      return None;
    }
    var classId := boxes[i].classId;
    var contours := ops.find(Threshold(m));
    if contours == [] {
      return None;
    }
    var largest := contours[LargestIndex(contours, ops.area)];
    var epsilon := 0.001 * ops.arcLength(largest);
    var approx := ops.approxPoly(largest, epsilon);
    line := Some(Line(classId, Flatten(approx, Divisor(n, m))));
  }

  /** A second write to the same file replaces the first. */
  lemma UpdateTwice(files: map<string, FileContent>, path: string, a: FileContent, b: FileContent)
    ensures files[path := a][path := b] == files[path := b]
  {
  }

  /**
   * The mask-to-polygon writer: `SegmentationStrategy.process` with the frame
   * size as divisor, and the standalone writer of the older graphical driver
   * with each mask's own shape as divisor.
   */
  method WriteSegmentation(ops: ContourOps, r: Results, path: string, n: Normaliser, dir: OutputDir)
    modifies dir
    ensures dir.files == old(dir.files)[path := Label(SegmentationLines(ops, r, n))]
  {
    ghost var files0 := dir.files;
    dir.Truncate(path);
    if r.masks.Some? {
      var masks := r.masks.value;
      ghost var written: seq<Line> := [];
      var i := 0;
      while i < |masks|
        invariant 0 <= i <= |masks|
        invariant written == MaskLines(ops, r.boxes, masks[..i], n)
        invariant dir.files == files0[path := Label(written)]
      {
        MaskLinesSnoc(ops, r.boxes, masks, i, n);
        var line := TraceMask(ops, r.boxes, i, masks[i], n);
        if line.Some? {
          dir.Append(path, line.value);
          UpdateTwice(files0, path, Label(written), Label(written + [line.value]));
          written := written + [line.value];
        }
        i := i + 1;
      }
      assert masks[..i] == masks;
    }
  }

  /** `strategy.process(results, path, size)`, dispatched on the strategy. */
  method Process(s: Strategy, ops: ContourOps, r: Results, path: string, size: Size, dir: OutputDir)
    modifies dir
    ensures dir.files == AfterProcess(old(dir.files), s, ops, r, path, size)
  {
    match s
    case DetectionStrategy => WriteDetections(r, path, size, dir);
    case SegmentationStrategy => WriteSegmentation(ops, r, path, ByFrame(size), dir);
    case OrientedDetectionStrategy =>
  }
}
