/**
 * The older graphical (Tk) driver. It lists the media directory, and for every
 * entry whose name is an image or a video it runs the segmentation model and
 * writes the outputs. Compared with the newer widget driver it always writes
 * segmentation polygons, normalises them by each mask's own shape, numbers
 * video frames from 1, annotates every frame, shows no progress, and fails
 * when the media path is not a directory.
 */
module LegacyDriver {
  import opened Common
  import opened Geometry
  import opened Naming
  import opened Storage
  import opened Strategies
  import opened Environment

  /** What processing depends on besides the output directory. */
  datatype LegacyContext = LegacyContext(host: Host, detector: Detector, savePath: string, conf: real, iou: real)

  /** The effect of processing: the output directory and how it ended. */
  datatype Step = Step(files: map<string, FileContent>, outcome: Outcome)

  /** `self.model.predict(frame, conf, iou)[0]`. */
  function Predict(c: LegacyContext, frame: Frame): Option<Results> {
    c.detector(frame, c.conf, c.iou)
  }

  /** The directory after a prepared picture is saved as `stem.png` and its polygons as `stem.txt`. */
  function Annotated(c: LegacyContext, files: map<string, FileContent>, stem: string, frame: Frame, r: Results)
    : map<string, FileContent>
  {
    files[Join(c.savePath, stem + ".png") := Picture(c.host.toDisk(frame))]
         [Join(c.savePath, stem + ".txt") := Label(SegmentationLines(c.host.contours, r, ByMaskShape))]
  }

  /** `process_image`. */
  function LegacyImageRun(c: LegacyContext, files: map<string, FileContent>, path: string, base: string): Step {
    match c.host.imread(path)
    case None => Step(files, Failed(Undecodable(path)))
    case Some(img) =>
      var frame := c.host.prepare(img);
      match Predict(c, frame)
      case None => Step(files, Failed(InferenceFailed(path)))
      case Some(r) => Step(Annotated(c, files, base, frame, r), Ok)
  }

  /** The video loop so far: the directory, and whether it is still going. */
  datatype FrameState = FrameState(files: map<string, FileContent>, ok: bool)

  /** One pass of the loop over the frame numbered `num`; every frame is annotated. */
  function LegacyFrameStep(c: LegacyContext, base: string, prev: FrameState, num: nat, frame: Frame): FrameState {
    if !prev.ok then prev
    else
      var prepared := c.host.prepare(frame);
      match Predict(c, prepared)
      case None => FrameState(prev.files, false)
      case Some(r) => FrameState(Annotated(c, prev.files, FrameStem(base, num), prepared, r), true)
  }

  /** The video loop over `frames`, numbered from 1. */
  function LegacyVideoLoop(c: LegacyContext, files: map<string, FileContent>, base: string, frames: seq<Frame>): FrameState
    decreases |frames|
  {
    if frames == [] then FrameState(files, true)
    else LegacyFrameStep(c, base, LegacyVideoLoop(c, files, base, frames[..|frames| - 1]), |frames|, frames[|frames| - 1])
  }

  /** `process_video`. */
  function LegacyVideoRun(c: LegacyContext, files: map<string, FileContent>, path: string, base: string): Step {
    var st := LegacyVideoLoop(c, files, base, c.host.capture(path).frames);
    Step(st.files, if st.ok then Ok else Failed(InferenceFailed(path)))
  }

  /** The body of the loop of `process_files` for one listed name, given the name's base. */
  function LegacyDispatch(c: LegacyContext, files: map<string, FileContent>, path: string, name: string, base: string): Step {
    if IsImage(name) then LegacyImageRun(c, files, path, base)
    else if IsVideo(name) then LegacyVideoRun(c, files, path, base)
    else Step(files, Ok)
  }

  /** One listed name: its path is joined to the media folder and its base is the name without its extension. */
  function LegacyItem(c: LegacyContext, dir: string, files: map<string, FileContent>, name: string): Step {
    LegacyDispatch(c, files, Join(dir, name), name, StripExtension(name))
  }

  /** The effect of one listed name on the directory it finds. */
  type NameStep = (map<string, FileContent>, string) -> Step

  /** Names processed in listing order with `step`; the first failure ends the loop. */
  function RunNames(step: NameStep, files: map<string, FileContent>, names: seq<string>): Step
    decreases |names|
  {
    if names == [] then Step(files, Ok)
    else
      var prev := RunNames(step, files, names[..|names| - 1]);
      if prev.outcome.Failed? then prev else step(prev.files, names[|names| - 1])
  }

  function LegacyStepper(c: LegacyContext, dir: string): NameStep {
    (files: map<string, FileContent>, name: string) => LegacyItem(c, dir, files, name)
  }

  /** `process_files` over a listing. */
  function LegacyRun(c: LegacyContext, dir: string, files: map<string, FileContent>, names: seq<string>): Step {
    RunNames(LegacyStepper(c, dir), files, names)
  }

  // ---------------------------------------------------------------------
  // Properties
  // ---------------------------------------------------------------------

  lemma LegacyStepperApplies(c: LegacyContext, dir: string, files: map<string, FileContent>, name: string)
    ensures LegacyStepper(c, dir)(files, name) == LegacyItem(c, dir, files, name)
  {
  }

  lemma RunNamesSnoc(step: NameStep, files: map<string, FileContent>, names: seq<string>, i: nat)
    requires i < |names|
    ensures var prev := RunNames(step, files, names[..i]);
      prev.outcome == Ok ==> RunNames(step, files, names[..i + 1]) == step(prev.files, names[i])
  {
    assert names[..i + 1][..i] == names[..i];
  }

  /** Once a name fails, the later names change nothing. */
  lemma {:induction false} NamesStopAtFailure(step: NameStep, files: map<string, FileContent>, names: seq<string>, n: nat)
    requires n <= |names|
    requires RunNames(step, files, names[..n]).outcome.Failed?
    ensures RunNames(step, files, names) == RunNames(step, files, names[..n])
    decreases |names|
  {
    if n < |names| {
      var init := names[..|names| - 1];
      assert init[..n] == names[..n];
      NamesStopAtFailure(step, files, init, n);
    } else {
      assert names[..n] == names;
    }
  }

  /** Names that are neither images nor videos are passed over: a listing without media succeeds and writes nothing. */
  lemma {:induction false} NonMediaIgnored(c: LegacyContext, dir: string, files: map<string, FileContent>, names: seq<string>)
    requires forall k :: 0 <= k < |names| ==> !IsMedia(names[k])
    ensures LegacyRun(c, dir, files, names) == Step(files, Ok)
    decreases |names|
  {
    if names != [] {
      var init := names[..|names| - 1];
      NonMediaIgnored(c, dir, files, init);
      var name := names[|names| - 1];
      MediaIsImageOrVideo(name);
      LegacyStepperApplies(c, dir, files, name);
    }
  }

  /** The path of an output of the frame numbered `num`. */
  function LegacyFramePath(c: LegacyContext, base: string, num: nat, ext: string): string {
    Join(c.savePath, FrameFile(base, num, ext))
  }

  /** `key` is the picture or label path of one of the frames numbered 1 .. n. */
  ghost predicate IsLegacyOutput(c: LegacyContext, base: string, n: nat, key: string) {
    exists num: nat :: 1 <= num <= n &&
      (key == LegacyFramePath(c, base, num, ".png") || key == LegacyFramePath(c, base, num, ".txt"))
  }

  lemma LegacyPathsDistinct(c: LegacyContext, base: string, i: nat, j: nat, e1: string, e2: string)
    requires Relative(base)
    requires e1 in {".png", ".txt"} && e2 in {".png", ".txt"}
    ensures LegacyFramePath(c, base, i, e1) == LegacyFramePath(c, base, j, e2) ==> i == j && e1 == e2
  {
    var a, b := FrameFile(base, i, e1), FrameFile(base, j, e2);
    assert Relative(a) && Relative(b) by {
      assert a == base + "_" + Pad4(i) + e1;
      assert b == base + "_" + Pad4(j) + e2;
    }
    JoinInjective(c.savePath, a, b);
    FrameFileInjective(base, i, j, e1, e2);
  }

  /** Saving one picture: picture at `stem.png`, polygons at `stem.txt`, every other path untouched. */
  lemma AnnotatedEffect(c: LegacyContext, files: map<string, FileContent>, stem: string, frame: Frame, r: Results)
    requires Relative(stem)
    ensures var after := Annotated(c, files, stem, frame, r);
      var png, txt := Join(c.savePath, stem + ".png"), Join(c.savePath, stem + ".txt");
      && png != txt
      && png in after && after[png] == Picture(c.host.toDisk(frame))
      && txt in after && after[txt] == Label(SegmentationLines(c.host.contours, r, ByMaskShape))
      && (forall key :: key != png && key != txt ==> (key in after <==> key in files))
      && (forall key :: key != png && key != txt && key in files ==> after[key] == files[key])
  {
    var png, txt := stem + ".png", stem + ".txt";
    assert png[|png| - 1] != txt[|txt| - 1];
    JoinInjective(c.savePath, png, txt);
  }

  /** Frame k was annotated, and its picture and polygons are stored under number k + 1. */
  ghost predicate FrameWritten(c: LegacyContext, after: map<string, FileContent>, base: string, k: nat, raw: Frame) {
    var frame := c.host.prepare(raw);
    && Predict(c, frame).Some?
    && LegacyFramePath(c, base, k + 1, ".png") in after
    && after[LegacyFramePath(c, base, k + 1, ".png")] == Picture(c.host.toDisk(frame))
    && LegacyFramePath(c, base, k + 1, ".txt") in after
    && after[LegacyFramePath(c, base, k + 1, ".txt")] ==
         Label(SegmentationLines(c.host.contours, Predict(c, frame).value, ByMaskShape))
  }

  /** What a completed loop leaves: every frame written, and nothing else changed. */
  ghost predicate AllFramesWritten(c: LegacyContext, files: map<string, FileContent>, after: map<string, FileContent>,
                                   base: string, frames: seq<Frame>)
  {
    && (forall k :: 0 <= k < |frames| ==> FrameWritten(c, after, base, k, frames[k]))
    && (forall key :: !IsLegacyOutput(c, base, |frames|, key) ==> (key in after <==> key in files))
    && (forall key :: !IsLegacyOutput(c, base, |frames|, key) && key in files ==> after[key] == files[key])
  }

  /** Whether prediction succeeds on each of `frames`, checked from the last one back. */
  predicate LegacyLoopOk(c: LegacyContext, frames: seq<Frame>)
    decreases |frames|
  {
    frames == [] ||
    (LegacyLoopOk(c, frames[..|frames| - 1]) && Predict(c, c.host.prepare(frames[|frames| - 1])).Some?)
  }

  /** The loop's flag depends only on the predictions, not on what was written. */
  lemma {:induction false} LegacyLoopOkIs(c: LegacyContext, files: map<string, FileContent>, base: string,
                                          frames: seq<Frame>)
    ensures LegacyVideoLoop(c, files, base, frames).ok == LegacyLoopOk(c, frames)
    decreases |frames|
  {
    if frames != [] {
      LegacyLoopOkIs(c, files, base, frames[..|frames| - 1]);
    }
  }

  lemma {:induction false} LegacyLoopOkAll(c: LegacyContext, frames: seq<Frame>)
    ensures LegacyLoopOk(c, frames) <==> forall k :: 0 <= k < |frames| ==> Predict(c, c.host.prepare(frames[k])).Some?
    decreases |frames|
  {
    if frames != [] {
      var init := frames[..|frames| - 1];
      LegacyLoopOkAll(c, init);
      forall k | 0 <= k < |init| ensures init[k] == frames[k] { }
    }
  }

  /** The loop runs to the end of the stream iff prediction succeeds on every frame. */
  lemma LegacyVideoCompletes(c: LegacyContext, files: map<string, FileContent>, base: string, frames: seq<Frame>)
    ensures LegacyVideoLoop(c, files, base, frames).ok <==>
      forall k :: 0 <= k < |frames| ==> Predict(c, c.host.prepare(frames[k])).Some?
  {
    LegacyLoopOkIs(c, files, base, frames);
    LegacyLoopOkAll(c, frames);
  }

  /**
   * The loop completes iff every prediction succeeds; a completed loop annotated
   * every frame, numbered from 1, and touched no other path.
   */
  lemma {:induction false} LegacyVideoOutputs(c: LegacyContext, files: map<string, FileContent>, base: string,
                                               frames: seq<Frame>)
    requires Relative(base)
    ensures LegacyVideoLoop(c, files, base, frames).ok <==>
      forall k :: 0 <= k < |frames| ==> Predict(c, c.host.prepare(frames[k])).Some?
    ensures var st := LegacyVideoLoop(c, files, base, frames);
      st.ok ==> AllFramesWritten(c, files, st.files, base, frames)
    decreases |frames|
  {
    LegacyVideoCompletes(c, files, base, frames);
    var st := LegacyVideoLoop(c, files, base, frames);
    if frames != [] && st.ok {
      var n := |frames|;
      var init := frames[..n - 1];
      LegacyVideoOutputs(c, files, base, init);
      forall k | 0 <= k < n - 1 ensures init[k] == frames[k] { }
      var stem := FrameStem(base, n);
      var prev := LegacyVideoLoop(c, files, base, init);
      var frame := c.host.prepare(frames[n - 1]);
      assert Relative(stem) by { assert stem == base + "_" + Pad4(n); }
      AnnotatedEffect(c, prev.files, stem, frame, Predict(c, frame).value);
      assert LegacyFramePath(c, base, n, ".png") == Join(c.savePath, stem + ".png");
      assert LegacyFramePath(c, base, n, ".txt") == Join(c.savePath, stem + ".txt");
      forall num | 1 <= num < n
        ensures LegacyFramePath(c, base, num, ".png") != LegacyFramePath(c, base, n, ".png")
        ensures LegacyFramePath(c, base, num, ".png") != LegacyFramePath(c, base, n, ".txt")
        ensures LegacyFramePath(c, base, num, ".txt") != LegacyFramePath(c, base, n, ".png")
        ensures LegacyFramePath(c, base, num, ".txt") != LegacyFramePath(c, base, n, ".txt")
      {
        LegacyPathsDistinct(c, base, num, n, ".png", ".png");
        LegacyPathsDistinct(c, base, num, n, ".png", ".txt");
        LegacyPathsDistinct(c, base, num, n, ".txt", ".png");
        LegacyPathsDistinct(c, base, num, n, ".txt", ".txt");
      }
      forall key | !IsLegacyOutput(c, base, n, key)
        ensures !IsLegacyOutput(c, base, n - 1, key)
        ensures key != LegacyFramePath(c, base, n, ".png") && key != LegacyFramePath(c, base, n, ".txt")
      {
      }
      var after := st.files;
      forall k | 0 <= k < n ensures FrameWritten(c, after, base, k, frames[k]) {
        if k < n - 1 {
          assert FrameWritten(c, prev.files, base, k, init[k]);
        }
      }
    }
  }

  /** Once the loop stops on a failure, the remaining frames are not read. */
  lemma {:induction false} LegacyLoopStopsAtFailure(c: LegacyContext, files: map<string, FileContent>, base: string,
                                                     frames: seq<Frame>, n: nat)
    requires n <= |frames|
    requires !LegacyVideoLoop(c, files, base, frames[..n]).ok
    ensures LegacyVideoLoop(c, files, base, frames) == LegacyVideoLoop(c, files, base, frames[..n])
    decreases |frames|
  {
    if n < |frames| {
      var init := frames[..|frames| - 1];
      assert init[..n] == frames[..n];
      LegacyLoopStopsAtFailure(c, files, base, init, n);
    } else {
      assert frames[..n] == frames;
    }
  }

  // ---------------------------------------------------------------------
  // The application object
  // ---------------------------------------------------------------------

  /** `write_annotation`: the segmentation writer, each mask normalised by its own raster shape. */
  method WriteAnnotation(ops: ContourOps, path: string, r: Results, dir: OutputDir)
    modifies dir
    ensures dir.files == old(dir.files)[path := Label(SegmentationLines(ops, r, ByMaskShape))]
  {
    WriteSegmentation(ops, r, path, ByMaskShape, dir);
  }

  class LegacyApplication {
    var mediaFolder: string
    var savePath: string
    var conf: real
    var iou: real

    /** The segmentation model, loaded and fused at start-up. */
    const detector: Detector
    const host: Host
    const out: OutputDir

    constructor (detector: Detector, host: Host, out: OutputDir)
      ensures this.detector == detector && this.host == host && this.out == out
      ensures mediaFolder == "" && savePath == "" && conf == 0.2 && iou == 0.2
    {
      this.detector, this.host, this.out := detector, host, out;
      mediaFolder, savePath := "", "";
      conf, iou := 0.2, 0.2;
    }

    /** The user edits the form. */
    method Configure(media: string, save: string, confidence: real, overlap: real)
      modifies this`mediaFolder, this`savePath, this`conf, this`iou
      ensures mediaFolder == media && savePath == save && conf == confidence && iou == overlap
    {
      mediaFolder, savePath, conf, iou := media, save, confidence, overlap;
    }

    function Ctx(): LegacyContext
      reads this`savePath, this`conf, this`iou
    {
      LegacyContext(host, detector, savePath, conf, iou)
    }

    /** `process_image`. */
    method ProcessImage(path: string, base: string) returns (outcome: Outcome)
      modifies out
      ensures var r := LegacyImageRun(Ctx(), old(out.files), path, base);
        out.files == r.files && outcome == r.outcome
    {
      var img := host.imread(path);
      if img.None? {
        return Failed(Undecodable(path));
      }
      var frame := host.prepare(img.value);
      var results := Predict(Ctx(), frame);
      if results.None? {
        return Failed(InferenceFailed(path));
      }
      out.WriteImage(Join(savePath, base + ".png"), host.toDisk(frame));
      WriteAnnotation(host.contours, Join(savePath, base + ".txt"), results.value, out);
      outcome := Ok;
    }

    /** The body of the video loop for the frame numbered `frameNum`. */
    method AnnotateFrame(base: string, frame: Frame, frameNum: nat) returns (ok: bool)
      modifies out
      ensures LegacyFrameStep(Ctx(), base, FrameState(old(out.files), true), frameNum, frame) == FrameState(out.files, ok)
    {
      var processed := host.prepare(frame);
      var results := Predict(Ctx(), processed);
      if results.None? {
        return false;
      }
      out.WriteImage(Join(savePath, FrameFile(base, frameNum, ".png")), host.toDisk(processed));
      WriteAnnotation(host.contours, Join(savePath, FrameFile(base, frameNum, ".txt")), results.value, out);
      ok := true;
    }

    /** `process_video`: every frame read is annotated, the first under number 1. */
    method ProcessVideo(path: string, base: string) returns (outcome: Outcome)
      modifies out
      ensures var r := LegacyVideoRun(Ctx(), old(out.files), path, base);
        out.files == r.files && outcome == r.outcome
    {
      var video := host.capture(path);
      ghost var files0 := out.files;
      var frameNum := 1;
      while frameNum <= |video.frames|
        invariant 1 <= frameNum <= |video.frames| + 1
        invariant LegacyVideoLoop(Ctx(), files0, base, video.frames[..frameNum - 1]) == FrameState(out.files, true)
      {
        assert video.frames[..frameNum][..frameNum - 1] == video.frames[..frameNum - 1];
        var ok := AnnotateFrame(base, video.frames[frameNum - 1], frameNum);
        if !ok {
          LegacyLoopStopsAtFailure(Ctx(), files0, base, video.frames, frameNum);
          return Failed(InferenceFailed(path));
        }
        frameNum := frameNum + 1;
      }
      assert video.frames[..frameNum - 1] == video.frames;
      outcome := Ok;
    }

    /** The body of the loop of `process_files` for one listed name. */
    method ProcessName(name: string) returns (outcome: Outcome)
      modifies out
      ensures var r := LegacyItem(Ctx(), mediaFolder, old(out.files), name);
        out.files == r.files && outcome == r.outcome
    {
      var filePath := Join(mediaFolder, name);
      var base := StripExtension(name);
      outcome := ProcessListed(filePath, name, base);
    }

    method ProcessListed(path: string, name: string, base: string) returns (outcome: Outcome)
      modifies out
      ensures var r := LegacyDispatch(Ctx(), old(out.files), path, name, base);
        out.files == r.files && outcome == r.outcome
    {
      if IsImage(name) {
        outcome := ProcessImage(path, base);
      } else if IsVideo(name) {
        outcome := ProcessVideo(path, base);
      } else {
        outcome := Ok;
      }
    }

    /** `process_files`: list the media folder, then process its entries in order until the first failure. */
    method ProcessFiles() returns (outcome: Outcome)
      modifies out
      ensures match host.lookup(mediaFolder)
        case Directory(names) =>
          var r := LegacyRun(Ctx(), mediaFolder, old(out.files), names);
          out.files == r.files && outcome == r.outcome
        case _ => outcome == Failed(NotListable(mediaFolder)) && out.files == old(out.files)
    {
      var listing := host.lookup(mediaFolder);
      if !listing.Directory? {
        return Failed(NotListable(mediaFolder));
      }
      var names := listing.entries;
      ghost var files0, c := out.files, Ctx();
      ghost var step := LegacyStepper(c, mediaFolder);
      var i := 0;
      outcome := Ok;
      while i < |names|
        invariant 0 <= i <= |names|
        invariant Ctx() == c
        invariant RunNames(step, files0, names[..i]) == Step(out.files, Ok) && outcome == Ok
      {
        ghost var prev := RunNames(step, files0, names[..i]);
        outcome := ProcessName(names[i]);
        LegacyStepperApplies(c, mediaFolder, prev.files, names[i]);
        RunNamesSnoc(step, files0, names, i);
        if outcome.Failed? {
          NamesStopAtFailure(step, files0, names, i + 1);
          return;
        }
        i := i + 1;
      }
      assert names[..i] == names;
    }

    /** `start_processing`: both paths must be given, then the files are processed. */
    method StartProcessing() returns (outcome: Outcome)
      modifies out
      ensures mediaFolder == "" || savePath == "" ==> outcome == Failed(MissingPaths) && out.files == old(out.files)
      ensures mediaFolder != "" && savePath != "" ==>
        match host.lookup(mediaFolder)
        case Directory(names) =>
          var r := LegacyRun(Ctx(), mediaFolder, old(out.files), names);
          out.files == r.files && outcome == r.outcome
        case _ => outcome == Failed(NotListable(mediaFolder)) && out.files == old(out.files)
    {
      if mediaFolder == "" || savePath == "" {
        return Failed(MissingPaths);
      }
      outcome := ProcessFiles();
    }
  }
}
