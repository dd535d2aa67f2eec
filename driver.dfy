/**
 * The widget driver, the current graphical application: it collects the
 * media files under the chosen path, then annotates each one in turn with
 * the strategy picked from the model type. An image is prepared, run
 * through the detector and saved with its label file; a video is read frame
 * by frame and every frame whose index is a multiple of the stride is
 * treated like an image, under a numbered name. The first error ends the
 * whole run, and whatever happens the current-file text and the progress
 * bar are reset at the end.
 *
 * The specification functions below describe one run on values; the
 * `Application` class performs it step by step and is proved to agree.
 */
module Driver {
  import opened Common
  import opened Geometry
  import opened Naming
  import opened Storage
  import opened Strategies
  import opened Sampling
  import opened Environment

  // ---------------------------------------------------------------------
  // Collecting the inputs
  // ---------------------------------------------------------------------

  /** The joined paths of the media entries of a directory listing, in listing order. */
  function Matching(dir: string, entries: seq<string>): seq<string>
    decreases |entries|
  {
    if entries == [] then []
    else
      var name := entries[|entries| - 1];
      Matching(dir, entries[..|entries| - 1]) + (if IsMedia(name) then [Join(dir, name)] else [])
  }

  /** The files to process: the media entries of a directory, or the path itself when it is a media file. */
  function MediaFiles(path: string, kind: PathKind): seq<string> {
    match kind
    case Directory(entries) => Matching(path, entries)
    case RegularFile => if IsMedia(path) then [path] else []
    case Missing => []
  }

  /** The collection loop of `process_files`. */
  method CollectMedia(path: string, kind: PathKind) returns (files: seq<string>)
    ensures files == MediaFiles(path, kind)
  {
    files := [];
    match kind {
      case Directory(entries) =>
        var i := 0;
        while i < |entries|
          invariant 0 <= i <= |entries|
          invariant files == Matching(path, entries[..i])
        {
          assert entries[..i + 1][..i] == entries[..i];
          var filePath := Join(path, entries[i]);
          if IsMedia(entries[i]) {
            files := files + [filePath];
          }
          i := i + 1;
        }
        assert entries[..i] == entries;
      case RegularFile =>
        if IsMedia(path) {
          files := [path];
        }
      case Missing =>
    }
  }

  /**
   * A path is collected iff it is the join of a media entry; the listing order
   * is kept, so collecting a listing in two parts gives the two results in turn.
   */
  lemma {:induction false} MatchingExactly(dir: string, entries: seq<string>)
    ensures forall p :: p in Matching(dir, entries) <==>
      exists k :: 0 <= k < |entries| && IsMedia(entries[k]) && p == Join(dir, entries[k])
    ensures |Matching(dir, entries)| <= |entries|
    decreases |entries|
  {
    if entries != [] {
      var init := entries[..|entries| - 1];
      MatchingExactly(dir, init);
      forall k | 0 <= k < |init| ensures init[k] == entries[k] { }
    }
  }

  lemma {:induction false} MatchingConcat(dir: string, a: seq<string>, b: seq<string>)
    ensures Matching(dir, a + b) == Matching(dir, a) + Matching(dir, b)
    decreases |b|
  {
    if b == [] {
      assert a + b == a;
    } else {
      assert (a + b)[..|a + b| - 1] == a + b[..|b| - 1];
      assert (a + b)[|a + b| - 1] == b[|b| - 1];
      MatchingConcat(dir, a, b[..|b| - 1]);
    }
  }

  /** Every collected path is an image or a video by its own name, so no item falls through the dispatch. */
  lemma CollectedAreMedia(path: string, kind: PathKind)
    ensures forall p :: p in MediaFiles(path, kind) ==> IsImage(p) || IsVideo(p)
  {
    forall p | p in MediaFiles(path, kind) ensures IsImage(p) || IsVideo(p) {
      if kind.Directory? {
        MatchingExactly(path, kind.entries);
        var k :| 0 <= k < |kind.entries| && IsMedia(kind.entries[k]) && p == Join(path, kind.entries[k]);
        JoinKeepsKind(path, kind.entries[k]);
      }
      MediaIsImageOrVideo(p);
    }
  }

  // ---------------------------------------------------------------------
  // One run, on values
  // ---------------------------------------------------------------------

  /** What processing depends on besides the output directory. */
  datatype Context = Context(
    host: Host,
    model: Option<Detector>,
    strategy: Strategy,
    savePath: string,
    stride: Stride,
    conf: real,
    iou: real)

  /** `self.model.process(frame, conf, iou)[0]`; with no model loaded the call fails. */
  function Infer(c: Context, frame: Frame): Option<Results> {
    match c.model
    case None => None
    case Some(detect) => detect(frame, c.conf, c.iou)
  }

  /** The directory after one prepared picture is saved as `stem.png` and annotated into `stem.txt`. */
  function Outputs(c: Context, files: map<string, FileContent>, stem: string, frame: Frame, r: Results)
    : map<string, FileContent>
  {
    var saved := files[Join(c.savePath, stem + ".png") := Picture(c.host.toDisk(frame))];
    AfterProcess(saved, c.strategy, c.host.contours, r, Join(c.savePath, stem + ".txt"), Canonical)
  }

  /** The effect of a run: the output directory, how it ended, and the values the progress bar took. */
  datatype Run = Run(files: map<string, FileContent>, outcome: Outcome, log: seq<real>)

  /** `process_image`; the progress bar is not touched. */
  function ImageRun(c: Context, files: map<string, FileContent>, path: string, base: string): Run {
    match c.host.imread(path)
    case None => Run(files, Failed(Undecodable(path)), [])
    case Some(img) =>
      var frame := c.host.prepare(img);
      match Infer(c, frame)
      case None => Run(files, Failed(InferenceFailed(path)), [])
      case Some(r) => Run(Outputs(c, files, base, frame, r), Ok, [])
  }

  /** The video loop after some frames: the directory, the number of frames read, and whether it is still going. */
  datatype VideoState = VideoState(files: map<string, FileContent>, read: nat, ok: bool)

  /** One pass of the video loop over frame `i`; a failed inference stops the loop before the frame's progress is shown. */
  function FrameStep(c: Context, base: string, prev: VideoState, i: nat, frame: Frame): VideoState {
    if !prev.ok then prev
    else if !Sampled(i, c.stride) then VideoState(prev.files, i + 1, true)
    else
      var prepared := c.host.prepare(frame);
      match Infer(c, prepared)
      case None => VideoState(prev.files, i, false)
      case Some(r) => VideoState(Outputs(c, prev.files, FrameStem(base, i), prepared, r), i + 1, true)
  }

  /** The video loop over `frames`. */
  function VideoLoop(c: Context, files: map<string, FileContent>, base: string, frames: seq<Frame>): VideoState
    decreases |frames|
  {
    if frames == [] then VideoState(files, 0, true)
    else FrameStep(c, base, VideoLoop(c, files, base, frames[..|frames| - 1]), |frames| - 1, frames[|frames| - 1])
  }

  /** `process_video`. */
  function VideoRun(c: Context, files: map<string, FileContent>, path: string, base: string): Run {
    var video := c.host.capture(path);
    var st := VideoLoop(c, files, base, video.frames);
    Run(st.files, if st.ok then Ok else Failed(InferenceFailed(path)),
        VideoLog(st.read, TotalFrames(video.reportedFrames), st.ok))
  }

  /** One iteration of the loop of `process_files`: the bar is reset, then the file is dispatched on its suffix. */
  function ItemRun(c: Context, files: map<string, FileContent>, path: string): Run {
    var r := Dispatch(c, files, path, StripExtension(Basename(path)));
    Run(r.files, r.outcome, [0.0] + r.log)
  }

  /** An image is processed and the bar set to 100; a video is processed; any other file is passed over. */
  function Dispatch(c: Context, files: map<string, FileContent>, path: string, base: string): Run {
    if IsImage(path) then
      var r := ImageRun(c, files, path, base);
      Run(r.files, r.outcome, if r.outcome.Ok? then [100.0] else [])
    else if IsVideo(path) then VideoRun(c, files, path, base)
    else Run(files, Ok, [])
  }

  /** The effect of one item on the directory it finds. */
  type ItemStep = (map<string, FileContent>, string) -> Run

  /** Items processed in order with `step`; the first failure ends the loop, and the progress values accumulate. */
  function RunItems(step: ItemStep, files: map<string, FileContent>, paths: seq<string>): Run
    decreases |paths|
  {
    if paths == [] then Run(files, Ok, [])
    else
      var prev := RunItems(step, files, paths[..|paths| - 1]);
      if prev.outcome.Failed? then prev
      else
        var r := step(prev.files, paths[|paths| - 1]);
        Run(r.files, r.outcome, prev.log + r.log)
  }

  function Stepper(c: Context): ItemStep {
    (files: map<string, FileContent>, path: string) => ItemRun(c, files, path)
  }

  lemma StepperApplies(c: Context, files: map<string, FileContent>, path: string)
    ensures Stepper(c)(files, path) == ItemRun(c, files, path)
  {
  }

  /** An item's run is its dispatch, preceded by the reset of the bar to 0. */
  lemma ItemRunDispatch(c: Context, files: map<string, FileContent>, path: string)
    ensures var d := Dispatch(c, files, path, StripExtension(Basename(path)));
      ItemRun(c, files, path) == Run(d.files, d.outcome, [0.0] + d.log)
  {
  }

  /** One more item: the run so far, extended by that item's effect. */
  lemma RunItemsSnoc(step: ItemStep, files: map<string, FileContent>, paths: seq<string>, i: nat)
    requires i < |paths|
    ensures var prev := RunItems(step, files, paths[..i]);
      prev.outcome == Ok ==>
        var r := step(prev.files, paths[i]);
        RunItems(step, files, paths[..i + 1]) == Run(r.files, r.outcome, prev.log + r.log)
  {
    assert paths[..i + 1][..i] == paths[..i];
  }

  /** The loop of `process_files` over `paths`. */
  function ItemsRun(c: Context, files: map<string, FileContent>, paths: seq<string>): Run {
    RunItems(Stepper(c), files, paths)
  }

  /** Once an item fails, the later items change nothing: no file, no progress value. */
  lemma {:induction false} ItemsStopAtFailure(step: ItemStep, files: map<string, FileContent>, paths: seq<string>, n: nat)
    requires n <= |paths|
    requires RunItems(step, files, paths[..n]).outcome.Failed?
    ensures RunItems(step, files, paths) == RunItems(step, files, paths[..n])
    decreases |paths|
  {
    if n < |paths| {
      var init := paths[..|paths| - 1];
      assert init[..n] == paths[..n];
      ItemsStopAtFailure(step, files, init, n);
    } else {
      assert paths[..n] == paths;
    }
  }

  /**
   * A failed run failed on exactly one item: every item before it succeeded,
   * and the run's directory and outcome are those that item left.
   */
  lemma {:induction false} FailureIsFirstFailingItem(step: ItemStep, files: map<string, FileContent>, paths: seq<string>)
    ensures var r := RunItems(step, files, paths);
      r.outcome.Failed? ==>
        exists k :: 0 <= k < |paths| &&
          var before := RunItems(step, files, paths[..k]);
          before.outcome == Ok &&
          step(before.files, paths[k]).files == r.files &&
          step(before.files, paths[k]).outcome == r.outcome
    decreases |paths|
  {
    if paths != [] {
      var init := paths[..|paths| - 1];
      var prev := RunItems(step, files, init);
      if prev.outcome.Failed? {
        FailureIsFirstFailingItem(step, files, init);
        var k :| 0 <= k < |init| &&
          var before := RunItems(step, files, init[..k]);
          before.outcome == Ok &&
          step(before.files, init[k]).files == prev.files &&
          step(before.files, init[k]).outcome == prev.outcome;
        assert init[..k] == paths[..k];
      } else {
        assert paths[..|paths| - 1] == init;
      }
    }
  }

  /** Once the video loop stops on a failure, the remaining frames are not read. */
  lemma {:induction false} VideoLoopStopsAtFailure(c: Context, files: map<string, FileContent>, base: string,
                                                    frames: seq<Frame>, n: nat)
    requires n <= |frames|
    requires !VideoLoop(c, files, base, frames[..n]).ok
    ensures VideoLoop(c, files, base, frames) == VideoLoop(c, files, base, frames[..n])
    decreases |frames|
  {
    if n < |frames| {
      var init := frames[..|frames| - 1];
      assert init[..n] == frames[..n];
      VideoLoopStopsAtFailure(c, files, base, init, n);
    } else {
      assert frames[..n] == frames;
    }
  }

  /** The paths one picture's outputs go to. */
  function PicturePath(c: Context, stem: string): string { Join(c.savePath, stem + ".png") }
  function LabelPath(c: Context, stem: string): string { Join(c.savePath, stem + ".txt") }

  lemma OutputPathsDistinct(c: Context, stem: string)
    requires Relative(stem)
    ensures PicturePath(c, stem) != LabelPath(c, stem)
  {
    var png, txt := stem + ".png", stem + ".txt";
    assert png[|png| - 1] != txt[|txt| - 1];
    JoinInjective(c.savePath, png, txt);
  }

  /**
   * Saving one picture: the picture lands at `stem.png`, the strategy's label
   * file (if it writes one) at `stem.txt`, and every other path is untouched.
   */
  lemma OutputsEffect(c: Context, files: map<string, FileContent>, stem: string, frame: Frame, r: Results)
    requires Relative(stem)
    ensures var after, png, txt := Outputs(c, files, stem, frame, r), PicturePath(c, stem), LabelPath(c, stem);
      var lines := LabelLines(c.strategy, c.host.contours, r, Canonical);
      && png in after && after[png] == Picture(c.host.toDisk(frame))
      && (lines.Some? ==> txt in after && after[txt] == Label(lines.value))
      && (lines.None? ==> (txt in after <==> txt in files) && (txt in files ==> after[txt] == files[txt]))
      && (forall key :: key != png && key != txt ==> (key in after <==> key in files))
      && (forall key :: key != png && key != txt && key in files ==> after[key] == files[key])
  {
    OutputPathsDistinct(c, stem);
    var saved := files[PicturePath(c, stem) := Picture(c.host.toDisk(frame))];
    ProcessEffect(saved, c.strategy, c.host.contours, r, LabelPath(c, stem), Canonical);
  }

  /**
   * An image either fails before writing anything (undecodable, or inference
   * failed) or leaves its picture and its label file and nothing else.
   */
  lemma ImageRunEffect(c: Context, files: map<string, FileContent>, path: string, base: string)
    requires Relative(base)
    ensures var r := ImageRun(c, files, path, base);
      && (r.outcome == Ok <==> c.host.imread(path).Some? && Infer(c, c.host.prepare(c.host.imread(path).value)).Some?)
      && (r.outcome.Failed? ==> r.files == files)
      && (r.outcome == Ok ==>
            var frame := c.host.prepare(c.host.imread(path).value);
            var lines := LabelLines(c.strategy, c.host.contours, Infer(c, frame).value, Canonical);
            && r.files[PicturePath(c, base)] == Picture(c.host.toDisk(frame))
            && (lines.Some? ==> r.files[LabelPath(c, base)] == Label(lines.value))
            && (lines.None? ==>
                  (LabelPath(c, base) in r.files <==> LabelPath(c, base) in files) &&
                  (LabelPath(c, base) in files ==> r.files[LabelPath(c, base)] == files[LabelPath(c, base)]))
            && (forall key :: key != PicturePath(c, base) && key != LabelPath(c, base) ==>
                  (key in r.files <==> key in files) && (key in files ==> r.files[key] == files[key])))
  {
    if c.host.imread(path).Some? {
      var frame := c.host.prepare(c.host.imread(path).value);
      if Infer(c, frame).Some? {
        OutputsEffect(c, files, base, frame, Infer(c, frame).value);
      }
    }
  }

  /** The base name taken from a path never starts with '/'. */
  lemma BaseIsRelative(path: string)
    ensures Relative(StripExtension(Basename(path)))
  {
    var name := Basename(path);
    StripExtensionCuts(name);
    var base := StripExtension(name);
    if base != [] {
      assert base[0] == name[0];
      assert name[0] in name;
    }
  }

  /** The path of an output of frame `i`. */
  function FramePath(c: Context, base: string, i: nat, ext: string): string {
    Join(c.savePath, FrameFile(base, i, ext))
  }

  /** `key` is the picture or the label path of a frame below `n` that the stride selects. */
  ghost predicate IsFrameOutput(c: Context, base: string, n: nat, key: string) {
    exists i: nat :: i < n && Sampled(i, c.stride) &&
      (key == FramePath(c, base, i, ".png") || key == FramePath(c, base, i, ".txt"))
  }

  /** Outputs of different frames, or of different kinds, never share a path. */
  lemma FramePathsDistinct(c: Context, base: string, i: nat, j: nat, e1: string, e2: string)
    requires Relative(base)
    requires e1 in {".png", ".txt"} && e2 in {".png", ".txt"}
    ensures FramePath(c, base, i, e1) == FramePath(c, base, j, e2) ==> i == j && e1 == e2
  {
    var a, b := FrameFile(base, i, e1), FrameFile(base, j, e2);
    assert Relative(a) && Relative(b) by {
      assert a == base + "_" + Pad4(i) + e1;
      assert b == base + "_" + Pad4(j) + e2;
    }
    JoinInjective(c.savePath, a, b);
    FrameFileInjective(base, i, j, e1, e2);
  }

  /** A frame the stride skips leaves no file behind. */
  lemma SkippedFrameUntouched(c: Context, base: string, n: nat, i: nat, ext: string)
    requires Relative(base)
    requires ext in {".png", ".txt"}
    requires !Sampled(i, c.stride)
    ensures !IsFrameOutput(c, base, n, FramePath(c, base, i, ext))
  {
    forall j: nat | j < n && Sampled(j, c.stride)
      ensures FramePath(c, base, i, ext) != FramePath(c, base, j, ".png")
      ensures FramePath(c, base, i, ext) != FramePath(c, base, j, ".txt")
    {
      FramePathsDistinct(c, base, i, j, ext, ".png");
      FramePathsDistinct(c, base, i, j, ext, ".txt");
    }
  }

  /** `a` holds at `key` exactly what `b` holds there, absence included. */
  predicate SameAt(a: map<string, FileContent>, b: map<string, FileContent>, key: string) {
    (key in a <==> key in b) && (key in b ==> a[key] == b[key])
  }

  /**
   * Selected frame `i` was annotated: its picture is stored, and its label file
   * holds the strategy's lines, or is as it was in `files` when the strategy
   * writes none.
   */
  ghost predicate SelectedFrameWritten(c: Context, files: map<string, FileContent>, after: map<string, FileContent>,
                                       base: string, i: nat, raw: Frame)
  {
    var frame := c.host.prepare(raw);
    && Infer(c, frame).Some?
    && FramePath(c, base, i, ".png") in after
    && after[FramePath(c, base, i, ".png")] == Picture(c.host.toDisk(frame))
    && match LabelLines(c.strategy, c.host.contours, Infer(c, frame).value, Canonical)
       case Some(lines) => FramePath(c, base, i, ".txt") in after && after[FramePath(c, base, i, ".txt")] == Label(lines)
       case None => SameAt(after, files, FramePath(c, base, i, ".txt"))
  }

  /** What a completed video loop leaves: every selected frame annotated, and nothing else changed. */
  ghost predicate FramesWritten(c: Context, files: map<string, FileContent>, after: map<string, FileContent>,
                                base: string, frames: seq<Frame>)
  {
    && (forall i :: 0 <= i < |frames| && Sampled(i, c.stride) ==> SelectedFrameWritten(c, files, after, base, i, frames[i]))
    && (forall key :: !IsFrameOutput(c, base, |frames|, key) ==> SameAt(after, files, key))
  }

  /** A frame stays annotated while its two output paths are left alone. */
  lemma FrameWrittenKept(c: Context, files: map<string, FileContent>, prev: map<string, FileContent>,
                         after: map<string, FileContent>, base: string, i: nat, raw: Frame)
    requires SelectedFrameWritten(c, files, prev, base, i, raw)
    requires SameAt(after, prev, FramePath(c, base, i, ".png")) && SameAt(after, prev, FramePath(c, base, i, ".txt"))
    ensures SelectedFrameWritten(c, files, after, base, i, raw)
  {
  }

  /** A frame the stride skips extends what the loop has written without touching the directory. */
  lemma SkippedFrameExtends(c: Context, files: map<string, FileContent>, after: map<string, FileContent>,
                            base: string, frames: seq<Frame>)
    requires frames != [] && !Sampled(|frames| - 1, c.stride)
    requires FramesWritten(c, files, after, base, frames[..|frames| - 1])
    ensures FramesWritten(c, files, after, base, frames)
  {
    var n := |frames| - 1;
    forall i | 0 <= i < n ensures frames[..n][i] == frames[i] { }
    forall key | !IsFrameOutput(c, base, |frames|, key)
      ensures !IsFrameOutput(c, base, n, key)
    {
    }
  }

  /** A selected frame whose inference succeeds adds its picture and label to what the loop has written. */
  lemma SampledFrameExtends(c: Context, files: map<string, FileContent>, prev: map<string, FileContent>,
                            after: map<string, FileContent>, base: string, frames: seq<Frame>)
    requires Relative(base) && frames != []
    requires var n := |frames| - 1;
      && Sampled(n, c.stride) && Infer(c, c.host.prepare(frames[n])).Some?
      && after == Outputs(c, prev, FrameStem(base, n), c.host.prepare(frames[n]),
                          Infer(c, c.host.prepare(frames[n])).value)
    requires FramesWritten(c, files, prev, base, frames[..|frames| - 1])
    ensures FramesWritten(c, files, after, base, frames)
  {
    var n := |frames| - 1;
    var init := frames[..n];
    forall i | 0 <= i < n ensures init[i] == frames[i] { }
    forall key | !IsFrameOutput(c, base, |frames|, key)
      ensures !IsFrameOutput(c, base, n, key)
    {
    }
    var frame := c.host.prepare(frames[n]);
    var r := Infer(c, frame).value;
    var stem := FrameStem(base, n);
    var png, txt := FramePath(c, base, n, ".png"), FramePath(c, base, n, ".txt");
    assert Relative(stem) by { assert stem == base + "_" + Pad4(n); }
    OutputsEffect(c, prev, stem, frame, r);
    assert PicturePath(c, stem) == png && LabelPath(c, stem) == txt;
    forall i | 0 <= i < n && Sampled(i, c.stride)
      ensures FramePath(c, base, i, ".png") != png && FramePath(c, base, i, ".png") != txt
      ensures FramePath(c, base, i, ".txt") != png && FramePath(c, base, i, ".txt") != txt
    {
      FramePathsDistinct(c, base, i, n, ".png", ".png");
      FramePathsDistinct(c, base, i, n, ".png", ".txt");
      FramePathsDistinct(c, base, i, n, ".txt", ".png");
      FramePathsDistinct(c, base, i, n, ".txt", ".txt");
    }
    forall i | 0 <= i < n && Sampled(i, c.stride)
      ensures SelectedFrameWritten(c, files, after, base, i, frames[i])
    {
      FrameWrittenKept(c, files, prev, after, base, i, frames[i]);
    }
    assert !IsFrameOutput(c, base, n, txt);
    assert SameAt(prev, files, txt);
    assert SelectedFrameWritten(c, files, after, base, n, frames[n]);
    forall key | !IsFrameOutput(c, base, |frames|, key)
      ensures SameAt(after, files, key)
    {
      assert key != png && key != txt;
      assert SameAt(prev, files, key);
    }
  }

  /** What a completed loop leaves, proved by induction over the frames. */
  lemma {:induction false} CompletedVideoOutputs(c: Context, files: map<string, FileContent>, base: string, frames: seq<Frame>)
    requires Relative(base)
    ensures var st := VideoLoop(c, files, base, frames);
      st.ok ==> st.read == |frames| && FramesWritten(c, files, st.files, base, frames)
    decreases |frames|
  {
    var st := VideoLoop(c, files, base, frames);
    if frames != [] && st.ok {
      var n := |frames| - 1;
      var prev := VideoLoop(c, files, base, frames[..n]);
      CompletedVideoOutputs(c, files, base, frames[..n]);
      if Sampled(n, c.stride) {
        SampledFrameExtends(c, files, prev.files, st.files, base, frames);
      } else {
        SkippedFrameExtends(c, files, st.files, base, frames);
      }
    }
  }

  /** The video loop runs to the end of the stream iff inference succeeds on every selected frame. */
  lemma {:induction false} VideoLoopCompletes(c: Context, files: map<string, FileContent>, base: string, frames: seq<Frame>)
    ensures var st := VideoLoop(c, files, base, frames);
      && (st.ok <==> forall i :: 0 <= i < |frames| && Sampled(i, c.stride) ==> Infer(c, c.host.prepare(frames[i])).Some?)
      && (st.ok ==> st.read == |frames|)
    decreases |frames|
  {
    if frames != [] {
      var n := |frames| - 1;
      var init := frames[..n];
      VideoLoopCompletes(c, files, base, init);
      forall i | 0 <= i < n ensures init[i] == frames[i] { }
    }
  }

  /**
   * The video loop completes iff inference succeeds on every selected frame, and
   * a loop that completes has read every frame and left exactly the selected
   * frames' outputs.
   */
  lemma VideoLoopOutputs(c: Context, files: map<string, FileContent>, base: string, frames: seq<Frame>)
    requires Relative(base)
    ensures var st := VideoLoop(c, files, base, frames);
      st.ok <==> forall i :: 0 <= i < |frames| && Sampled(i, c.stride) ==> Infer(c, c.host.prepare(frames[i])).Some?
    ensures var st := VideoLoop(c, files, base, frames);
      st.ok ==> st.read == |frames| && FramesWritten(c, files, st.files, base, frames)
  {
    VideoLoopCompletes(c, files, base, frames);
    CompletedVideoOutputs(c, files, base, frames);
  }

  lemma AppendAssoc<T>(a: seq<T>, b: seq<T>, c: seq<T>)
    ensures a + b + c == a + (b + c)
  {
  }

  // ---------------------------------------------------------------------
  // The application object
  // ---------------------------------------------------------------------

  class Application {
    // The form the user fills in.
    var mediaFolder: string
    var savePath: string
    var modelType: string
    var skipFrame: int
    var conf: real
    var iou: real

    /** The detector, loaded only when a GPU is present; without one the attribute does not exist. */
    const model: Option<Detector>
    const host: Host
    const out: OutputDir

    var annotationStrategy: Option<Strategy>
    /** The name in the current-file label; "" when the label is blank. */
    var currentFile: string
    /** The progress bar's value, and every value it has taken. */
    var progress: real
    ghost var progressLog: seq<real>

    ghost predicate Valid()
      reads this`progress, this`progressLog
    {
      |progressLog| > 0 && progress == progressLog[|progressLog| - 1]
    }

    /** `__init__` with the form's default values. */
    constructor (gpu: bool, detector: Detector, host: Host, out: OutputDir)
      ensures Valid() && progressLog == [0.0]
      ensures model == (if gpu then Some(detector) else None)
      ensures this.host == host && this.out == out
      ensures mediaFolder == "" && savePath == "" && modelType == "Object Detection" && skipFrame == 0
      ensures conf == 0.2 && iou == 0.2
      ensures annotationStrategy == None && currentFile == "" && progress == 0.0
    {
      mediaFolder, savePath, modelType, skipFrame := "", "", "Object Detection", 0;
      conf, iou := 0.2, 0.2;
      model := if gpu then Some(detector) else None;
      this.host, this.out := host, out;
      annotationStrategy, currentFile := None, "";
      progress := 0.0;
      progressLog := [0.0];
    }

    /** The user edits the form. */
    method Configure(media: string, save: string, kind: string, skip: int, confidence: real, overlap: real)
      modifies this`mediaFolder, this`savePath, this`modelType, this`skipFrame, this`conf, this`iou
      ensures mediaFolder == media && savePath == save && modelType == kind && skipFrame == skip
      ensures conf == confidence && iou == overlap
    {
      mediaFolder, savePath, modelType, skipFrame := media, save, kind, skip;
      conf, iou := confidence, overlap;
    }

    method ShowProgress(v: real)
      modifies this`progress, this`progressLog
      ensures progress == v && progressLog == old(progressLog) + [v]
    {
      progress := v;
      progressLog := progressLog + [v];
    }

    function Ctx(): Context
      reads this`annotationStrategy, this`savePath, this`skipFrame, this`conf, this`iou
      requires annotationStrategy.Some?
    {
      Context(host, model, annotationStrategy.value, savePath, EffectiveStride(skipFrame), conf, iou)
    }

    /** `process_image`. */
    method ProcessImage(path: string, base: string) returns (outcome: Outcome)
      requires annotationStrategy.Some?
      modifies out
      ensures var r := ImageRun(Ctx(), old(out.files), path, base);
        out.files == r.files && outcome == r.outcome
    {
      var img := host.imread(path);
      if img.None? {
        return Failed(Undecodable(path));
      }
      var frame := host.prepare(img.value);
      var results := Infer(Ctx(), frame);
      if results.None? {
        return Failed(InferenceFailed(path));
      }
      out.WriteImage(Join(savePath, base + ".png"), host.toDisk(frame));
      Process(annotationStrategy.value, host.contours, results.value, Join(savePath, base + ".txt"), Canonical, out);
      outcome := Ok;
    }

    /** The body of the video loop for one frame read, up to the progress update. */
    method AnnotateFrame(base: string, frame: Frame, frameNum: nat) returns (ok: bool)
      requires annotationStrategy.Some?
      modifies out
      ensures FrameStep(Ctx(), base, VideoState(old(out.files), frameNum, true), frameNum, frame)
        == VideoState(out.files, if ok then frameNum + 1 else frameNum, ok)
    {
      ok := true;
      if PyMod(frameNum, EffectiveStride(skipFrame)) == 0 {
        var processed := host.prepare(frame);
        var results := Infer(Ctx(), processed);
        if results.None? {
          return false;
        }
        out.WriteImage(Join(savePath, FrameFile(base, frameNum, ".png")), host.toDisk(processed));
        Process(annotationStrategy.value, host.contours, results.value,
                Join(savePath, FrameFile(base, frameNum, ".txt")), Canonical, out);
      }
    }

    /**
     * One pass of the video loop over frame `n`: annotate it when it is sampled,
     * then, unless inference failed, show the progress after it.
     */
    method VideoFrame(base: string, frames: seq<Frame>, n: nat, total: Sampling.Pos,
                      ghost files0: map<string, FileContent>, ghost log0: seq<real>) returns (ok: bool)
      requires annotationStrategy.Some? && Valid() && n < |frames|
      requires VideoLoop(Ctx(), files0, base, frames[..n]) == VideoState(out.files, n, true)
      requires progressLog == log0 + VideoLog(n, total, false)
      modifies this`progress, this`progressLog, out
      ensures Valid()
      ensures ok ==> (VideoLoop(Ctx(), files0, base, frames[..n + 1]) == VideoState(out.files, n + 1, true) &&
                      progressLog == log0 + VideoLog(n + 1, total, false))
      ensures !ok ==> (VideoLoop(Ctx(), files0, base, frames) == VideoState(out.files, n, false) &&
                       progressLog == old(progressLog))
    {
      assert frames[..n + 1][..n] == frames[..n];
      ok := AnnotateFrame(base, frames[n], n);
      if !ok {
        VideoLoopStopsAtFailure(Ctx(), files0, base, frames, n + 1);
        return;
      }
      VideoLogStep(n, total, log0);
      ShowProgress((n as real / total as real) * 100.0);
    }

    /** `process_video`; releasing the reader has no modelled effect. */
    method ProcessVideo(path: string, base: string) returns (outcome: Outcome)
      requires annotationStrategy.Some? && Valid()
      modifies this`progress, this`progressLog, out
      ensures Valid()
      ensures var r := VideoRun(Ctx(), old(out.files), path, base);
        out.files == r.files && outcome == r.outcome && progressLog == old(progressLog) + r.log
    {
      var video := host.capture(path);
      var totalFrames := video.reportedFrames;
      if totalFrames <= 0 {
        totalFrames := 1;
      }
      var frameNum := 0;
      ghost var files0, log0, c := out.files, progressLog, Ctx();
      ShowProgress(0.0);
      assert progressLog == log0 + VideoLog(0, totalFrames, false);
      while frameNum < |video.frames|
        invariant 0 <= frameNum <= |video.frames|
        invariant Ctx() == c
        invariant VideoLoop(c, files0, base, video.frames[..frameNum]) == VideoState(out.files, frameNum, true)
        invariant progressLog == log0 + VideoLog(frameNum, totalFrames, false)
        invariant Valid()
      {
        var ok := VideoFrame(base, video.frames, frameNum, totalFrames, files0, log0);
        if !ok {
          return Failed(InferenceFailed(path));
        }
        frameNum := frameNum + 1;
      }
      assert video.frames[..frameNum] == video.frames;
      VideoLogStep(frameNum, totalFrames, log0);
      ShowProgress(100.0);
      outcome := Ok;
    }

    /** One iteration of the loop of `process_files`: show the file, reset the bar, dispatch on the suffix. */
    method ProcessItem(path: string) returns (outcome: Outcome)
      requires annotationStrategy.Some? && Valid()
      modifies this`progress, this`progressLog, this`currentFile, out
      ensures Valid() && currentFile == Basename(path)
      ensures var r := Dispatch(Ctx(), old(out.files), path, StripExtension(Basename(path)));
        out.files == r.files && outcome == r.outcome && progressLog == old(progressLog) + ([0.0] + r.log)
    {
      currentFile := Basename(path);
      outcome := ProcessMedia(path, StripExtension(currentFile));
    }

    /** The bar reset to 0, then the image or video processed according to the suffix. */
    method ProcessMedia(path: string, base: string) returns (outcome: Outcome)
      requires annotationStrategy.Some? && Valid()
      modifies this`progress, this`progressLog, out
      ensures Valid()
      ensures var r := Dispatch(Ctx(), old(out.files), path, base);
        out.files == r.files && outcome == r.outcome && progressLog == old(progressLog) + ([0.0] + r.log)
    {
      ghost var log0 := progressLog;
      ShowProgress(0.0);
      if IsImage(path) {
        outcome := ProcessImage(path, base);
        if outcome.Ok? {
          ShowProgress(100.0);
          AppendAssoc(log0, [0.0], [100.0]);
        }
      } else if IsVideo(path) {
        outcome := ProcessVideo(path, base);
        AppendAssoc(log0, [0.0], VideoRun(Ctx(), old(out.files), path, base).log);
      } else {
        outcome := Ok;
      }
    }

    /** The item at `i` of the loop of `process_files`, after the items before it all succeeded. */
    method ProcessNext(paths: seq<string>, i: nat, ghost c: Context,
                       ghost files0: map<string, FileContent>, ghost log0: seq<real>)
      returns (outcome: Outcome)
      requires annotationStrategy.Some? && Ctx() == c && Valid() && i < |paths|
      requires var r := RunItems(Stepper(c), files0, paths[..i]);
        r.outcome == Ok && out.files == r.files && progressLog == log0 + r.log
      modifies this`progress, this`progressLog, this`currentFile, out
      ensures annotationStrategy.Some? && Ctx() == c && Valid() && currentFile == Basename(paths[i])
      ensures var r := RunItems(Stepper(c), files0, paths[..i + 1]);
        out.files == r.files && outcome == r.outcome && progressLog == log0 + r.log
      ensures outcome.Failed? ==> RunItems(Stepper(c), files0, paths) == RunItems(Stepper(c), files0, paths[..i + 1])
    {
      ghost var prev := RunItems(Stepper(c), files0, paths[..i]);
      outcome := ProcessItem(paths[i]);
      StepperApplies(c, prev.files, paths[i]);
      ItemRunDispatch(c, prev.files, paths[i]);
      RunItemsSnoc(Stepper(c), files0, paths, i);
      AppendAssoc(log0, prev.log, ItemRun(c, prev.files, paths[i]).log);
      if outcome.Failed? {
        ItemsStopAtFailure(Stepper(c), files0, paths, i + 1);
      }
    }

    /**
     * The loop of `process_files` over a non-empty selection: the items in order until the first
     * failure; the label is left showing the last item begun.
     */
    method ProcessPaths(paths: seq<string>) returns (outcome: Outcome)
      requires annotationStrategy.Some? && Valid() && paths != []
      modifies this`progress, this`progressLog, this`currentFile, out
      ensures Valid()
      ensures var r := ItemsRun(Ctx(), old(out.files), paths);
        out.files == r.files && outcome == r.outcome && progressLog == old(progressLog) + r.log
      ensures outcome.Ok? ==> currentFile == Basename(paths[|paths| - 1])
      ensures outcome.Failed? ==>
        exists k :: 0 <= k < |paths| && currentFile == Basename(paths[k]) &&
          ItemsRun(Ctx(), old(out.files), paths[..k]).outcome == Ok &&
          ItemsRun(Ctx(), old(out.files), paths[..k + 1]) == ItemsRun(Ctx(), old(out.files), paths)
    {
      ghost var files0, log0, c := out.files, progressLog, Ctx();
      ghost var shown := "";
      var i := 0;
      while i < |paths|
        invariant 0 <= i <= |paths|
        invariant Ctx() == c
        invariant var r := RunItems(Stepper(c), files0, paths[..i]);
          r.outcome == Ok && out.files == r.files && progressLog == log0 + r.log
        invariant Valid()
        invariant 0 < i ==> shown == paths[i - 1] && currentFile == Basename(shown)
      {
        outcome := ProcessNext(paths, i, c, files0, log0);
        shown := paths[i];
        if outcome.Failed? {
          assert RunItems(Stepper(c), files0, paths[..i]).outcome == Ok;
          return;
        }
        i := i + 1;
      }
      assert paths[..i] == paths;
      outcome := Ok;
    }

    /** `process_files`: collect, refuse an empty selection, then process in order until the first failure. */
    method ProcessFiles() returns (outcome: Outcome)
      requires annotationStrategy.Some? && Valid()
      modifies this`progress, this`progressLog, this`currentFile, out
      ensures Valid()
      ensures var paths := MediaFiles(mediaFolder, host.lookup(mediaFolder));
        && (paths == [] ==>
              outcome == Failed(NoFiles) && out.files == old(out.files) && progressLog == old(progressLog) &&
              currentFile == old(currentFile))
        && (paths != [] ==>
              var r := ItemsRun(Ctx(), old(out.files), paths);
              out.files == r.files && outcome == r.outcome && progressLog == old(progressLog) + r.log)
      ensures var paths := MediaFiles(mediaFolder, host.lookup(mediaFolder));
        && (paths != [] && outcome.Ok? ==> currentFile == Basename(paths[|paths| - 1]))
        && (paths != [] && outcome.Failed? ==>
              exists k :: 0 <= k < |paths| && currentFile == Basename(paths[k]) &&
                ItemsRun(Ctx(), old(out.files), paths[..k]).outcome == Ok &&
                ItemsRun(Ctx(), old(out.files), paths[..k + 1]) == ItemsRun(Ctx(), old(out.files), paths))
    {
      var paths := CollectMedia(mediaFolder, host.lookup(mediaFolder));
      if |paths| == 0 {
        return Failed(NoFiles);
      }
      outcome := ProcessPaths(paths);
    }

    /**
     * `start_processing`: both paths must be given; the strategy is chosen from
     * the model type; then the files are processed. The label and the bar are
     * reset on every path out.
     */
    method StartProcessing() returns (outcome: Outcome)
      requires Valid()
      modifies this`annotationStrategy, this`progress, this`progressLog, this`currentFile, out
      ensures Valid() && progress == 0.0 && currentFile == ""
      ensures mediaFolder == "" || savePath == "" ==>
        outcome == Failed(MissingPaths) && out.files == old(out.files) && annotationStrategy == old(annotationStrategy) &&
        progressLog == old(progressLog) + [0.0]
      ensures mediaFolder != "" && savePath != "" ==>
        && annotationStrategy == Some(CreateStrategy(modelType))
        && var paths := MediaFiles(mediaFolder, host.lookup(mediaFolder));
        && (paths == [] ==>
              outcome == Failed(NoFiles) && out.files == old(out.files) && progressLog == old(progressLog) + [0.0])
        && (paths != [] ==>
              var r := ItemsRun(Ctx(), old(out.files), paths);
              out.files == r.files && outcome == r.outcome && progressLog == old(progressLog) + r.log + [0.0])
    {
      if mediaFolder == "" || savePath == "" {
        outcome := Failed(MissingPaths);
      } else {
        annotationStrategy := Some(CreateStrategy(modelType));
        outcome := ProcessFiles();
      }
      currentFile := "";
      ShowProgress(0.0);
    }
  }
}
