# OreAutoLabeling, modelled in Dafny

OreAutoLabeling produces training annotations in the YOLO text format. It
runs a detection or segmentation model over a folder of images and videos
and writes, for every image and for every selected video frame, the resized
picture (`<base>.png`) and a label file (`<base>.txt`).

This project models three parts of it:

- **The annotation strategies** (`src/strategy.py`).
  - Detection writes one line per box: class, centre x, centre y, width and height, normalised and rounded to six decimals.
  - Segmentation writes one flattened polygon per mask that has a box and a contour.
  - The oriented-box strategy does nothing.
  - A factory picks the strategy from the model type.
- **The widget driver** (`src/widget.py`), the current graphical application.
  - It collects the media files.
  - It annotates images.
  - It samples video frames with a stride.
  - It reports progress.
  - The first failing item ends the whole run.
  - The current-file label and the progress bar are reset on every exit.
- **The older graphical driver** (`src/run.py`), an earlier Tk application.
  - It always writes segmentation polygons, normalised by each mask's own raster shape.
  - It annotates every video frame, numbered from 1.
  - It passes over names that are not media.

## Module layout

- `Geometry` (geometry.dfy) is the pure codec from one detected instance to one line.
  - Coordinates are held as integers in millionths, which is what six-decimal text denotes.
  - The OpenCV contour routines are function-valued fields of `ContourOps`.
  - Its lemmas are about `Round6`, `Normalise`/`Denormalise`, `BoxLine` and `DetectionLines` (detection), and `MaskLine`, `MaskLines` and `Flatten` (segmentation).
- `Naming` (naming.dfy) covers the string handling:
  - `str.lower` and `str.endswith` with the extension lists;
  - `os.path.basename`, `os.path.join` (POSIX rules) and `os.path.splitext`;
  - the `:04d` frame index.

  Its lemmas are about `IsImage`/`IsVideo`/`IsMedia`, `Basename`, `Join`, `StripExtension` and `Pad4`/`FrameFile`.
- `Sampling` (sampling.dfy) covers frame selection, with Python's `%` on any non-zero stride, and the progress values of the video loop.
  Its lemmas are about `Sampled`, `ProgressAt`, `ProgressTrace` and `VideoLog`.
- `Storage` (storage.dfy) is the output directory: a class holding a map from path to file content.
  - `open(path, 'w')` truncates the file.
  - Each `f.write` appends one line.
  - `cv2.imwrite` stores a picture.
- `Strategies` (strategies.dfy) holds:
  - the strategy variants and the factory;
  - the two writing loops, each proved against the line sequence `Geometry` defines.
- `Environment` (environment.dfy) holds the collaborators outside the model:
  - the file system lookup, the image decoder, the video reader and the frame preparation;
  - the detector.

  Each one is a function value, so every property holds whatever they return.
- `Driver` (driver.dfy) models `src/widget.py`.
  - Specification functions describe one run on values: the output directory, the outcome and every value the progress bar takes.
  - `ImageRun` is one image. `FrameStep`, `VideoLoop` and `VideoRun` are one frame, the frame loop and one whole video. `Dispatch` and `ItemRun` are one item of the file loop, and `RunItems`/`ItemsRun` the loop over all items. The lemma rows below are about these functions.
  - The `Application` class performs the run step by step. Each of its methods is proved to end in the state those functions give.
- `LegacyDriver` (legacy_driver.dfy) does the same for `src/run.py`, with `LegacyImageRun`, `LegacyFrameStep`/`LegacyVideoLoop`/`LegacyVideoRun` and `LegacyDispatch`/`LegacyRun` in the same roles.

## Model

| member | source | states |
|---|---|---|
| Strategies.CreateStrategy | src/strategy.py:69-77 | "Segmentation" gives segmentation and "Oriented Detection" gives the oriented strategy, each as an if-and-only-if; every other label gives detection |
| Strategies.InterfaceChoices | src/widget.py:56-63 | of the three labels the interface offers, "Oriented Object Box" falls back to detection, so no choice reaches the oriented strategy |
| Strategies.ProcessEffect | src/strategy.py:12-65 | the oriented strategy leaves the directory unchanged. The other two leave exactly one label file at the path, replacing what was there: one line per box, or at most one per mask, and an empty file when there are no masks. No other path changes |
| Strategies.WriteDetections | src/strategy.py:40-60 | after the loop, the label file at the path holds exactly `DetectionLines` of the boxes; every other file is as before |
| Strategies.TraceMask | src/strategy.py:17-37 | one pass of the mask loop yields exactly the line `MaskLine` defines, or nothing when the mask is skipped |
| Strategies.WriteSegmentation | src/strategy.py:12-37 | the label file is created or truncated and ends holding exactly `SegmentationLines`; every other file is as before |
| Strategies.Process | src/strategy.py:12-65 | `process` dispatched on the strategy changes the directory exactly as `AfterProcess` says |
| Geometry.Round6 | src/strategy.py:59 | the written number of millionths is within half a millionth of the value |
| Geometry.Round6InUnit | src/strategy.py:59 | a value in [0, 1] is written as a number in [0, 1] |
| Geometry.BoxLine | src/strategy.py:42-59 | a detection line carries the box's class id and exactly four coordinates |
| Geometry.DenormaliseNormalise | src/strategy.py:49-57 | multiplying the normalised centre and extent back by width and height and recombining gives the original corners exactly |
| Geometry.NormaliseDenormalise | src/strategy.py:49-57 | normalising is also a left inverse: every normalised box is the normalisation of the box it denormalises to |
| Geometry.NormalisedInUnit | src/strategy.py:49-57 | a box with 0 <= xmin <= xmax <= width and 0 <= ymin <= ymax <= height normalises to four values in [0, 1] |
| Geometry.BoxLineInUnit | src/strategy.py:49-59 | such a box is written with four coordinates in [0, 1] |
| Geometry.BoxLineRecovers | src/strategy.py:49-59 | reading the rounded line back recovers each corner to within 3/4 of a millionth of the frame dimension |
| Geometry.DetectionLinesOnePerBox | src/strategy.py:44-60 | exactly one line per box, and line i is the line of box i, none skipped |
| Geometry.DetectionExample | src/strategy.py:44-59 | class 2 with box (100, 50, 300, 250) at 640 x 640 gives 0.312500 0.234375 0.312500 0.312500 |
| Geometry.LargestIndex | src/strategy.py:28 | the chosen contour's area is at least every other contour's, and every earlier contour's area is strictly smaller, so it is the first maximum |
| Geometry.Flatten | src/strategy.py:33-35 | a polygon of n vertices gives 2n coordinates |
| Geometry.FlattenAt | src/strategy.py:33-35 | vertex k is written at positions 2k (x over width) and 2k + 1 (y over height), each rounded to six decimals |
| Geometry.FlattenInUnit | src/strategy.py:33-35 | vertices inside the frame are written as coordinates in [0, 1] |
| Geometry.MaskLine | src/strategy.py:16-37 | a mask gives no line iff it has no box at its index or its thresholded raster has no contour. Otherwise the line has that box's class id and twice as many coordinates as the simplified polygon has vertices |
| Geometry.MaskLinesAreSurvivors | src/strategy.py:16-26 | line j is the line of the j-th surviving mask. The survivors are strictly increasing mask indices, and every mask that has a line is among them |
| Geometry.MaskLinesCount | src/strategy.py:16-18 | never more lines than masks, nor more than boxes |
| Geometry.MaskLinesShape | src/strategy.py:20-37 | every segmentation line has an even number of coordinates and the class id of one of the boxes |
| Naming.MediaIsImageOrVideo | src/widget.py:150-170 | a name passes the media allow-list iff it is an image or a video |
| Naming.ImageNotVideo | src/widget.py:165-170 | no name is both an image and a video, so the dispatch is unambiguous |
| Naming.UpperCaseAccepted | src/widget.py:150 | the extension test ignores case: "SCAN.JPG" is an image, "Clip.Mp4" a video, "notes.txt" neither |
| Naming.Basename | src/widget.py:160-161 | the base name holds no '/', ends the path, and is preceded by a '/' when shorter than the path |
| Naming.JoinKeepsKind | src/widget.py:149-170 | filtering on the entry name and dispatching on the joined path agree, for images, videos and media alike |
| Naming.BasenameOfJoin | src/widget.py:149-160 | the basename of a folder joined with a slash-free entry is that entry |
| Naming.JoinInjective | src/widget.py:179-180 | one folder joined with two different relative names gives two different paths |
| Naming.StripExtensionCuts | src/widget.py:160 | `splitext` removes a suffix that starts at a '.' and contains no other '.' or '/' |
| Naming.StripExtensionOf | src/run.py:82 | a known extension is removed from a name whose last component is not all dots |
| Naming.StripLastExtensionOnly | src/run.py:82 | only the last extension goes: "a.b.mp4" has base "a.b" |
| Naming.DotFileKeepsName | src/run.py:82 | ".png" keeps its whole name as base |
| Naming.SameStemCollides | src/widget.py:160-180 | "scan.jpg" and "scan.png" share the base "scan", so their outputs go to the same paths |
| Naming.Pad4Value | src/widget.py:210-211 | reading the padded index back gives the index |
| Naming.Pad4Injective | src/widget.py:210-211 | distinct indices are formatted differently |
| Naming.Pad4Width | src/widget.py:210-211 | the index takes exactly four characters below 10000 and is never truncated above |
| Naming.FrameFileInjective | src/widget.py:210-211 | two frame outputs of one video share a name only when they are the same frame and the same kind |
| Naming.FrameFileExamples | src/widget.py:210-211 | frame 9 of "clip" is clip_0009.png and frame 12 is clip_0012.txt |
| Sampling.EffectiveStride | src/widget.py:192 | an entered stride of 0 becomes 1; any other value is kept |
| Sampling.PyMod | src/widget.py:204 | the remainder has the sign of the divisor and completes floor division |
| Sampling.PyModZero | src/widget.py:204 | the remainder is 0 iff the index is a multiple of the stride's magnitude |
| Sampling.SamplingExamples | src/widget.py:191-219 | ten frames at stride 3 annotate exactly {0, 3, 6, 9}; stride 0 annotates every frame of any video, and the first four frames are {0, 1, 2, 3} |
| Sampling.NegativeStride | src/widget.py:192-204 | a negative stride selects the same frames as its absolute value |
| Sampling.FirstFrameSampled | src/widget.py:191-204 | frame 0 is always annotated |
| Sampling.TotalFrames | src/widget.py:187-189 | a reported frame count of zero or less becomes 1; a positive one is kept |
| Sampling.VideoLog | src/widget.py:194-222 | the bar takes one value at the start, one per frame read, and one more when the loop ends normally |
| Sampling.ProgressMonotone | src/widget.py:216 | the per-frame value is non-negative and grows with the frame index |
| Sampling.ProgressBelowHundred | src/widget.py:216 | while the index is below the frame count the value is below 100 |
| Sampling.ProgressAtLeastHundred | src/widget.py:216 | from the index equal to the frame count on, the value is at least 100 |
| Sampling.ProgressAboveHundred | src/widget.py:216 | past the frame count the value exceeds 100; it is not clamped |
| Sampling.TraceNonDecreasing | src/widget.py:216-219 | the per-frame values form a non-decreasing sequence, value i being i/total*100 |
| Sampling.CompletedLogRises | src/widget.py:194-222 | a completed video's values never decrease when at most one frame more than the count is read |
| Sampling.CompletedLogMonotone | src/widget.py:216-221 | a completed video's values are non-decreasing iff at most one frame more than the reported count is read |
| Sampling.ProgressOvershoot | src/widget.py:187-221 | with no reported count, three frames show 0, 100 and 200, then 100, so the bar falls back |
| Driver.CollectMedia | src/widget.py:145-153 | the collection loop builds exactly `MediaFiles`: the joined media entries of a directory in listing order, or the path itself if it is a media file, or nothing |
| Driver.MatchingExactly | src/widget.py:147-151 | a path is collected iff it is the join of a media entry, and no more paths than entries are collected |
| Driver.MatchingConcat | src/widget.py:148-151 | collecting a listing in two parts gives the two results in turn, so the listing order is kept |
| Driver.CollectedAreMedia | src/widget.py:150-170 | every collected path is an image or a video, so no collected item falls through the dispatch |
| Driver.ItemsStopAtFailure | src/widget.py:159-170 | once an item fails, the later items change no file and add no progress value |
| Driver.FailureIsFirstFailingItem | src/widget.py:159-170 | a failed run failed on one item. Every earlier item succeeded, and the run ends with the directory and error that item left |
| Driver.VideoLoopStopsAtFailure | src/widget.py:198-219 | once inference fails on a frame, no later frame is read |
| Driver.OutputPathsDistinct | src/widget.py:179-180 | a picture and its label file never share a path |
| Driver.OutputsEffect | src/widget.py:179-183 | the picture lands at `<base>.png` and the strategy's label file, if any, at `<base>.txt`; no other path changes |
| Driver.ImageRunEffect | src/widget.py:172-183 | an image succeeds iff it decodes and inference returns a result. On failure nothing is written. On success its picture is written, and its label file too unless the strategy writes none (the oriented strategy), in which case that path keeps what it had; no other path changes |
| Driver.BaseIsRelative | src/widget.py:160 | a base name taken from a path never starts with '/' |
| Driver.FramePathsDistinct | src/widget.py:210-211 | outputs of different frames, or of different kinds, never share a path |
| Driver.SkippedFrameUntouched | src/widget.py:204-214 | a frame the stride skips has no output path among the annotated frames' outputs |
| Driver.VideoLoopCompletes | src/widget.py:199-219 | the frame loop reaches the end of the stream iff inference succeeds on every frame the stride selects, and then it has read every frame |
| Driver.SkippedFrameExtends | src/widget.py:204 | a frame the stride skips leaves everything the loop has written as it was |
| Driver.SampledFrameExtends | src/widget.py:204-214 | a selected frame adds its picture and, when the strategy writes one, its label under its padded index; every earlier frame's outputs and every other path are kept |
| Driver.CompletedVideoOutputs | src/widget.py:199-219 | a completed loop has read every frame. Each selected frame has its picture and, when the strategy writes one, its label under its padded index; its label path is otherwise as before, and every other path is unchanged |
| Driver.VideoLoopOutputs | src/widget.py:199-219 | both of the above: the loop completes iff every selected frame's inference succeeds, and a completed loop leaves exactly the selected frames' outputs |
| Driver.Application.constructor | src/widget.py:13-26 | the form's defaults: confidence and IoU 0.2, stride 0, "Object Detection"; no strategy yet; a detector only when a GPU is present |
| Driver.Application.ProcessImage | src/widget.py:172-183 | the directory and outcome are exactly those of `ImageRun` |
| Driver.Application.AnnotateFrame | src/widget.py:204-214 | one frame read changes the directory as one step of `VideoLoop` does |
| Driver.Application.VideoFrame | src/widget.py:200-219 | one pass of the frame loop extends `VideoLoop` by that frame and the bar by that frame's value; when inference fails, the whole loop's result is reached and the bar is not touched |
| Driver.Application.ProcessVideo | src/widget.py:185-224 | the directory and outcome are those of `VideoRun`, and the bar takes exactly the values of `VideoLog` |
| Driver.Application.ProcessItem | src/widget.py:159-170 | the label shows the item's basename; the bar is reset to 0, then the item is dispatched on its suffix, leaving the directory, outcome and progress values `Dispatch` gives |
| Driver.Application.ProcessMedia | src/widget.py:162-170 | the bar is reset to 0; then an image runs and sets the bar to 100 when it succeeds, a video runs, and any other path changes nothing |
| Driver.Application.ProcessNext | src/widget.py:159-170 | after the earlier items all succeeded, one more item extends `RunItems` by that item; when it fails, the whole loop's result is reached |
| Driver.Application.ProcessPaths | src/widget.py:159-170 | the loop over a non-empty selection ends as `ItemsRun` says. The label shows the last file after a success, and after a failure the file that failed, every file before it having succeeded |
| Driver.Application.ProcessFiles | src/widget.py:141-170 | with nothing collected, the run fails with `NoFiles` and changes no file, no progress value and not the label. Otherwise the directory, the outcome and the progress values are those of `ItemsRun` over the collected paths, and the label is left as `ProcessPaths` says |
| Driver.Application.StartProcessing | src/widget.py:125-139 | an empty media or save path fails with `MissingPaths` before anything is written. Otherwise the strategy comes from the model type and the files are processed, adding the values `ItemsRun` gives to the bar's history. On every exit the label is cleared and the bar is set to 0 once more |
| LegacyDriver.NamesStopAtFailure | src/run.py:80-88 | once a listed name fails, the later names change nothing |
| LegacyDriver.NonMediaIgnored | src/run.py:80-88 | a listing without images or videos succeeds and writes nothing, with no error for an empty selection |
| LegacyDriver.LegacyPathsDistinct | src/run.py:121-122 | outputs of different frame numbers, or of different kinds, never share a path |
| LegacyDriver.AnnotatedEffect | src/run.py:97-101 | the picture lands at `<base>.png` and the polygons at `<base>.txt`; no other path changes |
| LegacyDriver.LegacyVideoCompletes | src/run.py:107-127 | the frame loop reaches the end of the stream iff prediction succeeds on every frame |
| LegacyDriver.LegacyVideoOutputs | src/run.py:105-127 | the loop completes iff every prediction succeeds, and a completed loop wrote every frame k under number k + 1 with its picture and polygons; no other path changed |
| LegacyDriver.LegacyLoopStopsAtFailure | src/run.py:107-127 | once prediction fails on a frame, no later frame is read |
| LegacyDriver.WriteAnnotation | src/run.py:131-157 | the label file is created or truncated and holds exactly the segmentation lines, normalised by each mask's own shape |
| LegacyDriver.LegacyApplication.constructor | src/run.py:11-19 | the detector is loaded at start-up; confidence and IoU default to 0.2 |
| LegacyDriver.LegacyApplication.ProcessImage | src/run.py:90-101 | the directory and outcome are exactly those of `LegacyImageRun` |
| LegacyDriver.LegacyApplication.AnnotateFrame | src/run.py:114-125 | one frame changes the directory as one step of `LegacyVideoLoop` does |
| LegacyDriver.LegacyApplication.ProcessVideo | src/run.py:103-129 | the directory and outcome are those of `LegacyVideoRun`, with frames numbered from 1 |
| LegacyDriver.LegacyApplication.ProcessName | src/run.py:80-82 | a listed name is joined to the folder and its base is the name without its last extension |
| LegacyDriver.LegacyApplication.ProcessListed | src/run.py:84-88 | image names go to the image path and video names to the video path; other names change nothing |
| LegacyDriver.LegacyApplication.ProcessFiles | src/run.py:76-88 | a media path that is not a directory fails with `NotListable`. Otherwise the names run in listing order as `LegacyRun` says |
| LegacyDriver.LegacyApplication.StartProcessing | src/run.py:58-74 | an empty media or save path fails with `MissingPaths` before anything is written; otherwise the files are processed |

## Behaviour of the code worth knowing

- A failure in one item (an undecodable image, or an inference call that raises) ends the whole run; the remaining items and frames are not processed.
- A segmentation polygon is written whatever its number of vertices, even with fewer than three.
- A box whose corners are out of order is written like any other.
- The progress value inside the video loop is not clamped. It exceeds 100 when the container understates its frame count (`Sampling.ProgressOvershoot`).
- An example: the box (100, 50, 300, 250) at 640 x 640 has normalised centre y 150 / 640 = 0.234375 (`Geometry.DetectionExample`).
- The interface offers "Oriented Object Box", which is not a key of the factory's registry. That choice therefore yields the detection strategy, and the oriented strategy is unreachable (`Strategies.InterfaceChoices`).
- Without a GPU, the widget driver never sets its model. Every inference call then fails, which the model expresses as an absent detector.

## Left out

- The Tk interface: widget construction, browse dialogs, message boxes, the text of the current-file label beyond the file name, and the drawing of the progress bar. The form's fields, the label and the bar's value are class fields.
- The ZIP packaging of `src/run.py` (`create_zip_archive`): file system I/O outside the annotation core.
- `os.makedirs` for the save path: creating directories is not modelled. The output directory is a flat map from path to content.
- The COCO format choice and the inference-type menu: interface only; no COCO writer exists.
- `src/inference.py` and `src/utils.py` are not part of this model. Loading the model and downloading the weights are replaced by the detector given to the constructor.
- The OpenCV routines (`findContours`, `contourArea`, `arcLength`, `approxPolyDP`, the colour conversions, the resize, `imread`, `imwrite` and `VideoCapture`) are uninterpreted function values. The Douglas-Peucker simplification is not verified.
- Releasing the video reader and the reader's `isOpened` check have no modelled effect. A video that cannot be opened yields no frame.
- Errors raised while opening or writing a label file, and while writing a picture, are not modelled. Those writes always succeed.
- Naming.Lower: only ASCII letters are lower-cased. Python's full Unicode case mapping is not modelled.
- Geometry.Round6: rounds halves up on exact reals. Python's `:.6f` and numpy's `round(6)` round the binary floating-point value, and numpy rounds halves to even. The contract bounds the error by half a millionth instead of fixing the tie case.
- The text of a label line is not modelled. That covers the spacing, the newline, and Python's `str(float)` rendering of segmentation coordinates, which drops trailing zeros. A line is kept as its class id and its coordinates in millionths.
- Inputs are read through `Host.imread` and `Host.capture`, which are functions of the path alone and are separate from the output map. When the save path is the media folder, a run can overwrite an input it reads later in the same run: processing `scan.jpg` writes `scan.png` (see `Naming.SameStemCollides`), and the program then reads that copy. The model keeps reading the original. This aliasing between outputs and later inputs is not modelled.
- The widget driver's message text for each error is left out. The model distinguishes the error kinds (`Environment.Error`), not the message.
