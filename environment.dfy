/**
 * What the two drivers see of the world outside the model: the file system's
 * answer for the media path, the image decoder, the video reader, the frame
 * preparation (colour conversion and resizing to 640 x 640), the contour
 * routines and the detector. Each enters as a function value, so every
 * property below holds whatever these collaborators do.
 */
module Environment {
  import opened Common
  import opened Geometry
  import opened Storage

  /** The file system's answer for a path: a directory with its entry names, a regular file, or nothing. */
  datatype PathKind = Directory(entries: seq<string>) | RegularFile | Missing

  /**
   * An opened video: the frame count its container reports (possibly zero or
   * negative) and the frames the reader actually yields, in order. A video
   * that cannot be opened yields no frame.
   */
  datatype Video = Video(reportedFrames: int, frames: seq<Frame>)

  datatype Host = Host(
    lookup: string -> PathKind,      // os.path.isdir / os.path.isfile / os.listdir
    imread: string -> Option<Frame>, // cv2.imread; None when the file cannot be decoded
    capture: string -> Video,        // cv2.VideoCapture with its read loop
    prepare: Frame -> Frame,         // BGR to RGB, then resize to 640 x 640
    toDisk: Frame -> Frame,          // RGB back to BGR before cv2.imwrite
    contours: ContourOps)

  /** One inference call on a prepared frame with the confidence and IoU thresholds; `None` when it raises. */
  type Detector = (Frame, real, real) -> Option<Results>

  /** Why a run stopped; the message shown to the user is not modelled. */
  datatype Error =
    | MissingPaths             // the media path or the output path is empty
    | NoFiles                  // nothing to process
    | NotListable(path: string)     // os.listdir on a path that is not a directory
    | Undecodable(path: string)
    | InferenceFailed(path: string)

  datatype Outcome = Ok | Failed(error: Error)

  /** A name that `os.path.join` appends rather than substitutes: it does not start with '/'. */
  predicate Relative(name: string) {
    name == [] || name[0] != '/'
  }
}
