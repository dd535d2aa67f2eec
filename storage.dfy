/**
 * The output directory both drivers write into, seen as a map from path to
 * file content. `cv2.imwrite` stores a picture; `open(path, 'w')` creates or
 * truncates a label file, and each `f.write` appends one line to it.
 */
module Storage {
  import opened Geometry

  /** A decoded image or video frame; its pixels are not modelled. */
  type Frame(==)

  datatype FileContent = Label(lines: seq<Line>) | Picture(frame: Frame)

  class OutputDir {
    var files: map<string, FileContent>

    constructor (initial: map<string, FileContent>)
      ensures files == initial
    {
      files := initial;
    }

    /** `open(path, 'w')`: the file exists afterwards and is empty. */
    method Truncate(path: string)
      modifies this
      ensures files == old(files)[path := Label([])]
    {
      files := files[path := Label([])];
    }

    /** `f.write(line)` on a label file opened for writing. */
    method Append(path: string, line: Line)
      requires path in files && files[path].Label?
      modifies this
      ensures files == old(files)[path := Label(old(files)[path].lines + [line])]
    {
      files := files[path := Label(files[path].lines + [line])];
    }

    /** `cv2.imwrite(path, frame)`. */
    method WriteImage(path: string, frame: Frame)
      modifies this
      ensures files == old(files)[path := Picture(frame)]
    {
      files := files[path := Picture(frame)];
    }
  }
}
