/** Small shared vocabulary: an optional value. */
module Common {

  /** `None` stands for Python's `None` or for a collaborator call that failed. */
  datatype Option<+T> = None | Some(value: T)
}
