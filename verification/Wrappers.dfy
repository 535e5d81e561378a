/** Values shared by every module. */
module Wrappers {
  datatype Option<+T> = None | Some(value: T)

  /** What a remote write did: an error may come back although the write took effect. */
  datatype WriteOutcome = Written | Rejected | WrittenButFailed
}
