/** Swift's optional values, as used by the cursor (`AVPlayerItem?`) and the token slot. */
module Wrappers {
  datatype Option<+T> = None | Some(value: T)
}
