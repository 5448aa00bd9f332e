/** Small shared value types used by every part of the model. */
module Wrappers {

  /** A Java/Kotlin reference that may be null. */
  datatype Option<+T> = None | Some(value: T)

  /** An integer rectangle as android.graphics.Rect holds it. */
  datatype Rect = Rect(left: int, top: int, right: int, bottom: int)
}
