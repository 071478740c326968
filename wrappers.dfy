/** The optional-value type used wherever the source has an optional
    property, a nullable value or a missing dictionary entry. */
module Wrappers {
  datatype Option<+T> = None | Some(value: T)
  {
    function GetOr(default: T): T
    {
      match this
      case Some(v) => v
      case None => default
    }
  }
}
