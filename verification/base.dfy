/** Small shared vocabulary: nullable values. */
module Base {

  /** A nullable column or an absent request field. */
  datatype Option<+T> = None | Some(value: T) {

    /** The wrapped value, or `default` when there is none. */
    function GetOr(default: T): T {
      match this
      case Some(v) => v
      case None => default
    }
  }
}
