/**
 * `Option<T>` stands for the `T | null` (and `T | undefined`) fields of the
 * application's records; `None` is the null value.
 */
module Optional {

  datatype Option<+T> = None | Some(value: T) {

    /** `x ?? d`: the value, or `d` when it is null. */
    function GetOr(d: T): T {
      match this
      case Some(v) => v
      case None => d
    }
  }
}
