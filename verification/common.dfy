/** Shared helper datatypes. */
module Common {

  /** A value that may be absent: React's `null` for an unset state slot, or a
      lookup that found nothing. */
  datatype Option<T> = None | Some(value: T)
}
