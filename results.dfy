/** Optional values, results and the two exceptions the widget can throw. */
module Results {

  datatype Option<+T> = None | Some(value: T)

  /** The two programmer-usage errors of the widget. */
  datatype Error =
    /** IllegalStateException: the configured toggle type is neither image button nor text view. */
    | UnknownToggleType(toggleType: int)
    /** IllegalArgumentException: the widget only lays its children out vertically. */
    | HorizontalOrientation

  datatype Result<+T> = Ok(value: T) | Err(error: Error)

  function GetOr<T>(o: Option<T>, default: T): T
  {
    match o
    case Some(v) => v
    case None => default
  }
}
