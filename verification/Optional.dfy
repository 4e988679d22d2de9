module Optional {
  datatype Option<+T> = None | Some(value: T)

  function ValueOr<T>(o: Option<T>, fallback: T): T {
    match o
    case None => fallback
    case Some(v) => v
  }
}
