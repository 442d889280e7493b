/** The nullable values of the source (a `string | null` field, an absent
    property of a partial record). */
module Optional {

  datatype Option<+T> = None | Some(value: T) {

    function GetOr(default: T): T {
      match this
      case Some(v) => v
      case None => default
    }
  }
}
