/** An optional value: `None` stands for JavaScript's `undefined`, be it a
    prop that was not passed or an array element read past the end. */
module Options {

  datatype Option<+T> = None | Some(value: T) {

    /** The contained value, or `default` when there is none. */
    function GetOr(default: T): T {
      match this
      case Some(v) => v
      case None => default
    }
  }
}
