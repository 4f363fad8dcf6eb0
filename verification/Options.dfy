/** The optional values used throughout: a field that may be null or absent. */
module Options {

  datatype Option<+T> = None | Some(value: T) {

    /** The value, or a fallback for an absent one. */
    function GetOr(fallback: T): T {
      if Some? then value else fallback
    }
  }

  /** The left value if there is one, else the right, which may be absent too. */
  function Or<T>(left: Option<T>, right: Option<T>): Option<T> {
    if left.Some? then left else right
  }

  /** JavaScript truthiness of a nullable string: absent and empty are both false. */
  predicate HasText(text: Option<string>) {
    text.Some? && text.value != ""
  }
}
