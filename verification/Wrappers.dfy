/** The optional value that stands for `undefined` in TypeScript and `None` in Rust. */
module Wrappers {

  datatype Option<+T> = None | Some(value: T) {

    /** The `??` operator: the value if there is one, else the alternative. */
    function GetOr(default: T): T {
      match this
      case Some(v) => v
      case None => default
    }

    function OrElse(alternative: Option<T>): Option<T> {
      if Some? then this else alternative
    }
  }

  /** JavaScript truthiness of an optional string: absent and empty are both false. */
  predicate Truthy(text: Option<string>) {
    text.Some? && text.value != ""
  }
}
