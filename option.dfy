/** The optional value used throughout the model: JavaScript's `undefined` /
    `null` become None, a present value becomes Some. */
module Options {

  datatype Option<+T> = None | Some(value: T) {

    /** The value if present, else the given default (a defaulted parameter). */
    function GetOr(default: T): T {
      match this
      case Some(v) => v
      case None => default
    }
  }

  /** JavaScript truthiness of an optional number: present and not 0 (NaN,
      also falsy there, has no counterpart among the reals). */
  predicate Truthy(x: Option<real>) {
    x.Some? && x.value != 0.0
  }
}
