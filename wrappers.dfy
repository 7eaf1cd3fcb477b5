/** Option with the members Dafny needs for `:-`. A `None` stands for a JSON key
    that is absent, and, as the result of a lookup, for the KeyError that a
    direct `d[key]` raises on such a key. */
module Wrappers {

  datatype Option<+T> = None | Some(value: T) {

    predicate IsFailure() {
      None?
    }

    function PropagateFailure<U>(): Option<U>
      requires None?
    {
      None
    }

    function Extract(): T
      requires Some?
    {
      value
    }

    /** Python's `d.get(key, default)`: the stored value when the key is present. */
    function GetOr(default: T): T {
      if Some? then value else default
    }
  }
}
