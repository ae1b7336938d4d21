/** Values that may be absent: a pointer, a field, or the answer that a list does not hold. */
module Options {
  datatype Option<+T> = None | Some(value: T)

  /** What a list says first; an empty list says the same thing for ever. */
  function FirstOf<T>(list: seq<T>, otherwise: T): T {
    if list == [] then otherwise else list[0]
  }

  function RestOf<T>(list: seq<T>): seq<T> {
    if list == [] then [] else list[1..]
  }
}
