/** The optional value used wherever the builder stores Python's `None`. */
module Wrappers {

  datatype Option<+T> = None | Some(value: T)

  /** The elements of an optional value, as a set: empty for `None`. */
  function OptionElems<T>(o: Option<T>): set<T> {
    match o
    case None => {}
    case Some(x) => {x}
  }

  /** The elements of a sequence, as a set. */
  function Elems<T>(xs: seq<T>): set<T> {
    set x | x in xs
  }
}
