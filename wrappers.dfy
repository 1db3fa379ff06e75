/** The optional value used for every nullable column and every query result. */
module Wrappers {

  datatype Option<+T> = None | Some(value: T)

  /** `data || []`: the rows of a query result, none when the query failed. */
  function Rows<T>(q: Option<seq<T>>): seq<T>
  {
    if q.Some? then q.value else []
  }
}
