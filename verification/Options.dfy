/** A value a row may lack, and looking a row up in a table. */
module Options {
  datatype Option<+T> = None | Some(value: T)

  /** The position of the first row that satisfies p. */
  function Find<T>(rows: seq<T>, p: T -> bool): (found: Option<nat>)
    ensures found.Some? ==> found.value < |rows| && p(rows[found.value])
                            && forall k :: 0 <= k < found.value ==> !p(rows[k])
    ensures found.None? ==> forall k :: 0 <= k < |rows| ==> !p(rows[k])
  {
    if rows == [] then None else
      var earlier := Find(rows[..|rows| - 1], p);
      if earlier.Some? then earlier else if p(rows[|rows| - 1]) then Some(|rows| - 1) else None
  }
}
