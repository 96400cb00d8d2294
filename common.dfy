/** Small shared vocabulary: optional values, results, row identifiers. */
module Common {

  datatype Option<+T> = None | Some(value: T) {
    function GetOr(default: T): (r: T) {
      match this
      case Some(v) => v
      case None => default
    }
  }

  /** The outcome of a request: a value, or the error the handler answers with. */
  datatype Result<+T, +E> = Ok(value: T) | Err(error: E)

  /** Rows are numbered from 1 like Django's AutoField; row k of a table sits at index k - 1. */
  predicate IsId(k: int, tableSize: int) {
    1 <= k <= tableSize
  }

  /** The index of the last row of `rows` that satisfies `p`, if any: the lookup of a row
      by a field the code treats as unique. */
  function LastWhere<T>(rows: seq<T>, p: T -> bool): (r: Option<nat>)
    ensures r.Some? ==> r.value < |rows| && p(rows[r.value])
    ensures r.Some? ==> forall i :: r.value < i < |rows| ==> !p(rows[i])
    ensures r.None? ==> forall i :: 0 <= i < |rows| ==> !p(rows[i])
  {
    if rows == [] then None
    else if p(rows[|rows| - 1]) then Some(|rows| - 1)
    else LastWhere(rows[..|rows| - 1], p)
  }

  /** Python truthiness of an optional string: None and "" are both false. */
  predicate Present(s: Option<string>) {
    s.Some? && s.value != ""
  }

  /** Python truthiness of an optional number: None and 0 are both false. */
  predicate PresentNumber(n: Option<int>) {
    n.Some? && n.value != 0
  }
}
