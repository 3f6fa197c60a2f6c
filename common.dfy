/** Values shared by the ledger model and the two report handlers:
    nullable columns and optional query parameters, SQL's three-valued
    logic, and the response a handler sends. */
module Common {

  /** A nullable column, or a query parameter that may be absent. */
  datatype Option<+T> = None | Some(value: T)

  /** SQL truth values. A `WHERE` or `CASE WHEN` condition selects a row
      only when it evaluates to `Yes`; `Null` (unknown) selects nothing. */
  datatype Tri = Yes | No | Null

  function Lift(b: bool): Tri {
    if b then Yes else No
  }

  /** SQL `OR`: true wins over unknown. */
  function Or(a: Tri, b: Tri): (r: Tri)
    ensures r == Yes <==> a == Yes || b == Yes
    ensures r == No <==> a == No && b == No
  {
    if a == Yes || b == Yes then Yes
    else if a == No && b == No then No
    else Null
  }

  /** SQL `AND`: false wins over unknown. */
  function And(a: Tri, b: Tri): (r: Tri)
    ensures r == Yes <==> a == Yes && b == Yes
    ensures r == No <==> a == No || b == No
  {
    if a == No || b == No then No
    else if a == Yes && b == Yes then Yes
    else Null
  }

  /** `column = value` where the column is nullable: unknown on NULL. */
  function Equals<T(==)>(column: Option<T>, v: T): (r: Tri)
    ensures r == Yes <==> column == Some(v)
    ensures r == Null <==> column.None?
  {
    match column
    case None => Null
    case Some(x) => Lift(x == v)
  }

  /** The response of an HTTP handler: a JSON body, a 400 or a 500. */
  datatype Response<T> = Ok(body: T) | BadRequest(error: string) | ServerError(error: string)

  /** The error bodies both handlers send. */
  const MissingParams: string := "Missing query params"
  const InternalError: string := "Internal server error"

  /** JavaScript falsiness of a query-string parameter: absent or empty. */
  predicate Missing(p: Option<string>) {
    p.None? || p.value == ""
  }
}
