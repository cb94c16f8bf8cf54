/**
 * Values shared by every route handler: nullable values, the answer the
 * SQL driver gives to one statement, JavaScript truthiness and the `|| 0`
 * idiom, and the (status, body) pair a handler sends back.
 */
module Common {

  datatype Option<+T> = None | Some(value: T)

  /** What the driver hands back for one statement: its result, or the error it threw. */
  datatype DbResult<+T> = Ok(value: T) | Err(code: string, message: string)

  /** The outcome of an INSERT/UPDATE/DELETE as the driver reports it. */
  datatype WriteInfo = WriteInfo(insertId: nat, affectedRows: nat)

  /**
   * One row of a single-row aggregate query (COUNT/SUM): column name to
   * nullable integer. A column the query did not select is absent.
   */
  type Record = map<string, Option<int>>

  /** A request-body or query-string value, as far as truthiness goes. */
  datatype JsValue = Undefined | Null | Bool(b: bool) | Num(n: int) | Str(s: string) | Compound

  /** JavaScript's ToBoolean: undefined, null, false, 0 and "" are falsy. */
  predicate Truthy(v: JsValue)
  {
    match v
    case Undefined => false
    case Null => false
    case Bool(b) => b
    case Num(n) => n != 0
    case Str(s) => s != ""
    case Compound => true
  }

  /** `v || d`: v when it is truthy, otherwise d. */
  function OrElse(v: JsValue, d: JsValue): (r: JsValue)
    ensures Truthy(v) ==> r == v
    ensures !Truthy(v) ==> r == d
  {
    if Truthy(v) then v else d
  }

  /** `x || 0` on a nullable integer: null and 0 both become 0, every other value is kept. */
  function Or0(x: Option<int>): (r: int)
    ensures x.None? ==> r == 0
    ensures x.Some? ==> r == x.value
  {
    match x
    case None => 0
    case Some(v) => v
  }

  /** `row.name || 0`: a missing column reads as undefined and becomes 0 too. */
  function Field(row: Record, name: string): (r: int)
    ensures name !in row ==> r == 0
    ensures name in row ==> r == Or0(row[name])
  {
    if name in row then Or0(row[name]) else 0
  }

  /** `row.name` with no normalisation: a missing column is undefined, which JSON drops like null. */
  function Raw(row: Record, name: string): (r: Option<int>)
    ensures name in row ==> r == row[name]
    ensures name !in row ==> r == None
  {
    if name in row then row[name] else None
  }

  /** Every value the aggregate row carries is a non-negative integer or NULL. */
  predicate NonNegative(row: Record)
  {
    forall k :: k in row && row[k].Some? ==> row[k].value >= 0
  }

  /**
   * `const [[x]] = await db.execute(...)`: the first row of a successful
   * result. An error, or an empty row list (destructuring then yields
   * undefined and the next field access throws), gives None.
   */
  function FirstRow<T>(r: DbResult<seq<T>>): (row: Option<T>)
    ensures row.Some? <==> r.Ok? && |r.value| > 0
    ensures row.Some? ==> row.value == r.value[0]
  {
    if r.Ok? && |r.value| > 0 then Some(r.value[0]) else None
  }

  /**
   * The HTTP answer of a handler: `{ success: true, data }` with a 2xx
   * status, or `{ success: false, message, error? }` with 4xx/5xx.
   */
  datatype Response<+T> =
    | Success(status: nat, data: T)
    | Failure(status: nat, message: string, error: Option<string>)
  {
    predicate IsSuccess() { Success? }
    function Status(): nat { status }
  }
}
