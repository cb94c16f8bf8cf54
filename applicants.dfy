/**
 * routes/applicants.js: the applicant list with its page count, and the
 * get/offer/fee routes that look an applicant up either by database id
 * (an id made only of digits) or by `applicant_id`.
 */
module Applicants {
  import opened Common
  import opened Text

  /** How a route identifies the applicant: `WHERE id = ?` or `WHERE applicant_id = ?`. */
  datatype Key = ById(id: nat) | ByApplicantId(applicant_id: string)

  /**
   * `/^\d+$/.test(id)` chooses the column; a numeric id is bound as
   * `parseInt(id)`, any other id is bound as the string itself.
   */
  function Lookup(id: string): (k: Key)
    ensures k.ById? <==> IsDigits(id)
    ensures k.ById? ==> k.id == ParseDecimal(id)
    ensures k.ByApplicantId? ==> k.applicant_id == id
  {
    if IsDigits(id) then ById(ParseDecimal(id)) else ByApplicantId(id)
  }

  /** The decimal rendering of a database id is looked up by that id. */
  lemma LookupRendered(n: nat)
    ensures Lookup(NatToString(n)) == ById(n)
  {
    ParseNatToString(n);
  }

  /** Any id with a non-digit is looked up by `applicant_id`. */
  lemma LookupNonNumeric(id: string, k: nat)
    requires k < |id| && !IsDigit(id[k])
    ensures Lookup(id) == ByApplicantId(id)
  {
  }

  /** Leading zeros are dropped: "007" and "7" denote the same database row. */
  lemma LeadingZerosIgnored(id: string)
    requires IsDigits(id)
    ensures Lookup("0" + id) == Lookup(id)
  {
    assert IsDigits("0" + id) by {
      forall i | 0 <= i < |"0" + id| ensures IsDigit(("0" + id)[i]) {
        if i > 0 {
          assert ("0" + id)[i] == id[i - 1];
        }
      }
    }
    ParseLeadingZero(id);
  }

  /** `value ? 1 : 0`. */
  function Flag(value: JsValue): (b: int)
    ensures b == 0 || b == 1
    ensures b == 1 <==> Truthy(value)
  {
    if Truthy(value) then 1 else 0
  }

  /** The statements a route sends: the key, and for a PATCH the flag value bound first. */
  datatype Outcome<T> = Outcome(flag: Option<int>, key: Key, response: Response<T>)

  /** GET /:id: the first row found, or 404. */
  function GetApplicant<A>(id: string, answer: DbResult<seq<A>>): (out: Outcome<A>)
    ensures out.key == Lookup(id) && out.flag.None?
    ensures out.response.Success? <==> answer.Ok? && |answer.value| > 0
    ensures out.response.Success? ==> out.response == Success(200, answer.value[0])
    ensures out.response.Status() == 404 <==> answer.Ok? && answer.value == []
    ensures answer.Err? ==> out.response == Failure(500, "Error fetching applicant", Some(answer.message))
  {
    var key := Lookup(id);
    match answer
    case Err(_, message) => Outcome(None, key, Failure(500, "Error fetching applicant", Some(message)))
    case Ok(rows) =>
      if |rows| == 0 then Outcome(None, key, Failure(404, "Applicant not found", None))
      else Outcome(None, key, Success(200, rows[0]))
  }

  /** The two flags a PATCH route can set. */
  datatype FlagColumn = OfferIssued | FeePaid
  {
    function Done(): string
    {
      match this
      case OfferIssued => "Offer status updated successfully"
      case FeePaid => "Fee status updated successfully"
    }

    function Failed(): string
    {
      match this
      case OfferIssued => "Error updating offer status"
      case FeePaid => "Error updating fee status"
    }
  }

  /**
   * PATCH /:id/offer and PATCH /:id/fee: bind the coerced flag and the key
   * chosen as for GET /:id; no affected row is a 404.
   */
  function SetFlag(column: FlagColumn, id: string, value: JsValue, answer: DbResult<WriteInfo>): (out: Outcome<string>)
    ensures out.key == Lookup(id)
    ensures out.flag == Some(Flag(value))
    ensures out.response.Status() == 404 <==> answer.Ok? && answer.value.affectedRows == 0
    ensures out.response.Success? <==> answer.Ok? && answer.value.affectedRows > 0
    ensures out.response.Success? ==> out.response == Success(200, column.Done())
    ensures answer.Err? ==> out.response == Failure(500, column.Failed(), Some(answer.message))
  {
    var key := Lookup(id);
    var flag := Some(Flag(value));
    match answer
    case Err(_, message) => Outcome(flag, key, Failure(500, column.Failed(), Some(message)))
    case Ok(info) =>
      if info.affectedRows == 0 then Outcome(flag, key, Failure(404, "Applicant not found", None))
      else Outcome(flag, key, Success(200, column.Done()))
  }

  // ---------------------------------------------------------------------
  // GET /: pagination

  const PageSize: nat := 20

  /** `Math.ceil(total / 20)`: the fewest pages of 20 that hold every applicant. */
  function TotalPages(total: nat): (pages: nat)
    ensures pages * PageSize >= total
    ensures pages > 0 ==> (pages - 1) * PageSize < total
  {
    (total + PageSize - 1) / PageSize
  }

  /** Applicant number i (from 0) sits on page i / 20 + 1, which is never past the last page. */
  lemma EveryApplicantHasAPage(total: nat, i: nat)
    requires i < total
    ensures 1 <= i / PageSize + 1 <= TotalPages(total)
  {
  }

  datatype Pagination = Pagination(currentPage: nat, totalPages: nat, totalApplicants: nat, limit: nat)

  datatype ApplicantList<A> = ApplicantList(applicants: seq<A>, pagination: Pagination)

  /**
   * GET /: the first page of rows and the page count. The count query runs
   * second; an empty count result fails when `.total` is read.
   */
  function ListApplicants<A>(rows: DbResult<seq<A>>, count: DbResult<seq<nat>>): (resp: Response<ApplicantList<A>>)
    ensures resp.Success? <==> rows.Ok? && count.Ok? && |count.value| > 0
    ensures resp.Success? ==>
      && resp.status == 200
      && resp.data.applicants == rows.value
      && resp.data.pagination == Pagination(1, TotalPages(count.value[0]), count.value[0], PageSize)
    ensures rows.Err? ==> resp == Failure(500, "Error fetching applicants", Some(rows.message))
    ensures rows.Ok? && count.Err? ==> resp == Failure(500, "Error fetching applicants", Some(count.message))
  {
    match rows
    case Err(_, message) => Failure(500, "Error fetching applicants", Some(message))
    case Ok(applicants) =>
      match count
      case Err(_, message) => Failure(500, "Error fetching applicants", Some(message))
      case Ok(counts) =>
        if |counts| == 0 then Failure(500, "Error fetching applicants", Some("Cannot read properties of undefined (reading 'total')"))
        else
          var total := counts[0];
          Success(200, ApplicantList(applicants, Pagination(1, TotalPages(total), total, PageSize)))
  }
}
