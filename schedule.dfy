/**
 * routes/schedule.js: the WHERE clause and parameter list of the event
 * listing, the required-field check and defaults of create and update, and
 * the 404 answers of get, update and delete.
 */
module Schedule {
  import opened Common
  import opened Text

  // ---------------------------------------------------------------------
  // GET /: filters

  /** The query-string filters; None is a parameter the request does not carry. */
  datatype Filters = Filters(
    date: Option<string>,
    program_id: Option<string>,
    event_type: Option<string>,
    start_date: Option<string>,
    end_date: Option<string>)

  /** A query-string value is truthy when it is present and non-empty. */
  predicate Given(v: Option<string>)
  {
    v.Some? && v.value != ""
  }

  /** The destructuring default `= 'all'`: it applies only to an absent value, not to an empty one. */
  function OrAll(v: Option<string>): (r: string)
    ensures v.None? ==> r == "all"
    ensures v.Some? ==> r == v.value
  {
    match v
    case None => "all"
    case Some(s) => s
  }

  const DateCondition: string := "DATE(date) = ?"
  const RangeCondition: string := "DATE(date) BETWEEN ? AND ?"
  const ProgramCondition: string := "program_id = ?"
  const TypeCondition: string := "event_type = ?"

  predicate DateFilter(f: Filters) { Given(f.date) }
  predicate RangeFilter(f: Filters) { Given(f.start_date) && Given(f.end_date) }
  predicate ProgramFilter(f: Filters) { OrAll(f.program_id) != "all" }
  predicate TypeFilter(f: Filters) { OrAll(f.event_type) != "all" }

  /** The conditions, in the order the handler pushes them. */
  function Conditions(f: Filters): seq<string>
  {
    (if DateFilter(f) then [DateCondition] else [])
    + (if RangeFilter(f) then [RangeCondition] else [])
    + (if ProgramFilter(f) then [ProgramCondition] else [])
    + (if TypeFilter(f) then [TypeCondition] else [])
  }

  /** The bound parameters, in the order of their placeholders: date, range start, range end, program, type. */
  function Params(f: Filters): seq<string>
  {
    (if DateFilter(f) then [f.date.value] else [])
    + (if RangeFilter(f) then [f.start_date.value, f.end_date.value] else [])
    + (if ProgramFilter(f) then [OrAll(f.program_id)] else [])
    + (if TypeFilter(f) then [OrAll(f.event_type)] else [])
  }

  /**
   * The filter builder: starting from two empty lists, push a condition and
   * its parameters for each filter that applies.
   */
  method BuildFilters(f: Filters) returns (whereConditions: seq<string>, queryParams: seq<string>)
    ensures whereConditions == Conditions(f)
    ensures queryParams == Params(f)
  {
    var date := f.date;
    var program_id := OrAll(f.program_id);
    var event_type := OrAll(f.event_type);
    whereConditions, queryParams := [], [];
    if Given(date) {
      whereConditions := whereConditions + [DateCondition];
      queryParams := queryParams + [date.value];
    }
    if Given(f.start_date) && Given(f.end_date) {
      whereConditions := whereConditions + [RangeCondition];
      queryParams := queryParams + [f.start_date.value, f.end_date.value];
    }
    if program_id != "all" {
      whereConditions := whereConditions + [ProgramCondition];
      queryParams := queryParams + [program_id];
    }
    if event_type != "all" {
      whereConditions := whereConditions + [TypeCondition];
      queryParams := queryParams + [event_type];
    }
  }

  /** `whereConditions.length > 0 ? 'WHERE ' + whereConditions.join(' AND ') : ''`. */
  function WhereClause(conditions: seq<string>): (clause: string)
    ensures conditions == [] <==> clause == ""
  {
    if |conditions| > 0 then "WHERE " + Join(conditions, " AND ") else ""
  }

  /** Each condition is added exactly when its filter applies. */
  lemma ConditionsIff(f: Filters)
    ensures DateCondition in Conditions(f) <==> DateFilter(f)
    ensures RangeCondition in Conditions(f) <==> RangeFilter(f)
    ensures ProgramCondition in Conditions(f) <==> ProgramFilter(f)
    ensures TypeCondition in Conditions(f) <==> TypeFilter(f)
  {
  }

  /** Absent program and type filters default to 'all' and so add nothing. */
  lemma DefaultsFilterNothing(f: Filters)
    requires f.program_id.None? && f.event_type.None?
    requires !Given(f.date) && !Given(f.start_date)
    ensures Conditions(f) == [] && Params(f) == []
    ensures WhereClause(Conditions(f)) == ""
  {
  }

  /** The number of `?` placeholders in the WHERE clause equals the number of bound parameters. */
  lemma PlaceholdersMatchParams(f: Filters)
    ensures Count(WhereClause(Conditions(f)), '?') == |Params(f)|
  {
    ConditionPlaceholders(f);
    WherePlaceholders(Conditions(f));
  }

  /** The WHERE keyword and the AND separators add no placeholder. */
  lemma WherePlaceholders(conds: seq<string>)
    ensures Count(WhereClause(conds), '?') == SumCounts(conds, '?')
  {
    if conds != [] {
      CountAbsent(" AND ", '?');
      CountJoin(conds, " AND ", '?');
      CountAbsent("WHERE ", '?');
      CountAppend("WHERE ", Join(conds, " AND "), '?');
    }
  }

  /** Over the conditions, the placeholders number as many as the parameters. */
  lemma ConditionPlaceholders(f: Filters)
    ensures SumCounts(Conditions(f), '?') == |Params(f)|
  {
    ConditionCounts();
    OptionalSum(DateFilter(f), RangeFilter(f), ProgramFilter(f), TypeFilter(f),
                DateCondition, RangeCondition, ProgramCondition, TypeCondition);
  }

  lemma OptionalSum(a: bool, b: bool, c: bool, d: bool, dc: string, rc: string, pc: string, tc: string)
    requires Count(dc, '?') == 1 && Count(rc, '?') == 2 && Count(pc, '?') == 1 && Count(tc, '?') == 1
    ensures SumCounts((if a then [dc] else []) + (if b then [rc] else []) + (if c then [pc] else []) + (if d then [tc] else []), '?')
         == (if a then 1 else 0) + (if b then 2 else 0) + (if c then 1 else 0) + (if d then 1 else 0)
  {
    var x, y, z, w := (if a then [dc] else []), (if b then [rc] else []), (if c then [pc] else []), (if d then [tc] else []);
    SumCountsAppend(x, y, '?');
    SumCountsAppend(x + y, z, '?');
    SumCountsAppend(x + y + z, w, '?');
    SumCountsOptional(a, dc);
    SumCountsOptional(b, rc);
    SumCountsOptional(c, pc);
    SumCountsOptional(d, tc);
  }

  lemma SumCountsOptional(present: bool, cond: string)
    ensures SumCounts(if present then [cond] else [], '?') == if present then Count(cond, '?') else 0
  {
    if present {
      assert [cond][1..] == [];
    }
  }

  /** The date, program and type conditions hold one placeholder each, the range condition two. */
  lemma ConditionCounts()
    ensures Count(DateCondition, '?') == 1 && Count(RangeCondition, '?') == 2
    ensures Count(ProgramCondition, '?') == 1 && Count(TypeCondition, '?') == 1
  {
    DateCount();
    RangeCount();
    ProgramCount();
    TypeCount();
  }

  lemma DateCount() ensures Count(DateCondition, '?') == 1 { OneAtEnd(DateCondition); }
  lemma ProgramCount() ensures Count(ProgramCondition, '?') == 1 { OneAtEnd(ProgramCondition); }
  lemma TypeCount() ensures Count(TypeCondition, '?') == 1 { OneAtEnd(TypeCondition); }

  lemma RangeCount()
    ensures Count(RangeCondition, '?') == 2
  {
    var s := RangeCondition;
    var p, q := s[..20], s[20..];
    assert s == p + q;
    OneAtEnd(p);
    OneAtEnd(q);
    CountAppend(p, q, '?');
  }

  /** A text whose only `?` is its last character holds one placeholder. */
  lemma OneAtEnd(s: string)
    requires |s| > 0 && s[|s| - 1] == '?'
    requires forall k :: 0 <= k < |s| - 1 ==> s[k] != '?'
    ensures Count(s, '?') == 1
  {
    var p := s[..|s| - 1];
    assert s == p + ['?'];
    assert '?' !in p;
    CountAbsent(p, '?');
    CountAppend(p, ['?'], '?');
  }

  lemma {:induction false} CountAbsent(s: string, c: char)
    requires c !in s
    ensures Count(s, c) == 0
  {
    if s != [] {
      assert s[0] in s;
      assert forall x :: x in s[1..] ==> x in s;
      CountAbsent(s[1..], c);
    }
  }

  lemma {:induction false} SumCountsAppend(a: seq<string>, b: seq<string>, c: char)
    ensures SumCounts(a + b, c) == SumCounts(a, c) + SumCounts(b, c)
  {
    if a != [] {
      assert (a + b)[1..] == a[1..] + b;
      SumCountsAppend(a[1..], b, c);
    } else {
      assert a + b == b;
    }
  }

  // ---------------------------------------------------------------------
  // GET /, GET /:id, POST /, PUT /:id, DELETE /:id

  /** A handler's outcome: the parameters of the statement it sent, if any, and its answer. */
  datatype Outcome<T> = Outcome(statement: Option<seq<JsValue>>, response: Response<T>)

  /** The listing answers the rows the driver returned, in its order. */
  function ListEvents<E>(answer: DbResult<seq<E>>): (resp: Response<seq<E>>)
    ensures answer.Ok? ==> resp == Success(200, answer.value)
    ensures answer.Err? ==> resp == Failure(500, "Error fetching events", Some(answer.message))
  {
    match answer
    case Ok(events) => Success(200, events)
    case Err(_, message) => Failure(500, "Error fetching events", Some(message))
  }

  /** GET /:id: the first row, or 404 when there is none. */
  function GetEvent<E>(answer: DbResult<seq<E>>): (resp: Response<E>)
    ensures resp.Success? <==> answer.Ok? && |answer.value| > 0
    ensures resp.Success? ==> resp == Success(200, answer.value[0])
    ensures resp.Status() == 404 <==> answer.Ok? && answer.value == []
    ensures answer.Err? ==> resp == Failure(500, "Error fetching event", Some(answer.message))
  {
    match answer
    case Err(_, message) => Failure(500, "Error fetching event", Some(message))
    case Ok(events) =>
      if |events| == 0 then Failure(404, "Event not found", None) else Success(200, events[0])
  }

  /** The request body of create and update. */
  datatype EventBody = EventBody(
    event_title: JsValue,
    date: JsValue,
    time: JsValue,
    location: JsValue,
    event_type: JsValue,
    program_id: JsValue,
    notes: JsValue)

  /** Title, date and time are all truthy. */
  predicate HasRequired(body: EventBody)
  {
    Truthy(body.event_title) && Truthy(body.date) && Truthy(body.time)
  }

  const RequiredMessage: string := "Event title, date, and time are required"

  /** The seven values bound to the INSERT (and the first seven of the UPDATE), defaults applied. */
  function StoredValues(body: EventBody): (values: seq<JsValue>)
    ensures |values| == 7
    ensures values[0] == body.event_title && values[1] == body.date && values[2] == body.time
    ensures Truthy(body.location) ==> values[3] == body.location
    ensures !Truthy(body.location) ==> values[3] == Str("")
    ensures Truthy(body.event_type) ==> values[4] == body.event_type
    ensures !Truthy(body.event_type) ==> values[4] == Str("meeting")
    ensures Truthy(body.program_id) ==> values[5] == body.program_id
    ensures !Truthy(body.program_id) ==> values[5] == Str("all")
    ensures Truthy(body.notes) ==> values[6] == body.notes
    ensures !Truthy(body.notes) ==> values[6] == Str("")
  {
    [body.event_title, body.date, body.time,
     OrElse(body.location, Str("")),
     OrElse(body.event_type, Str("meeting")),
     OrElse(body.program_id, Str("all")),
     OrElse(body.notes, Str(""))]
  }

  /** What POST / answers with 201: the new id and the body's fields as sent, before defaults. */
  datatype CreatedEvent = CreatedEvent(id: nat, event: EventBody)

  /** POST /: 400 before any statement when a required field is falsy; else INSERT and answer 201. */
  function CreateEvent(body: EventBody, answer: DbResult<WriteInfo>): (out: Outcome<CreatedEvent>)
    ensures !HasRequired(body) ==> out == Outcome(None, Failure(400, RequiredMessage, None))
    ensures HasRequired(body) ==> out.statement == Some(StoredValues(body))
    ensures out.response.Success? <==> HasRequired(body) && answer.Ok?
    ensures out.response.Success? ==> out.response == Success(201, CreatedEvent(answer.value.insertId, body))
    ensures HasRequired(body) && answer.Err? ==> out.response == Failure(500, "Error creating event", Some(answer.message))
  {
    if !HasRequired(body) then Outcome(None, Failure(400, RequiredMessage, None))
    else
      var statement := Some(StoredValues(body));
      match answer
      case Err(_, message) => Outcome(statement, Failure(500, "Error creating event", Some(message)))
      case Ok(info) => Outcome(statement, Success(201, CreatedEvent(info.insertId, body)))
  }

  /** PUT /:id: the same check and defaults, the id bound last; no affected row is a 404. */
  function UpdateEvent(id: string, body: EventBody, answer: DbResult<WriteInfo>): (out: Outcome<string>)
    ensures !HasRequired(body) ==> out == Outcome(None, Failure(400, RequiredMessage, None))
    ensures HasRequired(body) ==> out.statement == Some(StoredValues(body) + [Str(id)])
    ensures out.response.Status() == 404 <==> HasRequired(body) && answer.Ok? && answer.value.affectedRows == 0
    ensures out.response.Success? <==> HasRequired(body) && answer.Ok? && answer.value.affectedRows > 0
    ensures out.response.Success? ==> out.response == Success(200, "Event updated successfully")
    ensures HasRequired(body) && answer.Err? ==> out.response == Failure(500, "Error updating event", Some(answer.message))
  {
    if !HasRequired(body) then Outcome(None, Failure(400, RequiredMessage, None))
    else
      var statement := Some(StoredValues(body) + [Str(id)]);
      match answer
      case Err(_, message) => Outcome(statement, Failure(500, "Error updating event", Some(message)))
      case Ok(info) =>
        if info.affectedRows == 0 then Outcome(statement, Failure(404, "Event not found", None))
        else Outcome(statement, Success(200, "Event updated successfully"))
  }

  /** DELETE /:id: no affected row is a 404. */
  function DeleteEvent(answer: DbResult<WriteInfo>): (resp: Response<string>)
    ensures resp.Status() == 404 <==> answer.Ok? && answer.value.affectedRows == 0
    ensures resp.Success? <==> answer.Ok? && answer.value.affectedRows > 0
    ensures answer.Err? ==> resp == Failure(500, "Error deleting event", Some(answer.message))
  {
    match answer
    case Err(_, message) => Failure(500, "Error deleting event", Some(message))
    case Ok(info) =>
      if info.affectedRows == 0 then Failure(404, "Event not found", None)
      else Success(200, "Event deleted successfully")
  }

  /** A body with only the required fields is stored with every default. */
  lemma OmittedFieldsStoredWithDefaults(title: string, date: string, time: string)
    requires title != "" && date != "" && time != ""
    ensures StoredValues(EventBody(Str(title), Str(date), Str(time), Undefined, Undefined, Undefined, Undefined))
         == [Str(title), Str(date), Str(time), Str(""), Str("meeting"), Str("all"), Str("")]
  {
  }

  /** The 201 answer echoes the body as sent: an omitted location is reported absent, though '' was stored. */
  lemma CreatedEchoesBodyNotDefaults(body: EventBody, info: WriteInfo)
    requires HasRequired(body) && body.location == Undefined
    ensures CreateEvent(body, Ok(info)).response.data.event.location == Undefined
    ensures CreateEvent(body, Ok(info)).statement.value[3] == Str("")
  {
  }

  /** Create and update validate identically, whatever the driver would have said. */
  lemma ValidationIndependentOfDriver(id: string, body: EventBody, a1: DbResult<WriteInfo>, a2: DbResult<WriteInfo>)
    requires !HasRequired(body)
    ensures CreateEvent(body, a1) == CreateEvent(body, a2)
    ensures UpdateEvent(id, body, a1) == UpdateEvent(id, body, a2)
  {
  }
}
