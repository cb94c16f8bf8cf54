/**
 * routes/dashboard-fixed.js: the same overview route, the same PGP summary,
 * and PhD/EPhD/EMBA summaries that run nine unguarded queries and build the
 * report as one object expression with every count normalised by `|| 0`.
 */
module DashboardFixed {
  import opened Common
  import opened Summaries
  import Overview
  import Dashboard

  /** The overview route, identical to the one of routes/dashboard.js. */
  method OverviewRoute(result: DbResult<seq<Overview.OverviewRow>>) returns (resp: Response<seq<Overview.Course>>)
    ensures result.Ok? ==> resp == Success(200, Overview.OverviewOf(result.value))
    ensures result.Err? ==> resp == Failure(500, "Error fetching dashboard data", Some(result.message))
  {
    resp := Dashboard.OverviewRoute(result);
  }

  /** Every query of the battery answered: each single-row query with a row, the area query at all. */
  predicate Answered(q: Battery)
  {
    && FirstRow(q.commitmentFee).Some? && FirstRow(q.slotsToday).Some? && FirstRow(q.studentsToday).Some?
    && FirstRow(q.presentAbsentToday).Some? && FirstRow(q.totalSlots).Some? && FirstRow(q.totalStudents).Some?
    && FirstRow(q.registrations).Some? && FirstRow(q.applications).Some? && q.areaWise.Ok?
  }

  /** The single-row answers in the order the handler awaits them. */
  function SingleRowQueries(q: Battery): seq<DbResult<seq<Record>>>
  {
    [q.commitmentFee, q.slotsToday, q.studentsToday, q.presentAbsentToday,
     q.totalSlots, q.totalStudents, q.registrations, q.applications]
  }

  /** The first column the response expression reads from each single-row answer, in the same order. */
  const FirstColumns: seq<string> :=
    ["commitment_fee_paid", "today_total_slots", "today_total_students", "present_students",
     "total_slots", "total_students", "total_registrations", "total_applications"]

  /** The message of the first driver error, in the order the queries are awaited. */
  function FirstDriverError(rs: seq<DbResult<seq<Record>>>, area: DbResult<seq<AreaRow>>): (e: Option<string>)
    ensures e.None? <==> (forall k :: 0 <= k < |rs| ==> rs[k].Ok?) && area.Ok?
  {
    if rs == [] then (if area.Err? then Some(area.message) else None)
    else if rs[0].Err? then Some(rs[0].message)
    else FirstDriverError(rs[1..], area)
  }

  /** V8's message for reading `name` off the `undefined` an empty destructuring leaves. */
  function UndefinedRead(name: string): string
  {
    "Cannot read properties of undefined (reading '" + name + "')"
  }

  /** The TypeError of the first empty answer the response expression reads. */
  function FirstEmpty(rs: seq<DbResult<seq<Record>>>, names: seq<string>): (e: Option<string>)
    requires |rs| == |names|
    ensures e.None? <==> forall k :: 0 <= k < |rs| ==> rs[k].Err? || |rs[k].value| > 0
  {
    if rs == [] then None
    else if rs[0].Ok? && |rs[0].value| == 0 then Some(UndefinedRead(names[0]))
    else FirstEmpty(rs[1..], names[1..])
  }

  /** The error names the column read from the first empty answer, whatever follows it. */
  lemma {:induction false} FirstEmptyIsFirst(rs: seq<DbResult<seq<Record>>>, names: seq<string>, k: nat)
    requires |rs| == |names| && k < |rs|
    requires rs[k].Ok? && |rs[k].value| == 0
    requires forall j :: 0 <= j < k ==> rs[j].Err? || |rs[j].value| > 0
    ensures FirstEmpty(rs, names) == Some(UndefinedRead(names[k]))
  {
    if k > 0 {
      FirstEmptyIsFirst(rs[1..], names[1..], k - 1);
    }
  }

  /** The summary built from a battery in which every query answered, each count `|| 0`. */
  function Normalised(q: Battery): ProgramReport
    requires Answered(q)
  {
    ProgramReport(
      Phase3(Field(q.commitmentFee.value[0], "commitment_fee_paid")),
      Phase2(
        Field(q.slotsToday.value[0], "today_total_slots"),
        Field(q.studentsToday.value[0], "today_total_students"),
        Field(q.presentAbsentToday.value[0], "present_students"),
        Field(q.presentAbsentToday.value[0], "absent_students"),
        Field(q.presentAbsentToday.value[0], "pending_students"),
        Field(q.totalSlots.value[0], "total_slots"),
        Field(q.totalStudents.value[0], "total_students"),
        Field(q.totalStudents.value[0], "total_present"),
        Field(q.totalStudents.value[0], "total_absent"),
        Field(q.totalStudents.value[0], "total_pending")),
      Phase1(
        Field(q.registrations.value[0], "total_registrations"),
        Field(q.applications.value[0], "total_applications"),
        Field(q.applications.value[0], "submitted_applications"),
        q.areaWise.value))
  }

  /**
   * The unguarded PhD/EPhD/EMBA summary: 200 with the normalised report
   * when every query answered; otherwise 500 with the program's message and
   * the error that escaped: the first driver error in await order, or, when
   * the driver never failed, the TypeError of the first empty answer read.
   */
  function FixedSummary(program: Program, q: Battery): (resp: Response<ProgramReport>)
    requires program != PGP
    ensures resp.Success? <==> Answered(q)
    ensures resp.Success? ==> resp.status == 200 && resp.data.phase1.area_wise_applications == q.areaWise.value
    ensures resp.Failure? ==>
      && resp.status == 500
      && resp.message == "Error fetching " + program.Name() + " dashboard data"
      && resp.error.Some?
    ensures resp.Success? ==> resp.data == Normalised(q)
    ensures FirstDriverError(SingleRowQueries(q), q.areaWise).Some? ==>
      resp.Failure? && resp.error == FirstDriverError(SingleRowQueries(q), q.areaWise)
    ensures FirstDriverError(SingleRowQueries(q), q.areaWise).None? && resp.Failure? ==>
      resp.error == FirstEmpty(SingleRowQueries(q), FirstColumns)
  {
    var rs := SingleRowQueries(q);
    var message := "Error fetching " + program.Name() + " dashboard data";
    match FirstDriverError(rs, q.areaWise)
    case Some(e) => Failure(500, message, Some(e))
    case None =>
      match FirstEmpty(rs, FirstColumns)
      case Some(e) =>
        Failure(500, message, Some(e))
      case None =>
        assert forall k :: 0 <= k < |rs| ==> rs[k].Ok? && |rs[k].value| > 0;
        assert rs[0] == q.commitmentFee && rs[1] == q.slotsToday && rs[2] == q.studentsToday && rs[3] == q.presentAbsentToday;
        assert rs[4] == q.totalSlots && rs[5] == q.totalStudents && rs[6] == q.registrations && rs[7] == q.applications;
        Success(200, Normalised(q))
  }

  /** One failing query anywhere fails the whole route, with that query's message when it is the first. */
  lemma FixedOneFailureFailsAll(program: Program, q: Battery, code: string, message: string)
    requires program != PGP
    ensures FixedSummary(program, q.(commitmentFee := Err(code, message))).error == Some(message)
    ensures FixedSummary(program, q.(registrations := Err(code, message))).Failure?
  {
    var q1 := q.(commitmentFee := Err(code, message));
    assert SingleRowQueries(q1)[0] == Err(code, message);
    var q2 := q.(registrations := Err(code, message));
    assert SingleRowQueries(q2)[6].Err?;
  }

  /** Every leaf of a successful fixed summary is a non-negative integer when the counts are. */
  lemma FixedNonNegative(program: Program, q: Battery)
    requires program != PGP
    requires BatteryNonNegative(q)
    ensures FixedSummary(program, q).Success? ==> LeavesNonNegative(FixedSummary(program, q).data)
  {
    if Answered(q) {
      FieldNonNegative(q.commitmentFee, "commitment_fee_paid");
      FieldNonNegative(q.slotsToday, "today_total_slots");
      FieldNonNegative(q.studentsToday, "today_total_students");
      FieldNonNegative(q.presentAbsentToday, "present_students");
      FieldNonNegative(q.presentAbsentToday, "absent_students");
      FieldNonNegative(q.presentAbsentToday, "pending_students");
      FieldNonNegative(q.totalSlots, "total_slots");
      FieldNonNegative(q.totalStudents, "total_students");
      FieldNonNegative(q.totalStudents, "total_present");
      FieldNonNegative(q.totalStudents, "total_absent");
      FieldNonNegative(q.totalStudents, "total_pending");
      FieldNonNegative(q.registrations, "total_registrations");
      FieldNonNegative(q.applications, "total_applications");
      FieldNonNegative(q.applications, "submitted_applications");
    }
  }

  /**
   * PhD and EPhD count attendance 1, 0 and NULL: when every marker is one of
   * those, the three totals of a successful summary add up to total_students.
   */
  lemma FixedAttendanceBalanced(program: Program, q: Battery, values: seq<Option<int>>)
    requires program == PhD || program == EPhD
    requires q.totalStudents == Ok([AttendanceTotals(values)])
    requires forall k :: 0 <= k < |values| ==> values[k] == Some(1) || values[k] == Some(0) || values[k] == None
    ensures FixedSummary(program, q).Success? ==>
      var p2 := FixedSummary(program, q).data.phase2;
      p2.total_present + p2.total_absent + p2.total_pending == p2.total_students
  {
    AttendanceBalanced(values);
  }

  /**
   * EMBA counts the three values of its status enum: when no status is
   * NULL, the totals of a successful summary add up to total_students.
   */
  lemma FixedStatusBalanced(q: Battery, statuses: seq<Option<SlotStatus>>)
    requires q.totalStudents == Ok([StatusTotals(statuses)])
    requires forall k :: 0 <= k < |statuses| ==> statuses[k].Some?
    ensures FixedSummary(EMBA, q).Success? ==>
      var p2 := FixedSummary(EMBA, q).data.phase2;
      p2.total_present + p2.total_absent + p2.total_pending == p2.total_students
  {
    StatusBalanced(statuses);
  }

  /** One NULL status leaves the counts of a successful EMBA summary short of total_students. */
  lemma FixedStatusNullFallsShort(q: Battery, statuses: seq<Option<SlotStatus>>, k: nat)
    requires q.totalStudents == Ok([StatusTotals(statuses)])
    requires k < |statuses| && statuses[k].None?
    ensures FixedSummary(EMBA, q).Success? ==>
      var p2 := FixedSummary(EMBA, q).data.phase2;
      p2.total_present + p2.total_absent + p2.total_pending < p2.total_students
  {
    StatusCanFallShort(statuses, k);
  }

  /**
   * On a battery where everything answers, the fixed EMBA summary agrees
   * with the guarded one of routes/dashboard.js except for the three
   * attendance counts of today and the area list, which only it reports.
   */
  lemma FixedExtendsGuarded(q: Battery)
    requires Answered(q)
    ensures FixedSummary(EMBA, q).Success?
    ensures var g := Dashboard.GuardedReport(EMBA, q);
      FixedSummary(EMBA, q).data
        == g.(phase2 := g.phase2.(present_students := Field(q.presentAbsentToday.value[0], "present_students"),
                                  absent_students := Field(q.presentAbsentToday.value[0], "absent_students"),
                                  pending_students := Field(q.presentAbsentToday.value[0], "pending_students")),
              phase1 := g.phase1.(area_wise_applications := q.areaWise.value))
  {
  }
}
