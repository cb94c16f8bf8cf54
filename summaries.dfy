/**
 * The per-program dashboard report of routes/dashboard.js and
 * routes/dashboard-fixed.js (PhD, EPhD and EMBA share one shape), the
 * battery of single-row aggregate queries it is filled from, and the
 * attendance aggregates those queries compute.
 */
module Summaries {
  import opened Common

  datatype Program = PGP | PhD | EPhD | EMBA
  {
    /** The program's name as the handlers write it in messages and in `programStats`. */
    function Name(): string
    {
      match this
      case PGP => "PGP"
      case PhD => "PhD"
      case EPhD => "EPhD"
      case EMBA => "EMBA"
    }
  }

  /** One row of the area-wise breakdown (`GROUP BY research_area` / `specialization_area`). */
  datatype AreaRow = AreaRow(area: Option<string>, application_count: nat)

  datatype Phase3 = Phase3(commitment_fee_paid: int)

  datatype Phase2 = Phase2(
    today_total_slots: int,
    today_total_students: int,
    present_students: int,
    absent_students: int,
    pending_students: int,
    total_slots: int,
    total_students: int,
    total_present: int,
    total_absent: int,
    total_pending: int)

  datatype Phase1 = Phase1(
    total_registrations: int,
    total_applications: int,
    submitted_applications: int,
    area_wise_applications: seq<AreaRow>)

  /** `data` of `/phd-summary`, `/ephd-summary` and `/emba-summary`. */
  datatype ProgramReport = ProgramReport(phase3: Phase3, phase2: Phase2, phase1: Phase1)

  /** The object a guarded handler declares before running any query: every count 0, no areas. */
  const DefaultReport: ProgramReport :=
    ProgramReport(
      Phase3(0),
      Phase2(0, 0, 0, 0, 0, 0, 0, 0, 0, 0),
      Phase1(0, 0, 0, []))

  /** Every numeric leaf of the report is at least 0. */
  predicate LeavesNonNegative(r: ProgramReport)
  {
    && r.phase3.commitment_fee_paid >= 0
    && r.phase2.today_total_slots >= 0 && r.phase2.today_total_students >= 0
    && r.phase2.present_students >= 0 && r.phase2.absent_students >= 0 && r.phase2.pending_students >= 0
    && r.phase2.total_slots >= 0 && r.phase2.total_students >= 0
    && r.phase2.total_present >= 0 && r.phase2.total_absent >= 0 && r.phase2.total_pending >= 0
    && r.phase1.total_registrations >= 0 && r.phase1.total_applications >= 0 && r.phase1.submitted_applications >= 0
  }

  /**
   * The answers to the queries a program summary issues, in the order the
   * handlers of routes/dashboard-fixed.js run them. The guarded handlers of
   * routes/dashboard.js issue a subset (see there).
   */
  datatype Battery = Battery(
    commitmentFee: DbResult<seq<Record>>,
    slotsToday: DbResult<seq<Record>>,
    studentsToday: DbResult<seq<Record>>,
    presentAbsentToday: DbResult<seq<Record>>,
    totalSlots: DbResult<seq<Record>>,
    totalStudents: DbResult<seq<Record>>,
    registrations: DbResult<seq<Record>>,
    applications: DbResult<seq<Record>>,
    areaWise: DbResult<seq<AreaRow>>)

  /** Every single-row answer the battery holds only non-negative counts. */
  predicate BatteryNonNegative(q: Battery)
  {
    && RowsNonNegative(q.commitmentFee) && RowsNonNegative(q.slotsToday) && RowsNonNegative(q.studentsToday)
    && RowsNonNegative(q.presentAbsentToday) && RowsNonNegative(q.totalSlots) && RowsNonNegative(q.totalStudents)
    && RowsNonNegative(q.registrations) && RowsNonNegative(q.applications)
  }

  predicate RowsNonNegative(r: DbResult<seq<Record>>)
  {
    r.Ok? ==> forall k :: 0 <= k < |r.value| ==> NonNegative(r.value[k])
  }

  /** `row.name || 0` of the first row of a successful answer is never negative when its counts are not. */
  lemma FieldNonNegative(r: DbResult<seq<Record>>, name: string)
    requires RowsNonNegative(r) && FirstRow(r).Some?
    ensures Field(FirstRow(r).value, name) >= 0
  {
    var row := FirstRow(r).value;
    assert NonNegative(r.value[0]);
    if name in row && row[name].Some? {
      assert row[name].value >= 0;
    }
  }

  // ---------------------------------------------------------------------
  // Attendance: what the slot-student aggregates count

  /** How many entries of a column equal v: what `COUNT(CASE WHEN col = v THEN 1 END)` counts. */
  function CountEq<T(==)>(values: seq<T>, v: T): nat
  {
    if values == [] then 0 else (if values[0] == v then 1 else 0) + CountEq(values[1..], v)
  }

  /**
   * The row of `SELECT COUNT(*) AS total_students, COUNT(CASE WHEN attendance = 1 ...) ...`
   * over the nullable integer `attendance` column of the PhD and EPhD
   * slot-student tables (1 present, 0 absent, NULL pending; any other
   * integer is possible in the column).
   */
  function AttendanceTotals(values: seq<Option<int>>): (row: Record)
    ensures "total_students" in row && row["total_students"] == Some(|values|)
    ensures "total_present" in row && "total_absent" in row && "total_pending" in row
  {
    map["total_students" := Some(|values|),
        "total_present" := Some(CountEq(values, Some(1))),
        "total_absent" := Some(CountEq(values, Some(0))),
        "total_pending" := Some(CountEq(values, None))]
  }

  /**
   * The `status` column of the EMBA slot-student table:
   * ENUM('pending', 'present', 'absent') DEFAULT 'pending', nullable.
   */
  datatype SlotStatus = Pending | Present | Absent

  /** The same row over the EMBA `status` column; a NULL status matches none of the three cases. */
  function StatusTotals(statuses: seq<Option<SlotStatus>>): (row: Record)
    ensures "total_students" in row && row["total_students"] == Some(|statuses|)
    ensures "total_present" in row && "total_absent" in row && "total_pending" in row
  {
    map["total_students" := Some(|statuses|),
        "total_present" := Some(CountEq(statuses, Some(Present))),
        "total_absent" := Some(CountEq(statuses, Some(Absent))),
        "total_pending" := Some(CountEq(statuses, Some(Pending)))]
  }

  /** Three distinct values are counted at most once per entry. */
  lemma {:induction false} CountsAtMost<T>(values: seq<T>, a: T, b: T, c: T)
    requires a != b && a != c && b != c
    ensures CountEq(values, a) + CountEq(values, b) + CountEq(values, c) <= |values|
  {
    if values != [] {
      CountsAtMost(values[1..], a, b, c);
    }
  }

  /** When every entry is one of three distinct values, their counts account for every entry. */
  lemma {:induction false} CountsBalanced<T>(values: seq<T>, a: T, b: T, c: T)
    requires a != b && a != c && b != c
    requires forall k :: 0 <= k < |values| ==> values[k] == a || values[k] == b || values[k] == c
    ensures CountEq(values, a) + CountEq(values, b) + CountEq(values, c) == |values|
  {
    if values != [] {
      CountsBalanced(values[1..], a, b, c);
    }
  }

  /** One entry outside the three values makes their counts fall short of the number of entries. */
  lemma {:induction false} CountsFallShort<T>(values: seq<T>, a: T, b: T, c: T, k: nat)
    requires a != b && a != c && b != c
    requires k < |values| && values[k] != a && values[k] != b && values[k] != c
    ensures CountEq(values, a) + CountEq(values, b) + CountEq(values, c) < |values|
  {
    if k == 0 {
      CountsAtMost(values[1..], a, b, c);
    } else {
      CountsFallShort(values[1..], a, b, c, k - 1);
    }
  }

  /** With every marker 1, 0 or NULL, present + absent + pending accounts for every student. */
  lemma AttendanceBalanced(values: seq<Option<int>>)
    requires forall k :: 0 <= k < |values| ==> values[k] == Some(1) || values[k] == Some(0) || values[k] == None
    ensures CountEq(values, Some(1)) + CountEq(values, Some(0)) + CountEq(values, None) == |values|
  {
    CountsBalanced(values, Some(1), Some(0), None);
  }

  /** A marker other than 1, 0 and NULL is counted nowhere, so the three counts fall short. */
  lemma AttendanceCanFallShort(values: seq<Option<int>>, k: nat)
    requires k < |values| && values[k] != Some(1) && values[k] != Some(0) && values[k] != None
    ensures CountEq(values, Some(1)) + CountEq(values, Some(0)) + CountEq(values, None) < |values|
  {
    CountsFallShort(values, Some(1), Some(0), None, k);
  }

  /** With no NULL status, the three enum counts account for every student. */
  lemma StatusBalanced(statuses: seq<Option<SlotStatus>>)
    requires forall k :: 0 <= k < |statuses| ==> statuses[k].Some?
    ensures CountEq(statuses, Some(Present)) + CountEq(statuses, Some(Absent)) + CountEq(statuses, Some(Pending)) == |statuses|
  {
    forall k | 0 <= k < |statuses|
      ensures statuses[k] == Some(Present) || statuses[k] == Some(Absent) || statuses[k] == Some(Pending)
    {
      assert statuses[k] == Some(statuses[k].value);
      assert statuses[k].value.Present? || statuses[k].value.Absent? || statuses[k].value.Pending?;
    }
    CountsBalanced(statuses, Some(Present), Some(Absent), Some(Pending));
  }

  /** A NULL status is counted by none of the three cases, so the counts fall short of the total. */
  lemma StatusCanFallShort(statuses: seq<Option<SlotStatus>>, k: nat)
    requires k < |statuses| && statuses[k].None?
    ensures CountEq(statuses, Some(Present)) + CountEq(statuses, Some(Absent)) + CountEq(statuses, Some(Pending)) < |statuses|
  {
    CountsFallShort(statuses, Some(Present), Some(Absent), Some(Pending), k);
  }
}
