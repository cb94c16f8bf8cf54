/**
 * The `/overview` pivot, written identically in routes/dashboard.js and
 * routes/dashboard-fixed.js: flat rows of the course/phase/progress join,
 * visited in query order, are folded into one entry per course, each with
 * its phases and, per phase, a fixed list of seven named metrics.
 */
module Overview {
  import opened Common

  /** One row of the overview join. Columns of the outer-joined phase may be NULL. */
  datatype OverviewRow = OverviewRow(
    course_code: string,
    course_name: string,
    phase_name: Option<string>,
    phase_order: Option<int>,
    commitment_fee: Option<int>,
    total_enrolled: nat,
    not_started_count: nat,
    in_progress_count: nat,
    completed_count: nat,
    verification_pending_count: nat,
    verified_count: nat,
    avg_progress_percentage: Option<int>)

  datatype Metric = Metric(metric_name: string, value: int)
  datatype Phase = Phase(phase_name: string, phase_order: Option<int>, statistics: seq<Metric>)
  datatype Course = Course(course_code: string, course_name: string, total_enrolled: nat, phases: seq<Phase>)

  /** The metric names of every phase, in the order they are listed. */
  const MetricNames: seq<string> :=
    ["Commitment Fee", "Not Started", "In Progress", "Completed", "Verification Pending", "Verified", "Average Progress %"]

  /** `if (row.phase_name)`: the phase name is neither NULL nor empty. */
  predicate HasPhase(row: OverviewRow)
  {
    row.phase_name.Some? && row.phase_name.value != ""
  }

  /** The phase entry pushed for a row that has a phase. */
  function PhaseOf(row: OverviewRow): (p: Phase)
    requires HasPhase(row)
    ensures p.phase_name == row.phase_name.value && p.phase_order == row.phase_order
    ensures |p.statistics| == |MetricNames|
    ensures forall k :: 0 <= k < |MetricNames| ==> p.statistics[k].metric_name == MetricNames[k]
    ensures p.statistics[0].value == Or0(row.commitment_fee)
    ensures p.statistics[1].value == row.not_started_count
    ensures p.statistics[2].value == row.in_progress_count
    ensures p.statistics[3].value == row.completed_count
    ensures p.statistics[4].value == row.verification_pending_count
    ensures p.statistics[5].value == row.verified_count
    ensures p.statistics[6].value == Or0(row.avg_progress_percentage)
  {
    Phase(row.phase_name.value, row.phase_order, [
      Metric("Commitment Fee", Or0(row.commitment_fee)),
      Metric("Not Started", row.not_started_count),
      Metric("In Progress", row.in_progress_count),
      Metric("Completed", row.completed_count),
      Metric("Verification Pending", row.verification_pending_count),
      Metric("Verified", row.verified_count),
      Metric("Average Progress %", Or0(row.avg_progress_percentage))
    ])
  }

  // ---------------------------------------------------------------------
  // Specification of the pivot, by the rows seen so far

  /** The distinct course codes of the rows, in order of first appearance. */
  function Codes(rows: seq<OverviewRow>): seq<string>
  {
    if rows == [] then []
    else
      var seen := Codes(rows[..|rows| - 1]);
      var code := rows[|rows| - 1].course_code;
      if code in seen then seen else seen + [code]
  }

  /** The first row whose course code is `code`. */
  function FirstRow(rows: seq<OverviewRow>, code: string): OverviewRow
    requires code in Codes(rows)
  {
    var init := rows[..|rows| - 1];
    if code in Codes(init) then FirstRow(init, code) else rows[|rows| - 1]
  }

  /** The phases of course `code`: one per row of that course that has a phase, in row order. */
  function PhasesOf(rows: seq<OverviewRow>, code: string): seq<Phase>
  {
    if rows == [] then []
    else
      var last := rows[|rows| - 1];
      PhasesOf(rows[..|rows| - 1], code) + (if last.course_code == code && HasPhase(last) then [PhaseOf(last)] else [])
  }

  function CourseOf(rows: seq<OverviewRow>, code: string): Course
    requires code in Codes(rows)
  {
    var first := FirstRow(rows, code);
    Course(code, first.course_name, first.total_enrolled, PhasesOf(rows, code))
  }

  /** `Object.values(courseData)` after all rows: one course per distinct code, in first-seen order. */
  function OverviewOf(rows: seq<OverviewRow>): seq<Course>
  {
    var codes := Codes(rows);
    seq(|codes|, k requires 0 <= k < |codes| => CourseOf(rows, codes[k]))
  }

  // ---------------------------------------------------------------------
  // The pivot loop

  /**
   * `rows.forEach(...)` building `courseData`: a course entry is created the
   * first time its code is seen (with an empty phase list) and a phase is
   * pushed for every row that has one. The JavaScript object is a map plus
   * the order in which its keys were inserted.
   */
  method BuildOverview(rows: seq<OverviewRow>) returns (data: seq<Course>)
    ensures data == OverviewOf(rows)
  {
    var courseData: map<string, Course> := map[];
    var keys: seq<string> := [];
    var i := 0;
    while i < |rows|
      invariant 0 <= i <= |rows|
      invariant Pivoted(courseData, keys, rows[..i])
    {
      assert rows[..i + 1] == rows[..i] + [rows[i]];
      courseData, keys := AddRow(courseData, keys, rows[..i], rows[i]);
      i := i + 1;
    }
    assert rows[..i] == rows;
    data := seq(|keys|, k requires 0 <= k < |keys| => courseData[keys[k]]);
  }

  /** `courseData`, with its keys in insertion order, holds the courses of the rows seen so far. */
  ghost predicate Pivoted(courseData: map<string, Course>, keys: seq<string>, seen: seq<OverviewRow>)
  {
    && keys == Codes(seen)
    && (forall c :: c in courseData <==> c in keys)
    && (forall c :: c in courseData ==> courseData[c] == CourseOf(seen, c))
  }

  /** The body of the `forEach` for one row: create the course on first sight, push the row's phase if it has one. */
  method AddRow(courseData: map<string, Course>, keys: seq<string>, ghost seen: seq<OverviewRow>, row: OverviewRow)
    returns (courseData': map<string, Course>, keys': seq<string>)
    requires Pivoted(courseData, keys, seen)
    ensures Pivoted(courseData', keys', seen + [row])
  {
    courseData', keys' := courseData, keys;
    if row.course_code !in courseData' {
      courseData' := courseData'[row.course_code := Course(row.course_code, row.course_name, row.total_enrolled, [])];
      keys' := keys' + [row.course_code];
    }
    if HasPhase(row) {
      var course := courseData'[row.course_code];
      courseData' := courseData'[row.course_code := course.(phases := course.phases + [PhaseOf(row)])];
    }
    AddRowSound(courseData, keys, seen, row, courseData', keys');
  }

  /** The entry of `row`'s course before its phase is pushed: the existing one, or a new one with no phases. */
  function Entry(courseData: map<string, Course>, row: OverviewRow): Course
  {
    if row.course_code in courseData then courseData[row.course_code]
    else Course(row.course_code, row.course_name, row.total_enrolled, [])
  }

  /** Any update that creates the row's course when absent and pushes its phase keeps the pivot invariant. */
  lemma AddRowSound(courseData: map<string, Course>, keys: seq<string>, seen: seq<OverviewRow>, row: OverviewRow,
                    courseData': map<string, Course>, keys': seq<string>)
    requires Pivoted(courseData, keys, seen)
    requires keys' == if row.course_code in courseData then keys else keys + [row.course_code]
    requires courseData'.Keys == courseData.Keys + {row.course_code}
    requires forall c :: c in courseData && c != row.course_code ==> courseData'[c] == courseData[c]
    requires courseData'[row.course_code]
      == Entry(courseData, row).(phases := Entry(courseData, row).phases + (if HasPhase(row) then [PhaseOf(row)] else []))
    ensures Pivoted(courseData', keys', seen + [row])
  {
    var s' := seen + [row];
    assert s'[..|s'| - 1] == seen;
    assert keys' == Codes(s');
    forall c | c in courseData' ensures courseData'[c] == CourseOf(s', c) {
      CourseOfSnoc(seen, row, c);
    }
  }

  /** How one more row changes a course entry: a new course starts from this row, a known one only gains a phase. */
  lemma CourseOfSnoc(seen: seq<OverviewRow>, row: OverviewRow, c: string)
    requires c in Codes(seen) || c == row.course_code
    ensures c in Codes(seen + [row])
    ensures c in Codes(seen) ==>
              CourseOf(seen + [row], c)
              == CourseOf(seen, c).(phases := CourseOf(seen, c).phases + (if row.course_code == c && HasPhase(row) then [PhaseOf(row)] else []))
    ensures c !in Codes(seen) ==>
              CourseOf(seen + [row], c)
              == Course(c, row.course_name, row.total_enrolled, if HasPhase(row) then [PhaseOf(row)] else [])
  {
    var s' := seen + [row];
    assert s'[..|s'| - 1] == seen;
    if c !in Codes(seen) {
      CodesMembers(seen);
      PhasesOfAbsent(seen, c);
    }
  }

  lemma {:induction false} PhasesOfAbsent(rows: seq<OverviewRow>, c: string)
    requires forall q :: 0 <= q < |rows| ==> rows[q].course_code != c
    ensures PhasesOf(rows, c) == []
  {
    if rows != [] {
      PhasesOfAbsent(rows[..|rows| - 1], c);
    }
  }

  // ---------------------------------------------------------------------
  // What the pivot promises

  /** Some row carries course code c. */
  ghost predicate Occurs(rows: seq<OverviewRow>, c: string)
  {
    exists q :: 0 <= q < |rows| && rows[q].course_code == c
  }

  /** Some entry of the overview is for course code c. */
  ghost predicate Listed(data: seq<Course>, c: string)
  {
    exists k :: 0 <= k < |data| && data[k].course_code == c
  }

  /** A code is listed exactly when some row carries it. */
  lemma {:induction false} CodesMembers(rows: seq<OverviewRow>)
    ensures forall c :: c in Codes(rows) <==> exists k :: 0 <= k < |rows| && rows[k].course_code == c
  {
    if rows != [] {
      var init := rows[..|rows| - 1];
      CodesMembers(init);
      forall c | c in Codes(rows) ensures exists k :: 0 <= k < |rows| && rows[k].course_code == c {
        if c in Codes(init) {
          var k :| 0 <= k < |init| && init[k].course_code == c;
          assert rows[k] == init[k];
        }
      }
      forall c | exists k :: 0 <= k < |rows| && rows[k].course_code == c ensures c in Codes(rows) {
        var k :| 0 <= k < |rows| && rows[k].course_code == c;
        if k < |init| {
          assert init[k] == rows[k];
        }
      }
    }
  }

  /** No course code is listed twice. */
  lemma {:induction false} CodesDistinct(rows: seq<OverviewRow>)
    ensures forall i, j :: 0 <= i < j < |Codes(rows)| ==> Codes(rows)[i] != Codes(rows)[j]
  {
    if rows != [] {
      CodesDistinct(rows[..|rows| - 1]);
    }
  }

  /** The first row of a course: its code matches and no earlier row carries that code. */
  lemma {:induction false} FirstRowIsFirst(rows: seq<OverviewRow>, code: string)
    requires code in Codes(rows)
    ensures exists k :: 0 <= k < |rows| && rows[k] == FirstRow(rows, code) && rows[k].course_code == code
                      && forall j :: 0 <= j < k ==> rows[j].course_code != code
  {
    var init := rows[..|rows| - 1];
    if code in Codes(init) {
      FirstRowIsFirst(init, code);
      var k :| 0 <= k < |init| && init[k] == FirstRow(init, code) && init[k].course_code == code
               && forall j :: 0 <= j < k ==> init[j].course_code != code;
      assert rows[k] == init[k];
      assert forall j :: 0 <= j < k ==> rows[j] == init[j];
    } else {
      CodesMembers(init);
      assert forall j :: 0 <= j < |init| ==> rows[j] == init[j];
    }
  }

  /** Codes are listed in order of their first appearance among the rows. */
  lemma {:induction false} CodesFirstSeenOrder(rows: seq<OverviewRow>, i: nat, j: nat, q: nat)
    requires i < j < |Codes(rows)|
    requires q < |rows| && rows[q].course_code == Codes(rows)[j]
    ensures exists p :: 0 <= p < q && rows[p].course_code == Codes(rows)[i]
  {
    var init := rows[..|rows| - 1];
    var seen := Codes(init);
    CodesMembers(init);
    if q == |rows| - 1 {
      // the code at j is either already in init (then its earlier row would do) or new at the end
      if Codes(rows)[j] in seen {
        var q' :| 0 <= q' < |init| && init[q'].course_code == Codes(rows)[j];
        assert rows[q'] == init[q'];
        CodesFirstSeenOrder(rows, i, j, q');
      } else {
        assert Codes(rows)[i] in seen;
        var p :| 0 <= p < |init| && init[p].course_code == Codes(rows)[i];
        assert rows[p] == init[p];
      }
    } else {
      assert init[q] == rows[q];
      assert Codes(rows)[j] in seen;
      CodesDistinct(rows);
      assert Codes(rows)[..|seen|] == seen;
      CodesFirstSeenOrder(init, i, j, q);
      var p :| 0 <= p < q && init[p].course_code == seen[i];
      assert rows[p] == init[p];
    }
  }

  /** The phases of a course are exactly the phase rows of that course, in order. */
  lemma {:induction false} PhasesOfMembers(rows: seq<OverviewRow>, code: string)
    ensures forall p :: p in PhasesOf(rows, code) <==>
              exists k :: 0 <= k < |rows| && rows[k].course_code == code && HasPhase(rows[k]) && p == PhaseOf(rows[k])
  {
    if rows != [] {
      var init := rows[..|rows| - 1];
      PhasesOfMembers(init, code);
      assert forall k :: 0 <= k < |init| ==> rows[k] == init[k];
    }
  }

  /** The overview lists a course exactly when some row carries its code. */
  lemma OverviewCoversCodes(rows: seq<OverviewRow>)
    ensures forall c :: Listed(OverviewOf(rows), c) <==> Occurs(rows, c)
  {
    var data := OverviewOf(rows);
    var codes := Codes(rows);
    CodesMembers(rows);
    forall c ensures Listed(data, c) <==> Occurs(rows, c) {
      if Occurs(rows, c) {
        assert c in codes;
        var k :| 0 <= k < |codes| && codes[k] == c;
        assert data[k].course_code == c;
      }
      if Listed(data, c) {
        var k :| 0 <= k < |data| && data[k].course_code == c;
        assert codes[k] in codes;
      }
    }
  }

  /** No course is listed twice. */
  lemma OverviewNoDuplicates(rows: seq<OverviewRow>)
    ensures forall i, j :: 0 <= i < j < |OverviewOf(rows)| ==> OverviewOf(rows)[i].course_code != OverviewOf(rows)[j].course_code
  {
    CodesDistinct(rows);
  }

  /**
   * An entry's name and enrolment come from the first row of its course;
   * later rows of the course never overwrite them.
   */
  lemma OverviewFirstRowWins(rows: seq<OverviewRow>, k: nat)
    requires k < |OverviewOf(rows)|
    ensures exists q :: 0 <= q < |rows| && rows[q].course_code == OverviewOf(rows)[k].course_code
              && OverviewOf(rows)[k].course_name == rows[q].course_name
              && OverviewOf(rows)[k].total_enrolled == rows[q].total_enrolled
              && forall j :: 0 <= j < q ==> rows[j].course_code != OverviewOf(rows)[k].course_code
  {
    FirstRowIsFirst(rows, Codes(rows)[k]);
  }

  /**
   * An entry's phases are exactly the phase-carrying rows of its course:
   * a course none of whose rows has a phase gets the empty list.
   */
  lemma OverviewPhases(rows: seq<OverviewRow>, k: nat)
    requires k < |OverviewOf(rows)|
    ensures forall p :: p in OverviewOf(rows)[k].phases <==>
              exists q :: 0 <= q < |rows| && rows[q].course_code == OverviewOf(rows)[k].course_code
                          && HasPhase(rows[q]) && p == PhaseOf(rows[q])
    ensures (forall q :: 0 <= q < |rows| && rows[q].course_code == OverviewOf(rows)[k].course_code ==> !HasPhase(rows[q]))
              ==> OverviewOf(rows)[k].phases == []
  {
    var phases := OverviewOf(rows)[k].phases;
    PhasesOfMembers(rows, Codes(rows)[k]);
    if phases != [] {
      assert phases[0] in phases;
    }
  }

  /** Entries come in order of first appearance: an entry's code shows up before any row of a later entry. */
  lemma OverviewFirstSeenOrder(rows: seq<OverviewRow>, i: nat, j: nat, q: nat)
    requires i < j < |OverviewOf(rows)|
    requires q < |rows| && rows[q].course_code == OverviewOf(rows)[j].course_code
    ensures exists p :: 0 <= p < q && rows[p].course_code == OverviewOf(rows)[i].course_code
  {
    CodesFirstSeenOrder(rows, i, j, q);
  }

  /** Every phase listed anywhere carries the seven metrics in the fixed order. */
  lemma OverviewMetrics(rows: seq<OverviewRow>)
    ensures forall k, p :: 0 <= k < |OverviewOf(rows)| && p in OverviewOf(rows)[k].phases ==>
              |p.statistics| == 7 && forall m :: 0 <= m < 7 ==> p.statistics[m].metric_name == MetricNames[m]
  {
    var codes := Codes(rows);
    forall k, p | 0 <= k < |OverviewOf(rows)| && p in OverviewOf(rows)[k].phases
      ensures |p.statistics| == 7 && forall m :: 0 <= m < 7 ==> p.statistics[m].metric_name == MetricNames[m]
    {
      PhasesOfMembers(rows, codes[k]);
    }
  }
}
