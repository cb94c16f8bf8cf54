/**
 * routes/dashboard.js: the overview route, the unguarded PGP summary, the
 * guarded PhD/EPhD/EMBA summaries that start from an all-zero report and
 * overwrite only the fields whose query answered, and the home summary that
 * adds up per-program counts and rounds percentages.
 */
module Dashboard {
  import opened Common
  import opened Summaries
  import Overview

  // ---------------------------------------------------------------------
  // GET /overview

  /** The overview route: the pivot of the rows with 200, or 500 with the driver's message. */
  method OverviewRoute(result: DbResult<seq<Overview.OverviewRow>>) returns (resp: Response<seq<Overview.Course>>)
    ensures result.Ok? ==> resp == Success(200, Overview.OverviewOf(result.value))
    ensures result.Err? ==> resp == Failure(500, "Error fetching dashboard data", Some(result.message))
  {
    match result {
      case Ok(rows) =>
        var data := Overview.BuildOverview(rows);
        resp := Success(200, data);
      case Err(_, message) =>
        resp := Failure(500, "Error fetching dashboard data", Some(message));
    }
  }

  // ---------------------------------------------------------------------
  // GET /pgp-summary (identical in routes/dashboard-fixed.js)

  /** The twelve single-row queries of the PGP summary, in the order the handler awaits them. */
  datatype PgpQueries = PgpQueries(
    acceptReject: DbResult<seq<Record>>,
    fees: DbResult<seq<Record>>,
    acceptanceForms: DbResult<seq<Record>>,
    withdrawals: DbResult<seq<Record>>,
    slots: DbResult<seq<Record>>,
    studentsToday: DbResult<seq<Record>>,
    presentAbsent: DbResult<seq<Record>>,
    consent: DbResult<seq<Record>>,
    verification: DbResult<seq<Record>>,
    phase1: DbResult<seq<Record>>,
    registered: DbResult<seq<Record>>,
    shortlisted: DbResult<seq<Record>>)

  datatype PgpPhase3 = PgpPhase3(
    total_accepted: Option<int>,
    total_rejected: Option<int>,
    commitment_fee_paid: Option<int>,
    term_fee_paid: Option<int>,
    acceptance_form_submitted: Option<int>)
  datatype PgpWithdrawals = PgpWithdrawals(total_withdrawals: Option<int>)
  datatype PgpPhase2b = PgpPhase2b(
    today_total_slots: Option<int>,
    today_total_students: Option<int>,
    present_students: Option<int>,
    absent_students: Option<int>)
  datatype PgpPhase2a = PgpPhase2a(total_consent_requests: Option<int>, total_consent_checks: Option<int>)
  datatype PgpVerification = PgpVerification(reopen: Option<int>, resubmitted: Option<int>, auto_submitted: Option<int>)
  datatype PgpPhase1 = PgpPhase1(
    form_submitted: Option<int>,
    total_applications: Option<int>,
    reopened: Option<int>,
    resubmitted: Option<int>,
    not_resubmitted: Option<int>,
    registered_students: Option<int>,
    shortlisted_students: Option<int>)

  /** `data` of `/pgp-summary`: the columns as the driver returned them, NULL included. */
  datatype PgpReport = PgpReport(
    phase3: PgpPhase3,
    withdrawals: PgpWithdrawals,
    phase2b: PgpPhase2b,
    phase2a: PgpPhase2a,
    verificationDetails: PgpVerification,
    phase1: PgpPhase1)

  /** Every PGP query answered with at least one row. */
  predicate PgpAnswered(q: PgpQueries)
  {
    && FirstRow(q.acceptReject).Some? && FirstRow(q.fees).Some? && FirstRow(q.acceptanceForms).Some?
    && FirstRow(q.withdrawals).Some? && FirstRow(q.slots).Some? && FirstRow(q.studentsToday).Some?
    && FirstRow(q.presentAbsent).Some? && FirstRow(q.consent).Some? && FirstRow(q.verification).Some?
    && FirstRow(q.phase1).Some? && FirstRow(q.registered).Some? && FirstRow(q.shortlisted).Some?
  }

  /** `row.name` of the first row of an answered query, without `|| 0`. */
  function Leaf(r: DbResult<seq<Record>>, name: string): Option<int>
    requires FirstRow(r).Some?
  {
    Raw(FirstRow(r).value, name)
  }

  /**
   * The PGP summary: no query is guarded, so one failed or empty answer
   * turns the whole route into a 500 without an `error` field; otherwise
   * every leaf is the column of its query's first row, unnormalised.
   */
  function PgpSummary(q: PgpQueries): (resp: Response<PgpReport>)
    ensures resp.Success? <==> PgpAnswered(q)
    ensures !PgpAnswered(q) ==> resp == Failure(500, "Error fetching PGP dashboard data", None)
    ensures resp.Success? ==> resp.status == 200
    ensures resp.Success? ==>
      && resp.data.phase3.commitment_fee_paid == Raw(q.fees.value[0], "commitment_fee_paid")
      && resp.data.phase2b.present_students == Raw(q.presentAbsent.value[0], "present_students")
      && resp.data.phase1.shortlisted_students == Raw(q.shortlisted.value[0], "shortlisted_students")
  {
    if !PgpAnswered(q) then Failure(500, "Error fetching PGP dashboard data", None)
    else
      Success(200, PgpReport(
        PgpPhase3(
          Leaf(q.acceptReject, "total_accepted"),
          Leaf(q.acceptReject, "total_rejected"),
          Leaf(q.fees, "commitment_fee_paid"),
          Leaf(q.fees, "term_fee_paid"),
          Leaf(q.acceptanceForms, "acceptance_form_submitted")),
        PgpWithdrawals(Leaf(q.withdrawals, "total_withdrawals")),
        PgpPhase2b(
          Leaf(q.slots, "today_total_slots"),
          Leaf(q.studentsToday, "today_total_students"),
          Leaf(q.presentAbsent, "present_students"),
          Leaf(q.presentAbsent, "absent_students")),
        PgpPhase2a(
          Leaf(q.consent, "total_consent_requests"),
          Leaf(q.consent, "total_consent_checks")),
        PgpVerification(
          Leaf(q.verification, "reopen"),
          Leaf(q.verification, "resubmitted"),
          Leaf(q.verification, "auto_submitted")),
        PgpPhase1(
          Leaf(q.phase1, "form_submitted"),
          Leaf(q.phase1, "total_applications"),
          Leaf(q.phase1, "reopened"),
          Leaf(q.phase1, "resubmitted"),
          Leaf(q.phase1, "not_resubmitted"),
          Leaf(q.registered, "registered_students"),
          Leaf(q.shortlisted, "shortlisted_students"))))
  }

  /**
   * A SUM over an empty table is NULL, and the PGP summary passes it on as
   * null rather than 0: nothing in the route normalises.
   */
  lemma PgpNullPassesThrough(q: PgpQueries)
    requires PgpAnswered(q)
    requires FirstRow(q.fees).value == map["commitment_fee_paid" := None, "term_fee_paid" := None]
    ensures PgpSummary(q).Success?
    ensures PgpSummary(q).data.phase3.commitment_fee_paid.None?
    ensures PgpSummary(q).data.phase3.term_fee_paid.None?
  {
  }

  /** A single failing query, wherever it sits, fails the whole PGP route. */
  lemma PgpOneFailureFailsAll(q: PgpQueries, code: string, message: string)
    ensures PgpSummary(q.(withdrawals := Err(code, message))) == Failure(500, "Error fetching PGP dashboard data", None)
    ensures PgpSummary(q.(shortlisted := Err(code, message))).Failure?
  {
  }

  // ---------------------------------------------------------------------
  // GET /phd-summary, /ephd-summary, /emba-summary (guarded)

  /** `x.name || 0` from a guarded query that answered, else the default 0 left in place. */
  function Guarded(r: DbResult<seq<Record>>, name: string): (v: int)
    ensures FirstRow(r).None? ==> v == 0
    ensures FirstRow(r).Some? ==> v == Field(r.value[0], name)
  {
    match FirstRow(r)
    case None => 0
    case Some(row) => Field(row, name)
  }

  /**
   * What the guarded handler of `program` reports. PhD and EPhD read the
   * commitment-fee, today's-slots, total-slots, total-students,
   * registrations and applications queries; EMBA also reads today's
   * students and the present/absent/pending totals. Everything else keeps
   * its default.
   */
  function GuardedReport(program: Program, q: Battery): (r: ProgramReport)
    requires program != PGP
    ensures r.phase1.area_wise_applications == []
    ensures r.phase2.present_students == 0 && r.phase2.absent_students == 0 && r.phase2.pending_students == 0
    ensures program != EMBA ==>
      && r.phase2.today_total_students == 0
      && r.phase2.total_present == 0 && r.phase2.total_absent == 0 && r.phase2.total_pending == 0
  {
    var emba := program == EMBA;
    ProgramReport(
      Phase3(Guarded(q.commitmentFee, "commitment_fee_paid")),
      Phase2(
        Guarded(q.slotsToday, "today_total_slots"),
        if emba then Guarded(q.studentsToday, "today_total_students") else 0,
        0, 0, 0,
        Guarded(q.totalSlots, "total_slots"),
        Guarded(q.totalStudents, "total_students"),
        if emba then Guarded(q.totalStudents, "total_present") else 0,
        if emba then Guarded(q.totalStudents, "total_absent") else 0,
        if emba then Guarded(q.totalStudents, "total_pending") else 0),
      Phase1(
        Guarded(q.registrations, "total_registrations"),
        Guarded(q.applications, "total_applications"),
        Guarded(q.applications, "submitted_applications"),
        []))
  }

  /**
   * The guarded handler: declare the default report, then for each query in
   * turn overwrite its fields when it answered. The handler always answers 200.
   */
  method GuardedSummary(program: Program, q: Battery) returns (resp: Response<ProgramReport>)
    requires program != PGP
    ensures resp == Success(200, GuardedReport(program, q))
  {
    var data := DefaultReport;
    data := GuardedPhase3(program, q, data);
    data := GuardedPhase2(program, q, data);
    data := GuardedPhase1(program, q, data);
    resp := Success(200, data);
  }

  /** The commitment-fee query of a guarded handler. */
  method GuardedPhase3(program: Program, q: Battery, data: ProgramReport) returns (data': ProgramReport)
    requires program != PGP
    requires data.phase3 == DefaultReport.phase3
    ensures data' == data.(phase3 := GuardedReport(program, q).phase3)
  {
    data' := data;
    match FirstRow(q.commitmentFee) {
      case Some(row) => data' := data'.(phase3 := data'.phase3.(commitment_fee_paid := Field(row, "commitment_fee_paid")));
      case None =>
    }
  }

  /** The slot and student queries of a guarded handler, in the order it runs them. */
  method GuardedPhase2(program: Program, q: Battery, data: ProgramReport) returns (data': ProgramReport)
    requires program != PGP
    requires data.phase2 == DefaultReport.phase2
    ensures data' == data.(phase2 := GuardedReport(program, q).phase2)
  {
    data' := data;
    match FirstRow(q.slotsToday) {
      case Some(row) => data' := data'.(phase2 := data'.phase2.(today_total_slots := Field(row, "today_total_slots")));
      case None =>
    }
    match FirstRow(q.totalSlots) {
      case Some(row) => data' := data'.(phase2 := data'.phase2.(total_slots := Field(row, "total_slots")));
      case None =>
    }
    if program == EMBA {
      match FirstRow(q.studentsToday) {
        case Some(row) => data' := data'.(phase2 := data'.phase2.(today_total_students := Field(row, "today_total_students")));
        case None =>
      }
    }
    match FirstRow(q.totalStudents) {
      case Some(row) =>
        data' := data'.(phase2 := data'.phase2.(total_students := Field(row, "total_students")));
        if program == EMBA {
          data' := data'.(phase2 := data'.phase2.(total_present := Field(row, "total_present")));
          data' := data'.(phase2 := data'.phase2.(total_absent := Field(row, "total_absent")));
          data' := data'.(phase2 := data'.phase2.(total_pending := Field(row, "total_pending")));
        }
      case None =>
    }
  }

  /** The registration and application queries of a guarded handler. */
  method GuardedPhase1(program: Program, q: Battery, data: ProgramReport) returns (data': ProgramReport)
    requires program != PGP
    requires data.phase1 == DefaultReport.phase1
    ensures data' == data.(phase1 := GuardedReport(program, q).phase1)
  {
    data' := data;
    match FirstRow(q.registrations) {
      case Some(row) => data' := data'.(phase1 := data'.phase1.(total_registrations := Field(row, "total_registrations")));
      case None =>
    }
    match FirstRow(q.applications) {
      case Some(row) =>
        data' := data'.(phase1 := data'.phase1.(total_applications := Field(row, "total_applications")));
        data' := data'.(phase1 := data'.phase1.(submitted_applications := Field(row, "submitted_applications")));
      case None =>
    }
  }

  /** The queries a guarded handler may read, each guarded by its own try/catch. */
  datatype GuardedQuery = CommitmentFee | SlotsToday | TotalSlots | StudentsToday | TotalStudents | Registrations | Applications

  /** The battery with query k answering with a driver error. */
  function Fail(q: Battery, k: GuardedQuery, code: string, message: string): Battery
  {
    var e := Err(code, message);
    match k
    case CommitmentFee => q.(commitmentFee := e)
    case SlotsToday => q.(slotsToday := e)
    case TotalSlots => q.(totalSlots := e)
    case StudentsToday => q.(studentsToday := e)
    case TotalStudents => q.(totalStudents := e)
    case Registrations => q.(registrations := e)
    case Applications => q.(applications := e)
  }

  /** The report with the fields query k fills put back to their default 0. */
  function Reset(r: ProgramReport, k: GuardedQuery): ProgramReport
  {
    match k
    case CommitmentFee => r.(phase3 := r.phase3.(commitment_fee_paid := 0))
    case SlotsToday => r.(phase2 := r.phase2.(today_total_slots := 0))
    case TotalSlots => r.(phase2 := r.phase2.(total_slots := 0))
    case StudentsToday => r.(phase2 := r.phase2.(today_total_students := 0))
    case TotalStudents => r.(phase2 := r.phase2.(total_students := 0, total_present := 0, total_absent := 0, total_pending := 0))
    case Registrations => r.(phase1 := r.phase1.(total_registrations := 0))
    case Applications => r.(phase1 := r.phase1.(total_applications := 0, submitted_applications := 0))
  }

  /**
   * Isolation: when one guarded query fails, exactly its own fields stay at
   * their default and every other field is what it would have been.
   */
  lemma GuardedIsolation(program: Program, q: Battery, k: GuardedQuery, code: string, message: string)
    requires program != PGP
    ensures GuardedReport(program, Fail(q, k, code, message)) == Reset(GuardedReport(program, q), k)
  {
  }

  /** With every query failing, the route still answers 200, with the declared default report. */
  lemma GuardedAllFailed(program: Program, q: Battery)
    requires program != PGP
    requires FirstRow(q.commitmentFee).None? && FirstRow(q.slotsToday).None? && FirstRow(q.totalSlots).None?
    requires FirstRow(q.studentsToday).None? && FirstRow(q.totalStudents).None?
    requires FirstRow(q.registrations).None? && FirstRow(q.applications).None?
    ensures GuardedReport(program, q) == DefaultReport
  {
  }

  /** Counts that are never negative give a report whose every leaf is a non-negative integer. */
  lemma GuardedNonNegative(program: Program, q: Battery)
    requires program != PGP
    requires BatteryNonNegative(q)
    ensures LeavesNonNegative(GuardedReport(program, q))
  {
    GuardedLeaf(q.commitmentFee, "commitment_fee_paid");
    GuardedLeaf(q.slotsToday, "today_total_slots");
    GuardedLeaf(q.studentsToday, "today_total_students");
    GuardedLeaf(q.totalSlots, "total_slots");
    GuardedLeaf(q.totalStudents, "total_students");
    GuardedLeaf(q.totalStudents, "total_present");
    GuardedLeaf(q.totalStudents, "total_absent");
    GuardedLeaf(q.totalStudents, "total_pending");
    GuardedLeaf(q.registrations, "total_registrations");
    GuardedLeaf(q.applications, "total_applications");
    GuardedLeaf(q.applications, "submitted_applications");
  }

  lemma GuardedLeaf(r: DbResult<seq<Record>>, name: string)
    requires RowsNonNegative(r)
    ensures Guarded(r, name) >= 0
  {
    if FirstRow(r).Some? {
      FieldNonNegative(r, name);
    }
  }

  /**
   * The EMBA totals come from the status-enum aggregate, so whenever that
   * query answered over statuses none of which is NULL,
   * present + absent + pending = total_students.
   */
  lemma GuardedEmbaBalanced(q: Battery, statuses: seq<Option<SlotStatus>>)
    requires q.totalStudents == Ok([StatusTotals(statuses)])
    requires forall k :: 0 <= k < |statuses| ==> statuses[k].Some?
    ensures var r := GuardedReport(EMBA, q);
      r.phase2.total_present + r.phase2.total_absent + r.phase2.total_pending == r.phase2.total_students
  {
    StatusBalanced(statuses);
  }

  /** The status column is nullable: one NULL status leaves the served EMBA counts short of the total. */
  lemma GuardedEmbaNullFallsShort(q: Battery, statuses: seq<Option<SlotStatus>>, k: nat)
    requires q.totalStudents == Ok([StatusTotals(statuses)])
    requires k < |statuses| && statuses[k].None?
    ensures var r := GuardedReport(EMBA, q);
      r.phase2.total_present + r.phase2.total_absent + r.phase2.total_pending < r.phase2.total_students
  {
    StatusCanFallShort(statuses, k);
  }

  // ---------------------------------------------------------------------
  // GET /home-summary

  /** The per-program query of the home summary, one per program, in the order run. */
  datatype HomeQueries = HomeQueries(
    pgp: DbResult<seq<Record>>,
    phd: DbResult<seq<Record>>,
    ephd: DbResult<seq<Record>>,
    emba: DbResult<seq<Record>>)

  datatype ProgramStat = ProgramStat(program: string, applications: int, admitted: int, under_review: int)

  /** `{ ...program, percentage }`. */
  datatype ProgramShare = ProgramShare(program: string, applications: int, admitted: int, under_review: int, percentage: int)

  datatype QuickStats = QuickStats(totalApplications: int, totalAdmitted: int, totalUnderReview: int)

  datatype HomeSummary = HomeSummary(quickStats: QuickStats, programStats: seq<ProgramShare>)

  /** The entry a program whose query answered contributes. */
  function StatOf(p: Program, row: Record): ProgramStat
  {
    ProgramStat(p.Name(), Field(row, "total_applications"), Field(row, "admitted"), Field(row, "under_review"))
  }

  /** `[StatOf]` when the program's query answered, nothing when it failed. */
  function Contribution(p: Program, r: DbResult<seq<Record>>): (s: seq<ProgramStat>)
    ensures |s| <= 1
    ensures |s| == 1 <==> FirstRow(r).Some?
  {
    match FirstRow(r)
    case None => []
    case Some(row) => [StatOf(p, row)]
  }

  /** The `programStats` the handler pushes: the answered programs in the order PGP, PhD, EPhD, EMBA. */
  function Stats(q: HomeQueries): seq<ProgramStat>
  {
    Contribution(PGP, q.pgp) + Contribution(PhD, q.phd) + Contribution(EPhD, q.ephd) + Contribution(EMBA, q.emba)
  }

  function SumApplications(s: seq<ProgramStat>): int
  {
    if s == [] then 0 else SumApplications(s[..|s| - 1]) + s[|s| - 1].applications
  }

  function SumAdmitted(s: seq<ProgramStat>): int
  {
    if s == [] then 0 else SumAdmitted(s[..|s| - 1]) + s[|s| - 1].admitted
  }

  function SumUnderReview(s: seq<ProgramStat>): int
  {
    if s == [] then 0 else SumUnderReview(s[..|s| - 1]) + s[|s| - 1].under_review
  }

  /**
   * One guarded program block: when its query answered, add its counts to
   * the three running totals and push its entry; otherwise change nothing.
   */
  method AddProgram(p: Program, r: DbResult<seq<Record>>,
                    apps: int, admitted: int, review: int, stats: seq<ProgramStat>)
    returns (apps': int, admitted': int, review': int, stats': seq<ProgramStat>)
    ensures stats' == stats + Contribution(p, r)
    ensures apps' - apps == SumApplications(stats') - SumApplications(stats)
    ensures admitted' - admitted == SumAdmitted(stats') - SumAdmitted(stats)
    ensures review' - review == SumUnderReview(stats') - SumUnderReview(stats)
  {
    apps', admitted', review', stats' := apps, admitted, review, stats;
    match FirstRow(r) {
      case Some(row) =>
        apps' := apps' + Field(row, "total_applications");
        admitted' := admitted' + Field(row, "admitted");
        review' := review' + Field(row, "under_review");
        stats' := stats' + [StatOf(p, row)];
        assert stats'[..|stats'| - 1] == stats;
      case None =>
        assert stats + [] == stats;
    }
  }

  /**
   * `Math.round(applications / total * 100)` when total > 0, else 0, over
   * exact rationals: the nearest integer, halves rounded up.
   */
  function Percentage(applications: int, total: int): (pct: int)
    ensures total <= 0 ==> pct == 0
    ensures total > 0 ==> 2 * total * pct - total <= 200 * applications < 2 * total * pct + total
  {
    if total > 0 then (200 * applications + total) / (2 * total) else 0
  }

  /** A share of a non-negative total lies between 0 and 100 percent. */
  lemma PercentageBounds(applications: int, total: int)
    requires 0 <= applications <= total
    ensures 0 <= Percentage(applications, total) <= 100
  {
    if total > 0 {
      var n, d := 200 * applications + total, 2 * total;
      var pct := Percentage(applications, total);
      assert pct == n / d;
      assert 0 <= n;
      assert n < d * 101 by {
        assert 200 * applications <= 200 * total;
      }
      QuotientBelow(n, d, 101);
    }
  }

  /** A non-negative numerator below d * m gives a quotient in [0, m). */
  lemma QuotientBelow(n: int, d: int, m: int)
    requires 0 <= n && 0 < d && n < d * m
    ensures 0 <= n / d < m
  {
    var qt, rm := n / d, n % d;
    assert n == d * qt + rm && 0 <= rm < d;
  }

  /** The `map` adding a percentage to every entry, in the same order. */
  function WithPercentages(stats: seq<ProgramStat>, total: int): (shares: seq<ProgramShare>)
    ensures |shares| == |stats|
    ensures forall k :: 0 <= k < |stats| ==>
      var s := stats[k];
      shares[k] == ProgramShare(s.program, s.applications, s.admitted, s.under_review, Percentage(s.applications, total))
  {
    if stats == [] then []
    else
      var s := stats[0];
      [ProgramShare(s.program, s.applications, s.admitted, s.under_review, Percentage(s.applications, total))]
        + WithPercentages(stats[1..], total)
  }

  /**
   * The home summary: four guarded blocks accumulate totals and entries, then
   * percentages are added. The totals equal the sums over the entries.
   */
  method HomeSummaryRoute(q: HomeQueries) returns (resp: Response<HomeSummary>)
    ensures resp.Success? && resp.status == 200
    ensures resp.data.quickStats == QuickStats(SumApplications(Stats(q)), SumAdmitted(Stats(q)), SumUnderReview(Stats(q)))
    ensures resp.data.programStats == WithPercentages(Stats(q), SumApplications(Stats(q)))
  {
    var totalApplications, totalAdmitted, totalUnderReview := 0, 0, 0;
    var programStats: seq<ProgramStat> := [];
    totalApplications, totalAdmitted, totalUnderReview, programStats :=
      AddProgram(PGP, q.pgp, totalApplications, totalAdmitted, totalUnderReview, programStats);
    totalApplications, totalAdmitted, totalUnderReview, programStats :=
      AddProgram(PhD, q.phd, totalApplications, totalAdmitted, totalUnderReview, programStats);
    totalApplications, totalAdmitted, totalUnderReview, programStats :=
      AddProgram(EPhD, q.ephd, totalApplications, totalAdmitted, totalUnderReview, programStats);
    totalApplications, totalAdmitted, totalUnderReview, programStats :=
      AddProgram(EMBA, q.emba, totalApplications, totalAdmitted, totalUnderReview, programStats);
    assert [] + Contribution(PGP, q.pgp) == Contribution(PGP, q.pgp);
    var shares := WithPercentages(programStats, totalApplications);
    resp := Success(200, HomeSummary(QuickStats(totalApplications, totalAdmitted, totalUnderReview), shares));
  }

  /** A program appears in `programStats` exactly when its query answered. */
  lemma StatsPrograms(q: HomeQueries)
    ensures (exists k :: 0 <= k < |Stats(q)| && Stats(q)[k].program == "PGP") <==> FirstRow(q.pgp).Some?
    ensures (exists k :: 0 <= k < |Stats(q)| && Stats(q)[k].program == "PhD") <==> FirstRow(q.phd).Some?
    ensures (exists k :: 0 <= k < |Stats(q)| && Stats(q)[k].program == "EPhD") <==> FirstRow(q.ephd).Some?
    ensures (exists k :: 0 <= k < |Stats(q)| && Stats(q)[k].program == "EMBA") <==> FirstRow(q.emba).Some?
    ensures |Stats(q)| == (if FirstRow(q.pgp).Some? then 1 else 0) + (if FirstRow(q.phd).Some? then 1 else 0)
                        + (if FirstRow(q.ephd).Some? then 1 else 0) + (if FirstRow(q.emba).Some? then 1 else 0)
  {
    var a, b, c, d := Contribution(PGP, q.pgp), Contribution(PhD, q.phd), Contribution(EPhD, q.ephd), Contribution(EMBA, q.emba);
    var s := Stats(q);
    assert s == a + b + c + d;
    if FirstRow(q.pgp).Some? {
      assert s[0] == a[0];
    }
    if FirstRow(q.phd).Some? {
      assert s[|a|] == b[0];
    }
    if FirstRow(q.ephd).Some? {
      assert s[|a| + |b|] == c[0];
    }
    if FirstRow(q.emba).Some? {
      assert s[|s| - 1] == d[0];
    }
    forall k | 0 <= k < |s|
      ensures && (s[k].program == "PGP" ==> a != []) && (s[k].program == "PhD" ==> b != [])
              && (s[k].program == "EPhD" ==> c != []) && (s[k].program == "EMBA" ==> d != [])
    {
      if k < |a| {
        assert s[k] == a[k];
      } else if k < |a| + |b| {
        assert s[k] == b[k - |a|];
      } else if k < |a| + |b| + |c| {
        assert s[k] == c[k - |a| - |b|];
      } else {
        assert s[k] == d[k - |a| - |b| - |c|];
      }
    }
  }

  /** Every count non-negative: each entry's share of the total lies in [0, 100]. */
  lemma HomePercentagesInRange(q: HomeQueries)
    requires RowsNonNegative(q.pgp) && RowsNonNegative(q.phd) && RowsNonNegative(q.ephd) && RowsNonNegative(q.emba)
    ensures forall k :: 0 <= k < |Stats(q)| ==>
      0 <= WithPercentages(Stats(q), SumApplications(Stats(q)))[k].percentage <= 100
  {
    var s := Stats(q);
    StatsNonNegative(q);
    forall k | 0 <= k < |s|
      ensures 0 <= Percentage(s[k].applications, SumApplications(s)) <= 100
    {
      SumBoundsElement(s, k);
      PercentageBounds(s[k].applications, SumApplications(s));
    }
  }

  predicate ApplicationsNonNegative(s: seq<ProgramStat>)
  {
    forall k :: 0 <= k < |s| ==> s[k].applications >= 0
  }

  lemma StatsNonNegative(q: HomeQueries)
    requires RowsNonNegative(q.pgp) && RowsNonNegative(q.phd) && RowsNonNegative(q.ephd) && RowsNonNegative(q.emba)
    ensures ApplicationsNonNegative(Stats(q))
  {
    ContributionNonNegative(PGP, q.pgp);
    ContributionNonNegative(PhD, q.phd);
    ContributionNonNegative(EPhD, q.ephd);
    ContributionNonNegative(EMBA, q.emba);
  }

  lemma ContributionNonNegative(p: Program, r: DbResult<seq<Record>>)
    requires RowsNonNegative(r)
    ensures ApplicationsNonNegative(Contribution(p, r))
  {
    if FirstRow(r).Some? {
      FieldNonNegative(r, "total_applications");
    }
  }

  /** With non-negative entries, each entry is at most the sum. */
  lemma {:induction false} SumBoundsElement(s: seq<ProgramStat>, k: nat)
    requires ApplicationsNonNegative(s) && k < |s|
    ensures 0 <= s[k].applications <= SumApplications(s)
  {
    var init := s[..|s| - 1];
    assert ApplicationsNonNegative(init) by {
      forall j | 0 <= j < |init| ensures init[j].applications >= 0 { assert init[j] == s[j]; }
    }
    SumNonNegative(init);
    if k < |s| - 1 {
      SumBoundsElement(init, k);
      assert init[k] == s[k];
    }
  }

  lemma {:induction false} SumNonNegative(s: seq<ProgramStat>)
    requires ApplicationsNonNegative(s)
    ensures SumApplications(s) >= 0
  {
    if s != [] {
      var init := s[..|s| - 1];
      assert ApplicationsNonNegative(init) by {
        forall j | 0 <= j < |init| ensures init[j].applications >= 0 { assert init[j] == s[j]; }
      }
      SumNonNegative(init);
    }
  }
}
