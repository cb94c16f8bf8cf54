/**
 * routes/notifications.js: the recent-activities feed and the
 * important-dates list. Each collects rows group by group, falls back to
 * three fixed entries when no group produced any, sorts (newest activity
 * first, earliest date first), keeps the first 5 or 8, and labels each
 * activity with its relative time. Times are milliseconds since the epoch;
 * `now` is a parameter.
 */
module Notifications {
  import opened Common
  import opened Text
  import opened Sorting
  import SafeQuery

  // ---------------------------------------------------------------------
  // getTimeAgo

  datatype TimeUnit = Day | Hour | Minute
  {
    function Name(): string
    {
      match this
      case Day => "day"
      case Hour => "hour"
      case Minute => "minute"
    }
  }

  /** The count shown, its unit, and whether the unit takes a plural "s". */
  datatype Elapsed = Elapsed(count: int, unit: TimeUnit, plural: bool)

  /**
   * `getTimeAgo`'s arithmetic on `diffInMs = now - date`: whole days if
   * there is at least one, else whole hours if there is at least one, else
   * whole minutes but never fewer than 1. A time in the future shows as one
   * minute. Dafny's `/` by a positive divisor rounds down, as `Math.floor`.
   */
  function ElapsedOf(diffMs: int): (e: Elapsed)
    ensures e.count >= 1
    ensures e.plural <==> e.count > 1
    ensures e.unit == Day <==> diffMs >= 86400000
    ensures e.unit == Hour <==> 3600000 <= diffMs < 86400000
    ensures e.unit == Day ==> e.count * 86400000 <= diffMs < (e.count + 1) * 86400000
    ensures e.unit == Hour ==> e.count * 3600000 <= diffMs < (e.count + 1) * 3600000 && e.count < 24
    ensures e.unit == Minute && diffMs >= 120000 ==> e.count * 60000 <= diffMs < (e.count + 1) * 60000
    ensures e.unit == Minute && diffMs < 120000 ==> e.count == 1
    ensures e.unit == Minute ==> e.count < 60
  {
    var hours := diffMs / 3600000;
    var days := hours / 24;
    FloorOfFloor(diffMs);
    if days > 0 then Elapsed(days, Day, days > 1)
    else if hours > 0 then Elapsed(hours, Hour, hours > 1)
    else
      var minutes := diffMs / 60000;
      Elapsed(if minutes > 1 then minutes else 1, Minute, minutes > 1)
  }

  /** Whole days counted from whole hours are whole days counted from milliseconds. */
  lemma FloorOfFloor(ms: int)
    ensures (ms / 3600000) / 24 == ms / 86400000
    ensures (ms / 3600000) * 3600000 <= ms < (ms / 3600000 + 1) * 3600000
    ensures (ms / 86400000) * 86400000 <= ms < (ms / 86400000 + 1) * 86400000
    ensures (ms / 60000) * 60000 <= ms < (ms / 60000 + 1) * 60000
  {
    var h := ms / 3600000;
    var d := h / 24;
    assert ms == h * 3600000 + ms % 3600000;
    assert h == d * 24 + h % 24;
    assert ms == d * 86400000 + ((h % 24) * 3600000 + ms % 3600000);
    assert 0 <= (h % 24) * 3600000 + ms % 3600000 < 86400000;
  }

  /** `getTimeAgo`: `${count} ${unit}${plural ? "s" : ""} ago`. */
  function TimeAgo(diffMs: int): (text: string)
  {
    Label(ElapsedOf(diffMs))
  }

  function Label(e: Elapsed): string
    requires e.count >= 0
  {
    NatToString(e.count) + " " + Suffix(e)
  }

  /** What follows the count in a label: unit, plural "s" and " ago". */
  function Suffix(e: Elapsed): string
  {
    e.unit.Name() + (if e.plural then "s" else "") + " ago"
  }

  /** The unit a suffix names, read off its first letter. */
  function UnitOf(c: char): TimeUnit
  {
    if c == 'd' then Day else if c == 'h' then Hour else Minute
  }

  /** The first letter of a suffix names its unit, and its length then tells the plural. */
  lemma SuffixShape(e: Elapsed)
    ensures UnitOf(Suffix(e)[0]) == e.unit
    ensures |Suffix(e)| == |e.unit.Name()| + (if e.plural then 1 else 0) + 4
  {
  }

  /** The label tells the unit and the plural apart: no two suffixes coincide. */
  lemma SuffixInjective(e1: Elapsed, e2: Elapsed)
    requires Suffix(e1) == Suffix(e2)
    ensures e1.unit == e2.unit && e1.plural == e2.plural
  {
    SuffixShape(e1);
    SuffixShape(e2);
  }

  /** Two counts followed by a space agree when the texts do. */
  lemma {:induction false} CountPrefix(a: nat, b: nat, r1: string, r2: string)
    requires NatToString(a) + " " + r1 == NatToString(b) + " " + r2
    ensures a == b && r1 == r2
  {
    var n1, n2 := NatToString(a), NatToString(b);
    var t := n1 + " " + r1;
    // the first space of t comes right after either rendering's digits
    assert t[|n1|] == ' ' && t[|n2|] == ' ';
    assert forall k :: 0 <= k < |n1| ==> t[k] == n1[k] && IsDigit(n1[k]);
    assert forall k :: 0 <= k < |n2| ==> t[k] == n2[k] && IsDigit(n2[k]);
    assert |n1| == |n2|;
    assert n1 == t[..|n1|] == n2;
    NatToStringInjective(a, b);
    assert r1 == t[|n1| + 1..] == r2;
  }

  /** The label determines what it shows: equal labels mean equal count, unit and plural. */
  lemma TimeAgoDistinguishes(d1: int, d2: int)
    requires TimeAgo(d1) == TimeAgo(d2)
    ensures ElapsedOf(d1) == ElapsedOf(d2)
  {
    LabelInjective(ElapsedOf(d1), ElapsedOf(d2));
  }

  lemma LabelInjective(e1: Elapsed, e2: Elapsed)
    requires e1.count >= 0 && e2.count >= 0
    requires Label(e1) == Label(e2)
    ensures e1 == e2
  {
    CountPrefix(e1.count, e2.count, Suffix(e1), Suffix(e2));
    SuffixInjective(e1, e2);
  }

  // ---------------------------------------------------------------------
  // GET /recent-activities

  /** A row of the PGP or PhD application query. */
  datatype ApplicationRow = ApplicationRow(activity_type: string, program: string, activity_time: int)

  /** A row of the verification or slot query: a day's group with its size. */
  datatype GroupRow = GroupRow(activity_type: string, program: string, activity_time: int, count: nat)

  /** A feed entry; the fixed entries have no time, the database ones get a label only after the sort. */
  datatype Activity = Activity(title: string, description: string, time: Option<int>, timeAgo: Option<string>, icon: string, color: string)

  const FallbackActivities: seq<Activity> := [
    Activity("New Application Received", "PGP - Computer Science", None, Some("2 hours ago"), "checkmark-circle", "#4CAF50"),
    Activity("Document Verification", "PhD - 5 Applications", None, Some("3 hours ago"), "document-text", "#2196F3"),
    Activity("Interview Slots Booked", "EMBA - 8 Students", None, Some("5 hours ago"), "calendar", "#FF9800")
  ]

  /** PGP and PhD applications: the row's type as title, "<program> - New Application". */
  function Applications(rows: seq<ApplicationRow>): (acts: seq<Activity>)
    ensures |acts| == |rows|
    ensures forall k :: 0 <= k < |rows| ==>
      acts[k] == Activity(rows[k].activity_type, rows[k].program + " - New Application",
                          Some(rows[k].activity_time), None, "checkmark-circle", "#4CAF50")
  {
    seq(|rows|, k requires 0 <= k < |rows| =>
      Activity(rows[k].activity_type, rows[k].program + " - New Application",
               Some(rows[k].activity_time), None, "checkmark-circle", "#4CAF50"))
  }

  /** The two grouped activity kinds: document verifications and slot bookings. */
  datatype GroupKind = Verification | SlotBooking
  {
    function Title(): string
    {
      match this
      case Verification => "Document Verification"
      case SlotBooking => "Interview Slots Booked"
    }

    /** What the count in the description counts. */
    function Noun(): string
    {
      match this
      case Verification => "Applications"
      case SlotBooking => "Students"
    }

    function IconName(): string
    {
      match this
      case Verification => "document-text"
      case SlotBooking => "calendar"
    }

    function Colour(): string
    {
      match this
      case Verification => "#2196F3"
      case SlotBooking => "#FF9800"
    }
  }

  /** A grouped row: the kind's title, "<program> - <count> <noun>", the group's latest time. */
  function Grouped(kind: GroupKind, rows: seq<GroupRow>): (acts: seq<Activity>)
    ensures |acts| == |rows|
    ensures forall k :: 0 <= k < |rows| ==>
      acts[k] == Activity(kind.Title(), rows[k].program + " - " + NatToString(rows[k].count) + " " + kind.Noun(),
                          Some(rows[k].activity_time), None, kind.IconName(), kind.Colour())
  {
    seq(|rows|, k requires 0 <= k < |rows| =>
      Activity(kind.Title(), rows[k].program + " - " + NatToString(rows[k].count) + " " + kind.Noun(),
               Some(rows[k].activity_time), None, kind.IconName(), kind.Colour()))
  }

  /** What the four best-effort queries contribute, in the order they are concatenated. */
  function Collected(pgp: DbResult<seq<ApplicationRow>>, phd: DbResult<seq<ApplicationRow>>,
                     verification: DbResult<seq<GroupRow>>, slots: DbResult<seq<GroupRow>>): (acts: seq<Activity>)
    ensures |acts| == |SafeQuery.Run(pgp)| + |SafeQuery.Run(phd)| + |SafeQuery.Run(verification)| + |SafeQuery.Run(slots)|
    ensures forall k :: 0 <= k < |acts| ==> acts[k].time.Some? && acts[k].timeAgo.None?
  {
    Applications(SafeQuery.Run(pgp)) + Applications(SafeQuery.Run(phd))
      + Grouped(Verification, SafeQuery.Run(verification)) + Grouped(SlotBooking, SafeQuery.Run(slots))
  }

  /** The sort key of `new Date(b.time) - new Date(a.time)`: later times first. */
  function NewestFirst(a: Activity): int
  {
    -Or0(a.time)
  }

  /** Each entry labelled with `getTimeAgo` of its time. */
  function Stamp(now: int, acts: seq<Activity>): (r: seq<Activity>)
    ensures |r| == |acts|
    ensures forall k :: 0 <= k < |acts| ==> r[k] == acts[k].(timeAgo := Some(TimeAgo(now - Or0(acts[k].time))))
  {
    seq(|acts|, k requires 0 <= k < |acts| => acts[k].(timeAgo := Some(TimeAgo(now - Or0(acts[k].time)))))
  }

  /**
   * The handler: concatenate the four groups, fall back when none produced a
   * row, otherwise sort newest first, keep five and label them.
   */
  method RecentActivities(now: int, pgp: DbResult<seq<ApplicationRow>>, phd: DbResult<seq<ApplicationRow>>,
                          verification: DbResult<seq<GroupRow>>, slots: DbResult<seq<GroupRow>>)
    returns (resp: Response<seq<Activity>>)
    ensures resp.Success? && resp.status == 200
    ensures Collected(pgp, phd, verification, slots) == [] ==> resp.data == FallbackActivities
    ensures Collected(pgp, phd, verification, slots) != [] ==>
      resp.data == Stamp(now, Take(SortBy(Collected(pgp, phd, verification, slots), NewestFirst), 5))
  {
    var activities: seq<Activity> := [];
    activities := activities + Applications(SafeQuery.Run(pgp));
    assert activities == Applications(SafeQuery.Run(pgp));
    activities := activities + Applications(SafeQuery.Run(phd));
    activities := activities + Grouped(Verification, SafeQuery.Run(verification));
    activities := activities + Grouped(SlotBooking, SafeQuery.Run(slots));
    if |activities| == 0 {
      activities := FallbackActivities;
    } else {
      activities := SortBy(activities, NewestFirst);
      activities := Take(activities, 5);
      activities := Stamp(now, activities);
    }
    resp := Success(200, activities);
  }

  /** A failed query contributes nothing and the others still contribute; only when all are empty is the fallback served. */
  lemma FailedActivityGroupIsSkipped(pgp: DbResult<seq<ApplicationRow>>, phd: DbResult<seq<ApplicationRow>>,
                                     verification: DbResult<seq<GroupRow>>, slots: DbResult<seq<GroupRow>>, code: string, message: string)
    ensures Collected(Err(code, message), phd, verification, slots) == Collected(Ok([]), phd, verification, slots)
    ensures Collected(pgp, phd, verification, Err(code, message))
      == Applications(SafeQuery.Run(pgp)) + Applications(SafeQuery.Run(phd)) + Grouped(Verification, SafeQuery.Run(verification))
  {
  }

  /** A served entry without its label. */
  function Unlabelled(a: Activity): Activity
  {
    a.(timeAgo := None)
  }

  /**
   * When a group produced rows, at most five are served, each with a real
   * time, so the label `Stamp` gives it is that of its own time.
   */
  lemma FeedIsLabelled(now: int, collected: seq<Activity>)
    requires collected != []
    requires forall k :: 0 <= k < |collected| ==> collected[k].time.Some?
    ensures var feed := Stamp(now, Take(SortBy(collected, NewestFirst), 5));
      && |feed| == (if |collected| < 5 then |collected| else 5)
      && (forall k :: 0 <= k < |feed| ==> feed[k].time.Some?)
  {
    var top := Take(SortBy(collected, NewestFirst), 5);
    TopOfSort(collected, 5, NewestFirst);
    forall k | 0 <= k < |top| ensures top[k].time.Some? {
      assert top[k] in collected;
    }
  }

  /** Every served entry is a collected one with a label added. */
  lemma FeedIsCollected(now: int, collected: seq<Activity>)
    requires collected != []
    requires forall k :: 0 <= k < |collected| ==> collected[k].timeAgo.None?
    ensures var feed := Stamp(now, Take(SortBy(collected, NewestFirst), 5));
      forall k :: 0 <= k < |feed| ==> Unlabelled(feed[k]) in collected
  {
    var top := Take(SortBy(collected, NewestFirst), 5);
    TopOfSort(collected, 5, NewestFirst);
    var feed := Stamp(now, top);
    forall k | 0 <= k < |feed| ensures Unlabelled(feed[k]) in collected {
      assert top[k] in collected;
      assert Unlabelled(feed[k]) == top[k];
    }
  }

  /** The served feed is newest first, and no collected entry left out is newer than the last one served. */
  lemma FeedIsNewestFirst(now: int, collected: seq<Activity>)
    requires collected != []
    ensures var top := Take(SortBy(collected, NewestFirst), 5);
      var feed := Stamp(now, top);
      && (forall i, j :: 0 <= i < j < |feed| ==> Or0(feed[j].time) <= Or0(feed[i].time))
      && (forall x :: x in multiset(collected) - multiset(top) ==> Or0(x.time) <= Or0(feed[|feed| - 1].time))
  {
    var top := Take(SortBy(collected, NewestFirst), 5);
    TopOfSort(collected, 5, NewestFirst);
    StampedNewestFirst(now, top);
    StampedLastIsOldest(now, collected, top);
  }

  /** Labelling a list sorted newest first keeps it newest first. */
  lemma StampedNewestFirst(now: int, top: seq<Activity>)
    requires SortedBy(top, NewestFirst)
    ensures var feed := Stamp(now, top);
      forall i, j :: 0 <= i < j < |feed| ==> Or0(feed[j].time) <= Or0(feed[i].time)
  {
    var feed := Stamp(now, top);
    forall i, j | 0 <= i < j < |feed| ensures Or0(feed[j].time) <= Or0(feed[i].time) {
      assert feed[i].time == top[i].time && feed[j].time == top[j].time;
      assert NewestFirst(top[i]) <= NewestFirst(top[j]);
    }
  }

  /** Nothing outside the kept entries is newer than the last of them, once labelled. */
  lemma StampedLastIsOldest(now: int, collected: seq<Activity>, top: seq<Activity>)
    requires top != []
    requires forall x :: x in multiset(collected) - multiset(top) ==> NewestFirst(top[|top| - 1]) <= NewestFirst(x)
    ensures var feed := Stamp(now, top);
      forall x :: x in multiset(collected) - multiset(top) ==> Or0(x.time) <= Or0(feed[|feed| - 1].time)
  {
    var feed := Stamp(now, top);
    assert feed[|feed| - 1].time == top[|top| - 1].time;
  }

  // ---------------------------------------------------------------------
  // GET /important-dates

  /** A row of a calendar query. */
  datatype CalendarRow = CalendarRow(event_date: int, event_type: string, program: string, announcement_no: Option<int>, category: string)

  /** A row of the upcoming-slots query. */
  datatype SlotDateRow = SlotDateRow(event_date: int, event_type: string, program: string, slot_count: nat, category: string)

  datatype ImportantDate = ImportantDate(title: string, date: int, description: string, icon: string, color: string, category: string)

  /** Midnight UTC of 2025-03-15, 2025-03-20 and 2025-03-25. */
  const Mar15: int := 1741996800000
  const Mar20: int := 1742428800000
  const Mar25: int := 1742860800000

  const FallbackDates: seq<ImportantDate> := [
    ImportantDate("Application Deadline - PGP", Mar15, "Final date for application submission", "calendar", "#8e2a6b", "deadline"),
    ImportantDate("Admission Committee Meeting", Mar20, "Review of all applications", "school", "#8e2a6b", "meeting"),
    ImportantDate("Document Verification", Mar25, "Final document verification process", "document-text", "#8e2a6b", "verification")
  ]

  /** `${announcement_no}`: a NULL column renders as "null". */
  function Rendered(n: Option<int>): string
  {
    match n
    case None => "null"
    case Some(v) => IntToString(v)
  }

  /** The calendar each group reads; it decides the icon and colour. */
  datatype Calendar = PgpCalendar | PhdCalendar | InterviewCalendar

  /** PGP: "card" for fees, else "calendar"; PhD: "card" for fees, else "school"; interviews: "people". */
  function Icon(calendar: Calendar, category: string): (icon: string)
    ensures calendar != InterviewCalendar ==> (icon == "card" <==> category == "fee")
    ensures calendar == PgpCalendar && category != "fee" ==> icon == "calendar"
    ensures calendar == PhdCalendar && category != "fee" ==> icon == "school"
    ensures calendar == InterviewCalendar ==> icon == "people"
  {
    match calendar
    case PgpCalendar => if category == "fee" then "card" else "calendar"
    case PhdCalendar => if category == "fee" then "card" else "school"
    case InterviewCalendar => "people"
  }

  function Color(calendar: Calendar): string
  {
    match calendar
    case PgpCalendar => "#8e2a6b"
    case PhdCalendar => "#2196F3"
    case InterviewCalendar => "#FF9800"
  }

  /** One calendar row as an entry; interview titles omit the program. */
  function CalendarEntry(calendar: Calendar, row: CalendarRow): (d: ImportantDate)
    ensures d.date == row.event_date && d.category == row.category
    ensures d.icon == Icon(calendar, row.category) && d.color == Color(calendar)
    ensures d.description == "Announcement #" + Rendered(row.announcement_no)
    ensures d.title == if calendar == InterviewCalendar then row.event_type else row.event_type + " - " + row.program
  {
    ImportantDate(
      if calendar == InterviewCalendar then row.event_type else row.event_type + " - " + row.program,
      row.event_date, "Announcement #" + Rendered(row.announcement_no),
      Icon(calendar, row.category), Color(calendar), row.category)
  }

  /**
   * A calendar group: its queries run one after another inside one `try`,
   * and their rows are mapped only after the last one answered, so a single
   * failure drops the whole group.
   */
  function CalendarGroup(calendar: Calendar, queries: seq<DbResult<seq<CalendarRow>>>): (dates: seq<ImportantDate>)
    ensures (exists k :: 0 <= k < |queries| && queries[k].Err?) ==> dates == []
    ensures (forall k :: 0 <= k < |queries| ==> queries[k].Ok?) ==> |dates| == RowCount(queries)
    ensures forall k :: 0 <= k < |dates| ==> dates[k].color == Color(calendar)
    ensures (forall k :: 0 <= k < |queries| ==> queries[k].Ok?) ==>
      forall k :: 0 <= k < |dates| ==> dates[k] == CalendarEntry(calendar, AllRows(queries)[k])
  {
    if exists k :: 0 <= k < |queries| && queries[k].Err? then []
    else
      var rows := AllRows(queries);
      seq(|rows|, k requires 0 <= k < |rows| => CalendarEntry(calendar, rows[k]))
  }

  /** `[...first, ...second, ...]` of the answered queries. */
  function AllRows(queries: seq<DbResult<seq<CalendarRow>>>): (rows: seq<CalendarRow>)
    requires forall k :: 0 <= k < |queries| ==> queries[k].Ok?
    ensures |rows| == RowCount(queries)
  {
    if queries == [] then [] else queries[0].value + AllRows(queries[1..])
  }

  function RowCount(queries: seq<DbResult<seq<CalendarRow>>>): nat
    requires forall k :: 0 <= k < |queries| ==> queries[k].Ok?
  {
    if queries == [] then 0 else |queries[0].value| + RowCount(queries[1..])
  }

  /** Upcoming slot days: "<count> slots available", a green calendar icon. */
  function SlotDates(slots: DbResult<seq<SlotDateRow>>): (dates: seq<ImportantDate>)
    ensures slots.Err? ==> dates == []
    ensures slots.Ok? ==> |dates| == |slots.value|
    ensures slots.Ok? ==> forall k :: 0 <= k < |dates| ==>
        dates[k] == ImportantDate(slots.value[k].event_type + " - " + slots.value[k].program, slots.value[k].event_date,
                                  NatToString(slots.value[k].slot_count) + " slots available", "calendar", "#4CAF50",
                                  slots.value[k].category)
  {
    match slots
    case Err(_, _) => []
    case Ok(rows) =>
      seq(|rows|, k requires 0 <= k < |rows| =>
        ImportantDate(rows[k].event_type + " - " + rows[k].program, rows[k].event_date,
                      NatToString(rows[k].slot_count) + " slots available", "calendar", "#4CAF50", rows[k].category))
  }

  /** The driver's answers to the eight queries: three PGP, two PhD, two interview, one slot query. */
  datatype DateQueries = DateQueries(
    pgp: seq<DbResult<seq<CalendarRow>>>,
    phd: seq<DbResult<seq<CalendarRow>>>,
    interview: seq<DbResult<seq<CalendarRow>>>,
    slots: DbResult<seq<SlotDateRow>>)

  function Earliest(d: ImportantDate): int
  {
    d.date
  }

  /** What the four groups contribute, in the order they are concatenated. */
  function DateCandidates(q: DateQueries): seq<ImportantDate>
  {
    CalendarGroup(PgpCalendar, q.pgp) + CalendarGroup(PhdCalendar, q.phd)
      + CalendarGroup(InterviewCalendar, q.interview) + SlotDates(q.slots)
  }

  /** The handler: concatenate the groups, fall back when empty, sort by date, keep eight. */
  method ImportantDates(q: DateQueries) returns (resp: Response<seq<ImportantDate>>)
    ensures resp.Success? && resp.status == 200
    ensures DateCandidates(q) == [] ==> resp.data == FallbackDates
    ensures DateCandidates(q) != [] ==> resp.data == Take(SortBy(DateCandidates(q), Earliest), 8)
  {
    var importantDates: seq<ImportantDate> := [];
    importantDates := importantDates + CalendarGroup(PgpCalendar, q.pgp);
    assert importantDates == CalendarGroup(PgpCalendar, q.pgp);
    importantDates := importantDates + CalendarGroup(PhdCalendar, q.phd);
    importantDates := importantDates + CalendarGroup(InterviewCalendar, q.interview);
    importantDates := importantDates + SlotDates(q.slots);
    if |importantDates| == 0 {
      importantDates := FallbackDates;
      FallbackAlreadySorted();
    }
    importantDates := SortBy(importantDates, Earliest);
    importantDates := Take(importantDates, 8);
    resp := Success(200, importantDates);
  }

  /** The fixed dates are already in date order, so the sort leaves them as written. */
  lemma FallbackAlreadySorted()
    ensures Take(SortBy(FallbackDates, Earliest), 8) == FallbackDates
  {
    assert SortedBy(FallbackDates, Earliest);
    SortBySortedIdentity(FallbackDates, Earliest);
  }

  /** The served list: at most eight candidates, in date order, none left out earlier than the last one served. */
  lemma DatesAreEarliestEight(candidates: seq<ImportantDate>)
    requires candidates != []
    ensures var served := Take(SortBy(candidates, Earliest), 8);
      && |served| == (if |candidates| < 8 then |candidates| else 8)
      && (forall k :: 0 <= k < |served| ==> served[k] in candidates)
      && (forall i, j :: 0 <= i < j < |served| ==> served[i].date <= served[j].date)
      && (forall x :: x in multiset(candidates) - multiset(served) ==> served[|served| - 1].date <= x.date)
  {
    var served := Take(SortBy(candidates, Earliest), 8);
    TopOfSort(candidates, 8, Earliest);
    assert SortedBy(served, Earliest);
    assert forall x :: x in multiset(candidates) - multiset(served) ==> Earliest(served[|served| - 1]) <= Earliest(x);
    forall i, j | 0 <= i < j < |served| ensures served[i].date <= served[j].date {
      assert Earliest(served[i]) <= Earliest(served[j]);
    }
    forall x | x in multiset(candidates) - multiset(served) ensures served[|served| - 1].date <= x.date {
      assert Earliest(served[|served| - 1]) <= Earliest(x);
    }
  }

  /** A failing PGP query drops the PGP group while the PhD, interview and slot groups still contribute. */
  lemma FailedCalendarGroupIsSkipped(q: DateQueries, k: nat, code: string, message: string)
    requires k < |q.pgp|
    ensures var failed := q.(pgp := q.pgp[k := Err(code, message)]);
      DateCandidates(failed)
        == CalendarGroup(PhdCalendar, q.phd) + CalendarGroup(InterviewCalendar, q.interview) + SlotDates(q.slots)
  {
    var failed := q.(pgp := q.pgp[k := Err(code, message)]);
    var rest := CalendarGroup(PhdCalendar, q.phd) + CalendarGroup(InterviewCalendar, q.interview) + SlotDates(q.slots);
    assert CalendarGroup(PgpCalendar, failed.pgp) == [] by {
      assert failed.pgp[k].Err?;
    }
    assert DateCandidates(failed) == [] + rest;
  }
}
