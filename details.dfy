/** The equipment Details screen (components/Details.js): the technician filter
    over the equipment's reports, the technician names, the department label,
    the per-month activity chart and the report paging. */
module DetailsView {
  import opened Js
  import Lists
  import Paging

  /** A month index as `Date.prototype.getMonth` returns it. */
  type MonthIndex = m: int | 0 <= m < 12

  /** The parts of a report's `date_time` the screen reads; `None` is an invalid date. */
  datatype ReportDate = ReportDate(year: int, month: MonthIndex)

  datatype Report = Report(technician: Value, activityType: string, date: Option<ReportDate>)

  datatype User = User(id: Value, firstName: Value, lastName: Value)

  /** `equipmentReports` is `None` when it is not an array. */
  function TechnicianFilter(reports: Option<seq<Report>>, selected: string): seq<Report> {
    match reports
    case None => []
    case Some(rs) =>
      if selected == "all" then rs
      else Lists.Filter(rs, (r: Report) => ToText(r.technician) == selected)
  }

  /** 'all' shows every report; any other selection shows, in order, exactly the
      reports whose technician prints as the selection; a non-array shows nothing. */
  lemma TechnicianFilterSpec(reports: Option<seq<Report>>, selected: string)
    ensures reports.None? ==> TechnicianFilter(reports, selected) == []
    ensures reports.Some? && selected == "all" ==> TechnicianFilter(reports, selected) == reports.value
    ensures reports.Some? && selected != "all" ==>
      var r := TechnicianFilter(reports, selected);
      && Lists.Subsequence(r, reports.value)
      && (forall x :: x in r <==> x in reports.value && ToText(x.technician) == selected)
  {
    if reports.Some? && selected != "all" {
      Lists.FilterIsSubsequence(reports.value, (r: Report) => ToText(r.technician) == selected);
    }
  }

  function UnknownName(id: Value): string {
    "Unknown (ID: " + ToText(id) + ")"
  }

  datatype Technician = Technician(id: Value, name: string)

  function TechnicianIds(rs: seq<Report>): seq<Value> {
    seq(|rs|, i requires 0 <= i < |rs| => rs[i].technician)
  }

  function NameFor(users: seq<User>, id: Value): string {
    match Lists.Find(users, (u: User) => u.id == id)
    case Some(u) => ToText(u.firstName) + " " + ToText(u.lastName)
    case None => UnknownName(id)
  }

  /** getUniqueTechnicians; `users` is `None` when it is falsy. */
  function UniqueTechnicians(reports: Option<seq<Report>>, users: Option<seq<User>>): seq<Technician> {
    if reports.None? || users.None? then []
    else
      var ids := Lists.Distinct(TechnicianIds(reports.value));
      seq(|ids|, i requires 0 <= i < |ids| => Technician(ids[i], NameFor(users.value, ids[i])))
  }

  /** One entry per distinct technician id, in first-appearance order, named
      `first last` from the first user with that id (whatever its name fields
      hold), or 'Unknown (ID: id)' when no user has it. */
  lemma UniqueTechniciansSpec(reports: Option<seq<Report>>, users: Option<seq<User>>)
    ensures reports.None? || users.None? ==> UniqueTechnicians(reports, users) == []
    ensures reports.Some? && users.Some? ==>
      var t := UniqueTechnicians(reports, users);
      && (forall i, j :: 0 <= i < j < |t| ==> t[i].id != t[j].id)
      && (forall k :: 0 <= k < |reports.value| ==> exists i :: 0 <= i < |t| && t[i].id == reports.value[k].technician)
      && (forall i :: 0 <= i < |t| ==> t[i].id in TechnicianIds(reports.value))
      && Lists.Keys(t, (x: Technician) => x.id) == Lists.Distinct(TechnicianIds(reports.value))
      && Lists.Subsequence(Lists.Keys(t, (x: Technician) => x.id), TechnicianIds(reports.value))
      && (forall i :: 0 <= i < |t| ==>
            match Lists.Find(users.value, (u: User) => u.id == t[i].id)
            case Some(u) => t[i].name == ToText(u.firstName) + " " + ToText(u.lastName)
            case None => t[i].name == UnknownName(t[i].id))
  {
    if reports.Some? && users.Some? {
      var rs := reports.value;
      var ids := Lists.Distinct(TechnicianIds(rs));
      Lists.DistinctProperties(TechnicianIds(rs));
      var t := UniqueTechnicians(reports, users);
      var keys := Lists.Keys(t, (x: Technician) => x.id);
      assert |keys| == |ids|;
      forall i | 0 <= i < |ids| ensures keys[i] == ids[i] {
        assert t[i].id == ids[i];
      }
      assert keys == ids;
      forall k | 0 <= k < |rs|
        ensures exists i :: 0 <= i < |t| && t[i].id == rs[k].technician
      {
        assert TechnicianIds(rs)[k] == rs[k].technician;
        assert rs[k].technician in ids;
        var i :| 0 <= i < |ids| && ids[i] == rs[k].technician;
        assert t[i].id == rs[k].technician;
      }
    }
  }

  /** getTechnicianName: a full name only when the first user with that id has
      both names set. */
  function TechnicianName(users: Option<seq<User>>, id: Value): (name: string)
    ensures users.None? ==> name == UnknownName(id)
    ensures users.Some? ==>
      match Lists.Find(users.value, (u: User) => u.id == id)
      case Some(u) =>
        (Truthy(u.firstName) && Truthy(u.lastName) ==> name == ToText(u.firstName) + " " + ToText(u.lastName))
        && (!Truthy(u.firstName) || !Truthy(u.lastName) ==> name == UnknownName(id))
      case None => name == UnknownName(id)
  {
    if users.None? then UnknownName(id)
    else match Lists.Find(users.value, (u: User) => u.id == id)
      case Some(u) =>
        if Truthy(u.firstName) && Truthy(u.lastName) then ToText(u.firstName) + " " + ToText(u.lastName)
        else UnknownName(id)
      case None => UnknownName(id)
  }

  /** A user with no match at all is shown as unknown. */
  lemma NoMatchingUserIsUnknown(users: seq<User>, id: Value)
    requires forall k :: 0 <= k < |users| ==> users[k].id != id
    ensures TechnicianName(Some(users), id) == UnknownName(id)
  {
  }

  const DepartmentKeys: seq<string> :=
    ["inpatient", "outpatient", "emergency", "laboratory", "radiology", "pharmacy", "surgery", "icu", "other"]
  const DepartmentLabels: seq<string> :=
    ["Inpatient", "Outpatient", "Emergency", "Laboratory", "Radiology", "Pharmacy", "Surgery", "ICU", "Other"]

  /** formatDepartment: `deptMap[dept] || dept`. */
  function DepartmentLabel(dept: string): (shown: string)
    ensures dept !in DepartmentKeys ==> shown == dept
    ensures forall k :: 0 <= k < |DepartmentKeys| && dept == DepartmentKeys[k] ==> shown == DepartmentLabels[k]
  {
    if dept == "inpatient" then "Inpatient"
    else if dept == "outpatient" then "Outpatient"
    else if dept == "emergency" then "Emergency"
    else if dept == "laboratory" then "Laboratory"
    else if dept == "radiology" then "Radiology"
    else if dept == "pharmacy" then "Pharmacy"
    else if dept == "surgery" then "Surgery"
    else if dept == "icu" then "ICU"
    else if dept == "other" then "Other"
    else dept
  }

  // ----- the activity chart -----

  /** The short month names, as an English locale prints them. */
  function MonthName(m: MonthIndex): string {
    ["Jan", "Feb", "Mar", "Apr", "May", "Jun", "Jul", "Aug", "Sep", "Oct", "Nov", "Dec"][m]
  }

  datatype MonthBucket = MonthBucket(month: string, preventive: nat, repair: nat, calibration: nat)

  function BucketTotal(b: MonthBucket): nat {
    b.preventive + b.repair + b.calibration
  }

  /** The bucket counter a report of this type increments, if any. */
  function Bump(b: MonthBucket, activityType: string): (r: MonthBucket)
    ensures r.month == b.month
  {
    if activityType == "preventive" then b.(preventive := b.preventive + 1)
    else if activityType == "repair" then b.(repair := b.repair + 1)
    else if activityType == "calibration" then b.(calibration := b.calibration + 1)
    else b
  }

  lemma BumpTotal(b: MonthBucket, activityType: string)
    ensures BucketTotal(Bump(b, activityType)) <= BucketTotal(b) + 1
  {
  }

  predicate InYear(r: Report, year: int) {
    r.date.Some? && r.date.value.year == year
  }

  predicate Dated(rs: seq<Report>) {
    forall i :: 0 <= i < |rs| ==> rs[i].date.Some?
  }

  /** `monthlyData`, one slot per month index (the month's short name is its key). */
  type Table = t: seq<Option<MonthBucket>> | |t| == 12
    witness [None, None, None, None, None, None, None, None, None, None, None, None]

  function EmptyTable(): Table {
    seq(12, _ => None)
  }

  /** One step of the forEach: create the month's bucket if missing, then count. */
  function Record(t: Table, r: Report): Table
    requires r.date.Some?
  {
    var m := r.date.value.month;
    var b := if t[m].Some? then t[m].value else MonthBucket(MonthName(m), 0, 0, 0);
    t[m := Some(Bump(b, r.activityType))]
  }

  /** Recording a report touches only its own month's slot. */
  lemma RecordSlot(t: Table, r: Report, k: MonthIndex)
    requires r.date.Some?
    ensures k != r.date.value.month ==> Record(t, r)[k] == t[k]
    ensures k == r.date.value.month ==>
      Record(t, r)[k] == Some(Bump(if t[k].Some? then t[k].value else MonthBucket(MonthName(k), 0, 0, 0), r.activityType))
  {
  }

  /** The table after the first `n` reports. */
  function Tally(rs: seq<Report>, n: nat): Table
    requires n <= |rs| && Dated(rs)
  {
    if n == 0 then EmptyTable()
    else Record(Tally(rs, n - 1), rs[n - 1])
  }

  /** `Object.values(monthlyData)` sorted by month: the filled slots among the
      first `n` months, in month order. */
  function Emit(t: Table, n: nat): seq<MonthBucket>
    requires n <= 12
  {
    if n == 0 then []
    else Emit(t, n - 1) + (if t[n - 1].Some? then [t[n - 1].value] else [])
  }

  /** `reports.filter(r => new Date(r.date_time).getFullYear() === currentYear)`. */
  function CurrentYear(rs: seq<Report>, year: int): (current: seq<Report>)
    ensures Dated(current)
  {
    Lists.Filter(rs, (r: Report) => InYear(r, year))
  }

  function ChartData(reports: Option<seq<Report>>, year: int): seq<MonthBucket> {
    match reports
    case None => []
    case Some(rs) =>
      var current := CurrentYear(rs, year);
      Emit(Tally(current, |current|), 12)
  }

  /** prepareChartData. */
  method PrepareChartData(reports: Option<seq<Report>>, year: int) returns (chart: seq<MonthBucket>)
    ensures chart == ChartData(reports, year)
  {
    if reports.None? {
      return [];
    }
    var current := CurrentYear(reports.value, year);
    var table := EmptyTable();
    for i := 0 to |current|
      invariant table == Tally(current, i)
    {
      table := Record(table, current[i]);
    }
    chart := [];
    for m := 0 to 12
      invariant chart == Emit(table, m)
    {
      if table[m].Some? {
        chart := chart + [table[m].value];
      }
    }
  }

  predicate OfMonth(r: Report, m: MonthIndex) {
    r.date.Some? && r.date.value.month == m
  }

  /** How many of the first `n` reports are of month `m` and have this activity type. */
  function MonthCount(rs: seq<Report>, n: nat, m: MonthIndex, activityType: string): nat
    requires n <= |rs|
  {
    if n == 0 then 0
    else
      MonthCount(rs, n - 1, m, activityType)
      + (if OfMonth(rs[n - 1], m) && rs[n - 1].activityType == activityType then 1 else 0)
  }

  lemma {:induction false} MonthCountZero(rs: seq<Report>, n: nat, m: MonthIndex, activityType: string)
    requires n <= |rs|
    requires forall i :: 0 <= i < n ==> !OfMonth(rs[i], m)
    ensures MonthCount(rs, n, m, activityType) == 0
  {
    if n > 0 {
      MonthCountZero(rs, n - 1, m, activityType);
    }
  }

  function CountedBucket(rs: seq<Report>, n: nat, m: MonthIndex): MonthBucket
    requires n <= |rs|
  {
    MonthBucket(MonthName(m), MonthCount(rs, n, m, "preventive"), MonthCount(rs, n, m, "repair"),
                MonthCount(rs, n, m, "calibration"))
  }

  /** Slot `m` is filled iff one of the first `n` reports falls in month `m`, and
      then it holds the month's short name and its three counts; other activity
      types only create the (zeroed) bucket. */
  lemma {:induction false} TallySlot(rs: seq<Report>, n: nat, m: MonthIndex)
    requires n <= |rs| && Dated(rs)
    ensures Tally(rs, n)[m].Some? <==> exists i :: 0 <= i < n && OfMonth(rs[i], m)
    ensures Tally(rs, n)[m].Some? ==> Tally(rs, n)[m].value == CountedBucket(rs, n, m)
  {
    if n > 0 {
      TallySlot(rs, n - 1, m);
      RecordSlot(Tally(rs, n - 1), rs[n - 1], m);
      if OfMonth(rs[n - 1], m) {
        assert exists i :: 0 <= i < n && OfMonth(rs[i], m);
        if Tally(rs, n - 1)[m].None? {
          MonthCountZero(rs, n - 1, m, "preventive");
          MonthCountZero(rs, n - 1, m, "repair");
          MonthCountZero(rs, n - 1, m, "calibration");
        }
      }
    }
  }

  /** The chart of the current year's reports, month by month. */
  lemma ChartBuckets(reports: seq<Report>, year: int, m: MonthIndex)
    ensures var current := CurrentYear(reports, year);
      var t := Tally(current, |current|);
      && (t[m].Some? <==> exists i :: 0 <= i < |current| && OfMonth(current[i], m))
      && (t[m].Some? ==> t[m].value == CountedBucket(current, |current|, m) && t[m].value in ChartData(Some(reports), year))
  {
    var current := CurrentYear(reports, year);
    TallySlot(current, |current|, m);
    EmitContains(Tally(current, |current|), 12, m);
  }

  /** Every chart entry is the bucket of one of its month's reports, and
      nothing else appears in the chart. */
  lemma ChartHoldsOnlyFilledMonths(reports: seq<Report>, year: int, b: MonthBucket)
    requires b in ChartData(Some(reports), year)
    ensures var current := CurrentYear(reports, year);
      exists m: MonthIndex :: b == CountedBucket(current, |current|, m)
        && exists i :: 0 <= i < |current| && OfMonth(current[i], m)
  {
    var current := CurrentYear(reports, year);
    assert ChartData(Some(reports), year) == Emit(Tally(current, |current|), 12);
    var t := Tally(current, |current|);
    EmitOnlyFilled(t, 12, b);
    var m: MonthIndex :| t[m] == Some(b);
    TallySlot(current, |current|, m);
    assert b == CountedBucket(current, |current|, m)
      && exists i :: 0 <= i < |current| && OfMonth(current[i], m);
  }

  lemma {:induction false} EmitContains(t: Table, n: nat, m: nat)
    requires m < n <= 12
    ensures t[m].Some? ==> t[m].value in Emit(t, n)
  {
    if m < n - 1 {
      EmitContains(t, n - 1, m);
    }
  }

  /** Emit lists only buckets stored in the first `n` slots. */
  lemma {:induction false} EmitOnlyFilled(t: Table, n: nat, b: MonthBucket)
    requires n <= 12
    ensures b in Emit(t, n) ==> exists k :: 0 <= k < n && t[k] == Some(b)
  {
    if n > 0 {
      EmitOnlyFilled(t, n - 1, b);
      if b in Emit(t, n) && b !in Emit(t, n - 1) {
        assert t[n - 1] == Some(b);
      }
    }
  }

  /** Every slot holds the bucket named after its own month. */
  predicate WellNamed(t: Table) {
    forall k :: 0 <= k < 12 && t[k].Some? ==> t[k].value.month == MonthName(k)
  }

  lemma {:induction false} TallyWellNamed(rs: seq<Report>, n: nat)
    requires n <= |rs| && Dated(rs)
    ensures WellNamed(Tally(rs, n))
  {
    if n > 0 {
      TallyWellNamed(rs, n - 1);
      forall k: MonthIndex | Tally(rs, n)[k].Some?
        ensures Tally(rs, n)[k].value.month == MonthName(k)
      {
        RecordSlot(Tally(rs, n - 1), rs[n - 1], k);
      }
    }
  }

  /** `months.indexOf(name)`. */
  function MonthPosition(name: string): (p: int)
    ensures -1 <= p < 12
    ensures p >= 0 ==> MonthName(p) == name
  {
    if name == "Jan" then 0 else if name == "Feb" then 1 else if name == "Mar" then 2
    else if name == "Apr" then 3 else if name == "May" then 4 else if name == "Jun" then 5
    else if name == "Jul" then 6 else if name == "Aug" then 7 else if name == "Sep" then 8
    else if name == "Oct" then 9 else if name == "Nov" then 10 else if name == "Dec" then 11
    else -1
  }

  lemma MonthPositionOfName(k: MonthIndex)
    ensures MonthPosition(MonthName(k)) == k
  {
  }

  lemma {:induction false} EmitPositions(t: Table, n: nat)
    requires n <= 12 && WellNamed(t)
    ensures forall i :: 0 <= i < |Emit(t, n)| ==> 0 <= MonthPosition(Emit(t, n)[i].month) < n
    ensures forall i, j :: 0 <= i < j < |Emit(t, n)| ==>
      MonthPosition(Emit(t, n)[i].month) < MonthPosition(Emit(t, n)[j].month)
  {
    if n > 0 {
      EmitPositions(t, n - 1);
      var e := Emit(t, n - 1);
      if t[n - 1].Some? {
        MonthPositionOfName(n - 1);
        var full := e + [t[n - 1].value];
        assert Emit(t, n) == full;
        assert forall i :: 0 <= i < |e| ==> full[i] == e[i];
        assert MonthPosition(full[|e|].month) == n - 1;
      } else {
        assert Emit(t, n) == e;
      }
    }
  }

  /** The chart has at most one bucket per month and lists them Jan..Dec. */
  lemma ChartSorted(reports: Option<seq<Report>>, year: int)
    ensures var c := ChartData(reports, year);
      forall i, j :: 0 <= i < j < |c| ==> 0 <= MonthPosition(c[i].month) < MonthPosition(c[j].month)
  {
    if reports.Some? {
      var current := CurrentYear(reports.value, year);
      TallyWellNamed(current, |current|);
      EmitPositions(Tally(current, |current|), 12);
    }
  }

  function SumBuckets(bs: seq<MonthBucket>): nat
    decreases |bs|
  {
    if bs == [] then 0 else SumBuckets(bs[..|bs| - 1]) + BucketTotal(bs[|bs| - 1])
  }

  lemma {:induction false} SumBucketsAppend(a: seq<MonthBucket>, b: seq<MonthBucket>)
    ensures SumBuckets(a + b) == SumBuckets(a) + SumBuckets(b)
    decreases |b|
  {
    if b == [] {
      assert a + b == a;
    } else {
      assert (a + b)[..|a + b| - 1] == a + b[..|b| - 1];
      assert (a + b)[|a + b| - 1] == b[|b| - 1];
      SumBucketsAppend(a, b[..|b| - 1]);
    }
  }

  function SlotTotal(s: Option<MonthBucket>): nat {
    if s.Some? then BucketTotal(s.value) else 0
  }

  /** The counts held in the first `n` slots. */
  function SlotSum(t: Table, n: nat): nat
    requires n <= 12
  {
    if n == 0 then 0 else SlotSum(t, n - 1) + SlotTotal(t[n - 1])
  }

  lemma {:induction false} EmitSum(t: Table, n: nat)
    requires n <= 12
    ensures SumBuckets(Emit(t, n)) == SlotSum(t, n)
  {
    if n > 0 {
      EmitSum(t, n - 1);
      var last := if t[n - 1].Some? then [t[n - 1].value] else [];
      SumBucketsAppend(Emit(t, n - 1), last);
      assert SumBuckets(last) == SlotTotal(t[n - 1]) by {
        if t[n - 1].Some? {
          assert last[..0] == [];
        }
      }
    }
  }

  /** Replacing slot `m` changes the sum by the change in that slot. */
  lemma {:induction false} SlotSumUpdate(t: Table, u: Table, n: nat, m: MonthIndex, b: MonthBucket)
    requires n <= 12 && u == t[m := Some(b)]
    ensures SlotSum(u, n) + (if m < n then SlotTotal(t[m]) else 0)
      == SlotSum(t, n) + (if m < n then BucketTotal(b) else 0)
  {
    if n > 0 {
      SlotSumUpdate(t, u, n - 1, m, b);
    }
  }

  lemma {:induction false} EmptyTableSumsToZero(n: nat)
    requires n <= 12
    ensures SlotSum(EmptyTable(), n) == 0
  {
    if n > 0 {
      EmptyTableSumsToZero(n - 1);
    }
  }

  lemma {:induction false} TallyTotal(rs: seq<Report>, n: nat)
    requires n <= |rs| && Dated(rs)
    ensures SlotSum(Tally(rs, n), 12) <= n
  {
    if n == 0 {
      EmptyTableSumsToZero(12);
    } else {
      TallyTotal(rs, n - 1);
      var t := Tally(rs, n - 1);
      var r := rs[n - 1];
      var m := r.date.value.month;
      var b := if t[m].Some? then t[m].value else MonthBucket(MonthName(m), 0, 0, 0);
      BumpTotal(b, r.activityType);
      SlotSumUpdate(t, Tally(rs, n), 12, m, Bump(b, r.activityType));
    }
  }

  /** The chart counts at most one activity per report of the current year, in
      at most twelve buckets. */
  lemma ChartTotalBound(reports: seq<Report>, year: int)
    ensures SumBuckets(ChartData(Some(reports), year)) <= Lists.Count(reports, (r: Report) => InYear(r, year))
    ensures |ChartData(Some(reports), year)| <= 12
  {
    var current := CurrentYear(reports, year);
    TallyTotal(current, |current|);
    EmitSum(Tally(current, |current|), 12);
    Lists.CountIsFilterLength(reports, (r: Report) => InYear(r, year));
    EmitLength(Tally(current, |current|), 12);
  }

  lemma {:induction false} EmitLength(t: Table, n: nat)
    requires n <= 12
    ensures |Emit(t, n)| <= n
  {
    if n > 0 {
      EmitLength(t, n - 1);
    }
  }

  // ----- the report list -----

  class DetailsScreen {
    var reports: Option<seq<Report>>
    var selectedTechnician: string
    var currentPage: int
    var itemsPerPage: nat

    constructor (reports: Option<seq<Report>>)
      ensures this.reports == reports && selectedTechnician == "all" && currentPage == 1 && itemsPerPage == 5
    {
      this.reports := reports;
      selectedTechnician := "all";
      currentPage := 1;
      itemsPerPage := 5;
    }

    function Filtered(): seq<Report>
      reads this
    {
      TechnicianFilter(reports, selectedTechnician)
    }

    function CurrentReports(): seq<Report>
      reads this
    {
      Paging.PageSlice(Filtered(), currentPage, itemsPerPage)
    }

    function TotalPages(): nat
      reads this
      requires itemsPerPage > 0
    {
      Paging.TotalPages(|Filtered()|, itemsPerPage)
    }

    /** The five page buttons. */
    function PageButtons(): seq<int>
      reads this
      requires itemsPerPage > 0
    {
      Paging.FiveWindow(currentPage, TotalPages())
    }

    method SelectTechnician(value: string)
      modifies this`selectedTechnician, this`currentPage
      ensures selectedTechnician == value && currentPage == 1
    {
      selectedTechnician := value;
      currentPage := 1;
    }

    method ChangeItemsPerPage(n: nat)
      modifies this`itemsPerPage, this`currentPage
      ensures itemsPerPage == n && currentPage == 1
    {
      itemsPerPage := n;
      currentPage := 1;
    }

    method Paginate(page: int)
      modifies this`currentPage
      ensures currentPage == page
    {
      currentPage := page;
    }

    method PreviousPage()
      modifies this`currentPage
      ensures currentPage == Paging.PrevTarget(old(currentPage))
    {
      Paginate(Max(1, currentPage - 1));
    }

    /** The next button as written: `Math.min(totalPages, currentPage + 1)`, so
        page 0 when no report is shown (see the page-0 finding). */
    method NextPage()
      requires itemsPerPage > 0
      modifies this`currentPage
      ensures currentPage == Paging.NextTarget(old(currentPage), TotalPages())
      ensures currentPage <= TotalPages()
    {
      Paginate(Min(TotalPages(), currentPage + 1));
    }
  }
}
