/** The Reports screen (components/Reports.js): the filter effect over the
    maintenance reports, clearing the filters, the equipment and technician
    pick-lists, the page buttons and the row labels. */
module ReportsView {
  import opened Js
  import Lists
  import Paging
  import Formatters

  /** A report row; `time` is the timestamp of `date_time`, `None` for an invalid date. */
  datatype Report = Report(
    id: Value,
    equipmentName: string,
    equipment: Value,
    technician: Value,
    time: Option<int>,
    activityType: string,
    preStatus: string,
    postStatus: Value)

  /** A chosen date: `time` is the timestamp of `new Date(value)`, and
      `nextDay` the one `setDate(getDate() + 1)` moves it to, one local calendar
      day later (23, 24 or 25 hours, as the browser's time zone decides). Both
      come from the browser's clock rules and are inputs of the model. */
  datatype DateInput = DateInput(time: int, nextDay: int)

  /** The five filter inputs; a date input is `None` while empty. */
  datatype Filters = Filters(search: string, equipment: string, technician: string,
                             start: Option<DateInput>, end: Option<DateInput>)

  const NoFilters := Filters("", "", "", None, None)

  predicate SearchKeeps(r: Report, f: Filters) {
    f.search == "" || Includes(Lower(r.equipmentName), Lower(f.search))
  }

  /** `value === parseInt(selection)`: a NaN selection matches nothing. */
  predicate IdMatches(value: Value, selection: string) {
    ParseInt(selection).Some? && value == Num(ParseInt(selection).value)
  }

  predicate EquipmentKeeps(r: Report, f: Filters) {
    f.equipment == "" || IdMatches(r.equipment, f.equipment)
  }

  predicate TechnicianKeeps(r: Report, f: Filters) {
    f.technician == "" || IdMatches(r.technician, f.technician)
  }

  /** Date comparisons against an invalid report date are false; the end
      date is pushed one calendar day on, so that its whole day is included. */
  predicate DateKeeps(r: Report, f: Filters) {
    if f.start.Some? && f.end.Some? then
      r.time.Some? && f.start.value.time <= r.time.value < f.end.value.nextDay
    else if f.start.Some? then
      r.time.Some? && r.time.value >= f.start.value.time
    else if f.end.Some? then
      r.time.Some? && r.time.value < f.end.value.nextDay
    else true
  }

  predicate KeepReport(r: Report, f: Filters) {
    SearchKeeps(r, f) && EquipmentKeeps(r, f) && TechnicianKeeps(r, f) && DateKeeps(r, f)
  }

  function SearchStage(f: Filters): Report -> bool {
    (r: Report) => SearchKeeps(r, f)
  }

  function EquipmentStage(f: Filters): Report -> bool {
    (r: Report) => EquipmentKeeps(r, f)
  }

  function TechnicianStage(f: Filters): Report -> bool {
    (r: Report) => TechnicianKeeps(r, f)
  }

  function DateStage(f: Filters): Report -> bool {
    (r: Report) => DateKeeps(r, f)
  }

  function UpToEquipment(f: Filters): Report -> bool {
    (r: Report) => SearchKeeps(r, f) && EquipmentKeeps(r, f)
  }

  function UpToTechnician(f: Filters): Report -> bool {
    (r: Report) => SearchKeeps(r, f) && EquipmentKeeps(r, f) && TechnicianKeeps(r, f)
  }

  function Keep(f: Filters): Report -> bool {
    (r: Report) => KeepReport(r, f)
  }

  /** The reports the filter effect leaves visible. */
  function Visible(reports: seq<Report>, f: Filters): seq<Report> {
    Lists.Filter(reports, Keep(f))
  }

  /** The visible reports keep their order, and a report is visible iff every
      filter that is set lets it through: the search is a case-insensitive
      substring of the equipment name, the ids equal the parsed selections, and
      its date lies from the start date up to, not including, the calendar day
      after the end date, with either end optional. */
  lemma VisibleSpec(reports: seq<Report>, f: Filters, x: Report)
    ensures Lists.Subsequence(Visible(reports, f), reports)
    ensures x in Visible(reports, f) <==>
      && x in reports
      && (f.search != "" ==> Includes(Lower(x.equipmentName), Lower(f.search)))
      && (f.equipment != "" ==> ParseInt(f.equipment).Some? && x.equipment == Num(ParseInt(f.equipment).value))
      && (f.technician != "" ==> ParseInt(f.technician).Some? && x.technician == Num(ParseInt(f.technician).value))
      && (f.start.Some? ==> x.time.Some? && x.time.value >= f.start.value.time)
      && (f.end.Some? ==> x.time.Some? && x.time.value < f.end.value.nextDay)
  {
    Lists.FilterIsSubsequence(reports, Keep(f));
  }

  /** With every filter empty all reports are visible. */
  lemma NoFiltersShowAll(reports: seq<Report>)
    ensures Visible(reports, NoFilters) == reports
  {
    Lists.FilterAll(reports, Keep(NoFilters));
  }

  lemma OnlySearchDiffers(r: Report, f: Filters, g: Filters)
    requires f.search == "" && g == f.(search := g.search)
    ensures KeepReport(r, g) == (KeepReport(r, f) && SearchKeeps(r, g))
  {
    assert SearchKeeps(r, f);
    assert g.equipment == f.equipment && g.technician == f.technician && g.start == f.start && g.end == f.end;
  }

  /** Setting one more filter never brings a report back: adding a search term
      narrows the list to a subsequence of what was visible. */
  lemma SearchNarrows(reports: seq<Report>, f: Filters, term: string)
    requires f.search == ""
    ensures Lists.Subsequence(Visible(reports, f.(search := term)), Visible(reports, f))
  {
    var g := f.(search := term);
    forall i | 0 <= i < |reports|
      ensures Keep(g)(reports[i]) == (Keep(f)(reports[i]) && SearchStage(g)(reports[i]))
    {
      OnlySearchDiffers(reports[i], f, g);
    }
    Lists.FilterThen(reports, Keep(f), SearchStage(g), Keep(g));
    Lists.FilterIsSubsequence(Visible(reports, f), SearchStage(g));
  }

  /** The steps of the filter effect: each skipped or applied stage leaves the
      reports that pass every filter checked so far. */
  lemma SearchStep(reports: seq<Report>, f: Filters)
    ensures (if f.search != "" then Lists.Filter(reports, SearchStage(f)) else reports)
      == Lists.Filter(reports, SearchStage(f))
  {
    if f.search == "" {
      Lists.FilterAll(reports, SearchStage(f));
    }
  }

  lemma EquipmentStep(reports: seq<Report>, f: Filters)
    ensures var before := Lists.Filter(reports, SearchStage(f));
      (if f.equipment != "" then Lists.Filter(before, EquipmentStage(f)) else before)
      == Lists.Filter(reports, UpToEquipment(f))
  {
    if f.equipment != "" {
      Lists.FilterThen(reports, SearchStage(f), EquipmentStage(f), UpToEquipment(f));
    } else {
      Lists.FilterExt(reports, SearchStage(f), UpToEquipment(f));
    }
  }

  lemma TechnicianStep(reports: seq<Report>, f: Filters)
    ensures var before := Lists.Filter(reports, UpToEquipment(f));
      (if f.technician != "" then Lists.Filter(before, TechnicianStage(f)) else before)
      == Lists.Filter(reports, UpToTechnician(f))
  {
    if f.technician != "" {
      Lists.FilterThen(reports, UpToEquipment(f), TechnicianStage(f), UpToTechnician(f));
    } else {
      Lists.FilterExt(reports, UpToEquipment(f), UpToTechnician(f));
    }
  }

  lemma DateStep(reports: seq<Report>, f: Filters)
    ensures var before := Lists.Filter(reports, UpToTechnician(f));
      (if f.start.Some? || f.end.Some? then Lists.Filter(before, DateStage(f)) else before)
      == Visible(reports, f)
  {
    if f.start.Some? || f.end.Some? {
      Lists.FilterThen(reports, UpToTechnician(f), DateStage(f), Keep(f));
    } else {
      Lists.FilterExt(reports, UpToTechnician(f), Keep(f));
    }
  }

  /** The body of the filter effect, one filter at a time. */
  method FilterReports(reports: seq<Report>, f: Filters) returns (filtered: seq<Report>)
    ensures filtered == Visible(reports, f)
  {
    filtered := reports;
    SearchStep(reports, f);
    if f.search != "" {
      filtered := Lists.Filter(filtered, SearchStage(f));
    }
    EquipmentStep(reports, f);
    if f.equipment != "" {
      filtered := Lists.Filter(filtered, EquipmentStage(f));
    }
    TechnicianStep(reports, f);
    if f.technician != "" {
      filtered := Lists.Filter(filtered, TechnicianStage(f));
    }
    DateStep(reports, f);
    if f.start.Some? && f.end.Some? {
      filtered := Lists.Filter(filtered, DateStage(f));
    } else if f.start.Some? {
      filtered := Lists.Filter(filtered, DateStage(f));
    } else if f.end.Some? {
      filtered := Lists.Filter(filtered, DateStage(f));
    }
  }

  datatype EquipmentItem = EquipmentItem(id: Value, name: string)

  function ItemId(e: EquipmentItem): Value {
    e.id
  }

  datatype User = User(id: Value, firstName: Value, lastName: Value, userRole: string)

  predicate IsTechnician(u: User) {
    u.userRole == "Technician"
  }

  /** The technician pick-list. */
  function Technicians(users: seq<User>): seq<User> {
    Lists.Filter(users, IsTechnician)
  }

  /** The pick-list is exactly the users whose role is 'Technician', in order. */
  lemma TechniciansSpec(users: seq<User>, u: User)
    ensures u in Technicians(users) <==> u in users && u.userRole == "Technician"
    ensures Lists.Subsequence(Technicians(users), users)
  {
    Lists.FilterIsSubsequence(users, IsTechnician);
  }

  function HasId(id: Value): User -> bool {
    (u: User) => u.id == id
  }

  /** getTechnicianName: the first technician with that id, else 'Unknown'. */
  function TechnicianName(technicians: seq<User>, id: Value): (name: string)
    ensures (forall k :: 0 <= k < |technicians| ==> technicians[k].id != id) ==> name == "Unknown"
    ensures forall k ::
      (0 <= k < |technicians| && technicians[k].id == id &&
       (forall j :: 0 <= j < k ==> technicians[j].id != id)) ==>
        name == ToText(technicians[k].firstName) + " " + ToText(technicians[k].lastName)
  {
    match Lists.FindIndex(technicians, HasId(id))
    case None => "Unknown"
    case Some(i) => ToText(technicians[i].firstName) + " " + ToText(technicians[i].lastName)
  }

  /** The post-status badge: a falsy status shows a grey 'Not Set'. */
  function PostStatusBadge(postStatus: Value): (b: Formatters.Badge)
    ensures !Truthy(postStatus) ==> b.text == "Not Set"
    ensures Truthy(postStatus) ==> b == Formatters.FormatOperationalStatus(ToText(postStatus))
  {
    if Truthy(postStatus) then Formatters.FormatOperationalStatus(ToText(postStatus))
    else Formatters.Badge("Not Set", "bg-gray-100 text-gray-600" + Formatters.BadgeShape)
  }

  /** The activity column. */
  function ActivityLabel(activityType: string): string {
    if activityType == "preventive maintenance" then "Preventive maintenance"
    else Capitalize(activityType)
  }

  /** The special case for 'preventive maintenance' is what the general rule
      gives anyway: every activity type is shown with its first letter upper-cased. */
  lemma ActivityLabelIsCapitalized(activityType: string)
    ensures ActivityLabel(activityType) == Capitalize(activityType)
  {
    if activityType == "preventive maintenance" {
      assert Capitalize(activityType) == [UpperChar('p')] + activityType[1..];
    }
  }

  /** The equipment pick-list loop: keep an item only when its id was not seen. */
  method UniqueEquipment(items: seq<EquipmentItem>) returns (unique: seq<EquipmentItem>)
    ensures unique == Lists.DistinctBy(items, ItemId)
  {
    unique := [];
    var seen: set<Value> := {};
    var i := 0;
    while i < |items|
      invariant 0 <= i <= |items|
      invariant unique == Lists.DistinctBy(items[..i], ItemId)
      invariant forall v :: v in seen <==> v in Lists.Keys(unique, ItemId)
    {
      assert items[..i + 1][..i] == items[..i];
      var item := items[i];
      if item.id !in seen {
        seen := seen + {item.id};
        Lists.KeysAppend(unique, item, ItemId);
        unique := unique + [item];
      }
      i := i + 1;
    }
    assert items[..i] == items;
  }

  /** One item per id, the first one with that id, in input order, and every
      input id represented. */
  lemma UniqueEquipmentSpec(items: seq<EquipmentItem>)
    ensures var u := Lists.DistinctBy(items, ItemId);
      && (forall i, j :: 0 <= i < j < |u| ==> u[i].id != u[j].id)
      && Lists.Subsequence(u, items)
      && (forall k :: 0 <= k < |items| ==> exists i :: 0 <= i < |u| && u[i].id == items[k].id)
  {
    Lists.DistinctByProperties(items, ItemId);
    var u := Lists.DistinctBy(items, ItemId);
    forall k | 0 <= k < |items|
      ensures exists i :: 0 <= i < |u| && u[i].id == items[k].id
    {
      Lists.DistinctByKeys(items, ItemId, items[k].id);
      assert Lists.Keys(items, ItemId)[k] == items[k].id;
      var i :| 0 <= i < |u| && Lists.Keys(u, ItemId)[i] == items[k].id;
    }
  }

  class ReportsScreen {
    var reports: seq<Report>
    var filteredReports: seq<Report>
    var searchTerm: string
    var selectedEquipment: string
    var selectedTechnician: string
    var startDate: Option<DateInput>
    var endDate: Option<DateInput>
    var currentPage: int
    const reportsPerPage: nat

    constructor ()
      ensures reports == [] && filteredReports == [] && currentPage == 1 && reportsPerPage == 10
      ensures Current() == NoFilters
    {
      reports, filteredReports := [], [];
      searchTerm, selectedEquipment, selectedTechnician := "", "", "";
      startDate, endDate := None, None;
      currentPage, reportsPerPage := 1, 10;
    }

    function Current(): Filters
      reads this`searchTerm, this`selectedEquipment, this`selectedTechnician, this`startDate, this`endDate
    {
      Filters(searchTerm, selectedEquipment, selectedTechnician, startDate, endDate)
    }

    /** The filter effect: nothing happens while there are no reports. */
    method ApplyFilters()
      modifies this`filteredReports
      ensures |reports| == 0 ==> filteredReports == old(filteredReports)
      ensures |reports| > 0 ==> filteredReports == Visible(reports, Current())
    {
      if |reports| == 0 {
        return;
      }
      filteredReports := FilterReports(reports, Current());
    }

    method ClearFilters()
      modifies this`searchTerm, this`selectedEquipment, this`selectedTechnician, this`startDate, this`endDate
      ensures Current() == NoFilters
    {
      searchTerm := "";
      selectedEquipment := "";
      selectedTechnician := "";
      startDate := None;
      endDate := None;
    }

    function CurrentReports(): seq<Report>
      reads this
    {
      Paging.PageSlice(filteredReports, currentPage, reportsPerPage)
    }

    function TotalPages(): nat
      reads this
      requires reportsPerPage > 0
    {
      Paging.TotalPages(|filteredReports|, reportsPerPage)
    }

    /** The page buttons: all page numbers, sliced around the current page. */
    function PageButtons(): seq<int>
      reads this
      requires reportsPerPage > 0
    {
      Paging.ThreeWindow(currentPage, TotalPages())
    }

    method Paginate(page: int)
      modifies this`currentPage
      ensures currentPage == page
    {
      currentPage := page;
    }
  }

  /** Clearing the filters and running the effect shows every report again. */
  method ClearAndApply(screen: ReportsScreen)
    modifies screen
    ensures |screen.reports| > 0 ==> screen.filteredReports == screen.reports
  {
    screen.ClearFilters();
    screen.ApplyFilters();
    NoFiltersShowAll(screen.reports);
  }
}
