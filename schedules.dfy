/** The maintenance calendar (components/MaintenanceSchedules.js): the month
    grid grouped into weeks of seven cells, the schedules listed on each day,
    month navigation, and the create/edit/delete handlers of the schedule form. */
module SchedulesView {
  import opened Js
  import Lists
  import Session

  // ---------------------------------------------------------------------------
  // Calendar dates

  /** A local calendar date; `month` runs 1..12. */
  datatype Date = Date(year: int, month: int, day: int)

  predicate LeapYear(year: int) {
    (year % 4 == 0 && year % 100 != 0) || year % 400 == 0
  }

  function DaysInMonth(year: int, month: int): (n: nat)
    ensures 28 <= n <= 31
  {
    if month == 2 then (if LeapYear(year) then 29 else 28)
    else if month == 4 || month == 6 || month == 9 || month == 11 then 30
    else 31
  }

  predicate ValidDate(d: Date) {
    1 <= d.month <= 12 && 1 <= d.day <= DaysInMonth(d.year, d.month)
  }

  /** Months since the start of year 0: consecutive months differ by one. */
  function MonthNumber(d: Date): int {
    d.year * 12 + d.month - 1
  }

  // ---------------------------------------------------------------------------
  // Month navigation

  /** `date.setMonth(m)` with a 0-based month that may leave 0..11: the year
      carries, and a day past the end of the target month rolls over into the
      following month. */
  function SetMonth(d: Date, m: int): (r: Date)
    requires ValidDate(d)
    ensures ValidDate(r)
  {
    var year := d.year + m / 12;
    var month := m % 12 + 1;
    var length := DaysInMonth(year, month);
    if d.day <= length then Date(year, month, d.day)
    else if month == 12 then Date(year + 1, 1, d.day - length)
    else Date(year, month + 1, d.day - length)
  }

  /** handleNextMonth and handlePrevMonth as written: `setMonth(getMonth() ± 1)`. */
  function NextMonthAsWritten(d: Date): Date
    requires ValidDate(d)
  {
    SetMonth(d, d.month - 1 + 1)
  }

  function PrevMonthAsWritten(d: Date): Date
    requires ValidDate(d)
  {
    SetMonth(d, d.month - 1 - 1)
  }

  /** From the 31st of January "next month" shows March, and from the 31st of
      March "previous month" stays on March. */
  lemma MonthNavigationSkipsOrSticks()
    ensures NextMonthAsWritten(Date(2025, 1, 31)) == Date(2025, 3, 3)
    ensures MonthNumber(NextMonthAsWritten(Date(2025, 1, 31))) == MonthNumber(Date(2025, 1, 31)) + 2
    ensures PrevMonthAsWritten(Date(2025, 3, 31)) == Date(2025, 3, 3)
    ensures MonthNumber(PrevMonthAsWritten(Date(2025, 3, 31))) == MonthNumber(Date(2025, 3, 31))
  {
  }

  /** The intended navigation: move the displayed month by `delta`, keeping the
      day when the target month has it and otherwise its last day. */
  function ShiftMonth(d: Date, delta: int): (r: Date)
    requires ValidDate(d)
    ensures ValidDate(r)
    ensures MonthNumber(r) == MonthNumber(d) + delta
    ensures r.day == Min(d.day, DaysInMonth(r.year, r.month))
  {
    var total := MonthNumber(d) + delta;
    var year, month := total / 12, total % 12 + 1;
    Date(year, month, Min(d.day, DaysInMonth(year, month)))
  }

  /** The shift moves by exactly one month with the year carried: December
      goes to January of the next year and back. */
  lemma ShiftMonthCarriesYear(d: Date)
    requires ValidDate(d)
    ensures d.month == 12 ==> ShiftMonth(d, 1).year == d.year + 1 && ShiftMonth(d, 1).month == 1
    ensures d.month < 12 ==> ShiftMonth(d, 1).year == d.year && ShiftMonth(d, 1).month == d.month + 1
    ensures d.month == 1 ==> ShiftMonth(d, -1).year == d.year - 1 && ShiftMonth(d, -1).month == 12
    ensures d.month > 1 ==> ShiftMonth(d, -1).year == d.year && ShiftMonth(d, -1).month == d.month - 1
  {
    var next, prev := ShiftMonth(d, 1), ShiftMonth(d, -1);
    assert MonthNumber(next) == d.year * 12 + d.month;
    assert MonthNumber(prev) == d.year * 12 + d.month - 2;
  }

  /** Where no roll-over can happen (days 1 to 28) the source's navigation is the
      intended one. */
  lemma AsWrittenAgreesUpToThe28th(d: Date)
    requires ValidDate(d) && d.day <= 28
    ensures NextMonthAsWritten(d) == ShiftMonth(d, 1)
    ensures PrevMonthAsWritten(d) == ShiftMonth(d, -1)
  {
    var next, prev := ShiftMonth(d, 1), ShiftMonth(d, -1);
    assert MonthNumber(next) == d.year * 12 + d.month;
    assert MonthNumber(prev) == d.year * 12 + d.month - 2;
  }

  /** How far the source's navigation moves: "next" one month or, after a
      roll-over, two; "previous" one month back or, after a roll-over, not at
      all. The day is kept unless it rolled over, and then it is at most 3. */
  lemma AsWrittenNavigationBounds(d: Date)
    requires ValidDate(d)
    ensures var n := NextMonthAsWritten(d);
      MonthNumber(d) + 1 <= MonthNumber(n) <= MonthNumber(d) + 2
      && (MonthNumber(n) == MonthNumber(d) + 1 <==> n.day == d.day)
      && (MonthNumber(n) == MonthNumber(d) + 2 ==> 1 <= n.day <= 3)
    ensures var p := PrevMonthAsWritten(d);
      MonthNumber(d) - 1 <= MonthNumber(p) <= MonthNumber(d)
      && (MonthNumber(p) == MonthNumber(d) - 1 <==> p.day == d.day)
      && (MonthNumber(p) == MonthNumber(d) ==> 1 <= p.day <= 3)
  {
    var total := MonthNumber(d);
    assert d.year + (d.month - 1 + 1) / 12 == (total + 1) / 12;
    assert (d.month - 1 + 1) % 12 == (total + 1) % 12;
    assert d.year + (d.month - 1 - 1) / 12 == (total - 1) / 12;
    assert (d.month - 1 - 1) % 12 == (total - 1) % 12;
  }

  // ---------------------------------------------------------------------------
  // Schedules on a day

  /** Whether a schedule's `start_date` falls on `day`; `startDay` is the
      caller's reading of a start date as a local calendar date. */
  function OnDay(startDay: Value -> Option<Date>, day: Date): Value -> bool {
    (schedule: Value) => startDay(Get(schedule, "start_date")) == Some(day)
  }

  function DaySchedules(schedules: seq<Value>, startDay: Value -> Option<Date>, day: Date): seq<Value> {
    Lists.Filter(schedules, OnDay(startDay, day))
  }

  /** A schedule is listed on a day iff its start date is that day: recurrence
      and end dates are not expanded. */
  lemma DaySchedulesSpec(schedules: seq<Value>, startDay: Value -> Option<Date>, day: Date, s: Value)
    ensures s in DaySchedules(schedules, startDay, day) <==>
      s in schedules && startDay(Get(s, "start_date")) == Some(day)
    ensures Lists.Subsequence(DaySchedules(schedules, startDay, day), schedules)
  {
    Lists.FilterIsSubsequence(schedules, OnDay(startDay, day));
  }

  // ---------------------------------------------------------------------------
  // The month grid

  /** A grid cell: a day with its schedules, or an empty filler keyed by its column. */
  datatype Cell = DayCell(date: Date, schedules: seq<Value>) | Filler(column: nat)

  function DayCellAt(year: int, month: int, schedules: seq<Value>, startDay: Value -> Option<Date>, k: nat): Cell {
    DayCell(Date(year, month, k + 1), DaySchedules(schedules, startDay, Date(year, month, k + 1)))
  }

  /** The cells of every day of the month, in date order. */
  function DayCells(year: int, month: int, schedules: seq<Value>, startDay: Value -> Option<Date>): (cells: seq<Cell>)
    ensures |cells| == DaysInMonth(year, month)
  {
    seq(DaysInMonth(year, month), k requires 0 <= k => DayCellAt(year, month, schedules, startDay, k))
  }

  /** The fillers that complete the last row. */
  function Padding(n: nat): nat {
    (7 - n % 7) % 7
  }

  function Flatten(rows: seq<seq<Cell>>): seq<Cell> {
    if rows == [] then [] else Flatten(rows[..|rows| - 1]) + rows[|rows| - 1]
  }

  lemma FlattenAppend(rows: seq<seq<Cell>>, row: seq<Cell>)
    ensures Flatten(rows + [row]) == Flatten(rows) + row
  {
    assert (rows + [row])[..|rows|] == rows;
  }

  lemma {:induction false} FlattenLength(rows: seq<seq<Cell>>)
    requires FullRows(rows)
    ensures |Flatten(rows)| == 7 * |rows|
  {
    if rows != [] {
      FlattenLength(rows[..|rows| - 1]);
    }
  }

  lemma NextDay(days: seq<Cell>, i: nat, day: Cell)
    requires i < |days| && days[i] == day
    ensures days[..i + 1] == days[..i] + [day]
  {
  }

  predicate FullRows(rows: seq<seq<Cell>>) {
    forall j :: 0 <= j < |rows| ==> |rows[j]| == 7
  }

  /** renderCalendarDays: the days of the month go into rows of seven, a new
      row starting whenever the current one is full, and the last row is padded
      with fillers. */
  method RenderCalendarDays(year: int, month: int, schedules: seq<Value>, startDay: Value -> Option<Date>)
    returns (weeks: seq<seq<Cell>>)
    ensures FullRows(weeks)
    ensures |weeks| == (DaysInMonth(year, month) + 6) / 7
    ensures var n := DaysInMonth(year, month);
      && |Flatten(weeks)| == n + Padding(n)
      && Flatten(weeks)[..n] == DayCells(year, month, schedules, startDay)
      && (forall k :: n <= k < |Flatten(weeks)| ==> Flatten(weeks)[k] == Filler(k % 7))
  {
    var week;
    weeks, week := GroupDays(year, month, schedules, startDay);
    var n := DaysInMonth(year, month);
    if |week| > 0 {
      ghost var row, filled := |weeks|, |week|;
      week := PadRow(week);
      FlattenAppend(weeks, week);
      weeks := weeks + [week];
      PaddingOfLastRow(row, filled);
      FillerColumns(Flatten(weeks), n, row, filled);
    }
  }

  /** The forEach over the days: full rows in `weeks`, the row being filled in `week`. */
  method GroupDays(year: int, month: int, schedules: seq<Value>, startDay: Value -> Option<Date>)
    returns (weeks: seq<seq<Cell>>, week: seq<Cell>)
    ensures FullRows(weeks)
    ensures |Flatten(weeks)| == 7 * |weeks|
    ensures Flatten(weeks) + week == DayCells(year, month, schedules, startDay)
    ensures 1 <= |week| <= 7
  {
    var n := DaysInMonth(year, month);
    ghost var days := DayCells(year, month, schedules, startDay);
    weeks, week := [], [];
    var i := 0;
    while i < n
      invariant 0 <= i <= n
      invariant FullRows(weeks)
      invariant Flatten(weeks) + week == days[..i]
      invariant i == 0 ==> week == []
      invariant i > 0 ==> 1 <= |week| <= 7
    {
      if |week| == 7 {
        FlattenAppend(weeks, week);
        weeks := weeks + [week];
        week := [];
      }
      var day := DayCellAt(year, month, schedules, startDay, i);
      week := week + [day];
      NextDay(days, i, day);
      i := i + 1;
    }
    assert days[..n] == days;
    FlattenLength(weeks);
  }

  /** The padding loop: fillers keyed by their column until the row holds seven. */
  method PadRow(week: seq<Cell>) returns (row: seq<Cell>)
    requires |week| <= 7
    ensures |row| == 7 && row[..|week|] == week
    ensures forall j :: |week| <= j < 7 ==> row[j] == Filler(j)
  {
    row := week;
    while |row| < 7
      invariant |week| <= |row| <= 7
      invariant row[..|week|] == week
      invariant forall j :: |week| <= j < |row| ==> row[j] == Filler(j)
      decreases 7 - |row|
    {
      row := row + [Filler(|row|)];
    }
  }

  /** Helper: the fillers after the last day sit in columns `k % 7`. */
  lemma FillerColumns(cells: seq<Cell>, n: nat, row: nat, filled: nat)
    requires 1 <= filled <= 7 && n == 7 * row + filled && |cells| == 7 * row + 7
    requires forall j :: filled <= j < 7 ==> cells[7 * row + j] == Filler(j)
    ensures forall k :: n <= k < |cells| ==> cells[k] == Filler(k % 7)
  {
    forall k | n <= k < |cells|
      ensures cells[k] == Filler(k % 7)
    {
      ColumnOf(row, k - 7 * row);
      assert cells[7 * row + (k - 7 * row)] == Filler(k - 7 * row);
    }
  }

  /** Helper: a cell at column `j` of row `row` sits at `k % 7 == j`. */
  lemma ColumnOf(row: int, j: int)
    requires 0 <= j < 7
    ensures (7 * row + j) % 7 == j
  {
  }

  /** Helper: a last row holding `filled` days needs `Padding` fillers. */
  lemma PaddingOfLastRow(row: nat, filled: nat)
    requires 1 <= filled <= 7
    ensures Padding(7 * row + filled) == 7 - filled
    ensures (7 * row + filled + 6) / 7 == row + 1
  {
    assert 7 * row + filled + 6 == 7 * (row + 1) + (filled - 1);
    assert (7 * row + filled) % 7 == filled % 7 by {
      if filled == 7 {
        assert 7 * row + filled == 7 * (row + 1) + 0;
        ColumnOf(row + 1, 0);
      } else {
        ColumnOf(row, filled);
      }
    }
  }

  // ---------------------------------------------------------------------------
  // The schedule form

  /** The create-mode form; `now` is `new Date().toISOString()`. */
  function DefaultForm(now: string): Value {
    Obj(map["id" := Null, "equipment" := Null, "for_all_equipment" := Bool(false),
            "technician" := Null, "title" := Str(""), "description" := Str(""),
            "start_date" := Str(now), "end_date" := Str(now), "frequency" := Str("once"),
            "interval" := Num(1), "recurring_end" := Null])
  }

  /** The edit-mode form: a copy of the schedule with its three date fields set
      explicitly (so they are present even when the schedule lacks them). */
  function EditForm(schedule: Value): (form: Value)
    ensures form.Obj?
    ensures forall k :: k in Spread(schedule) ==> k in form.fields && form.fields[k] == Spread(schedule)[k]
    ensures forall k :: k in form.fields ==>
      k in Spread(schedule) || (k in {"start_date", "end_date", "recurring_end"} && form.fields[k] == Undefined)
  {
    Obj(Spread(schedule)["start_date" := Get(schedule, "start_date")]
                        ["end_date" := Get(schedule, "end_date")]
                        ["recurring_end" := Get(schedule, "recurring_end")])
  }

  /** The submit payload: a copy of the form without `equipment` when the
      schedule is for all equipment. */
  function Payload(form: Value): (payload: Value)
    ensures payload.Obj?
    ensures "equipment" in payload.fields <==>
      "equipment" in Spread(form) && !Truthy(Get(form, "for_all_equipment"))
    ensures forall k :: k != "equipment" ==> (k in payload.fields <==> k in Spread(form))
    ensures forall k :: k in payload.fields ==> payload.fields[k] == Spread(form)[k]
  {
    if Truthy(Get(form, "for_all_equipment")) then Obj(Spread(form) - {"equipment"})
    else Obj(Spread(form))
  }

  function ScheduleEndpoint(id: Value): string {
    "/maintenance-schedules/" + ToText(id) + "/"
  }

  /** The request handleSubmit sends: a PUT to the schedule in edit mode, else a POST. */
  function SubmitCall(form: Value, editing: bool): (call: Session.Call)
    ensures call.data == Payload(form)
    ensures editing ==> call.verb == "put" && call.endpoint == ScheduleEndpoint(Get(form, "id"))
    ensures !editing ==> call.verb == "post" && call.endpoint == "/maintenance-schedules/"
  {
    if editing then Session.Call("put", ScheduleEndpoint(Get(form, "id")), Payload(form))
    else Session.Call("post", "/maintenance-schedules/", Payload(form))
  }

  class SchedulesScreen {
    var schedules: seq<Value>
    var currentMonth: Date
    var isModalOpen: bool
    var isEditMode: bool
    var formData: Value
    /** The requests sent, in order, and how many times the schedules were re-fetched. */
    var calls: seq<Session.Call>
    var fetches: nat

    predicate Valid()
      reads this`currentMonth
    {
      ValidDate(currentMonth)
    }

    constructor (today: Date, now: string)
      requires ValidDate(today)
      ensures Valid() && currentMonth == today
      ensures formData == DefaultForm(now) && !isModalOpen && !isEditMode
      ensures schedules == [] && calls == [] && fetches == 0
    {
      schedules, currentMonth := [], today;
      isModalOpen, isEditMode := false, false;
      formData := DefaultForm(now);
      calls, fetches := [], 0;
    }

    method HandlePrevMonth()
      requires Valid()
      modifies this`currentMonth
      ensures Valid() && currentMonth == PrevMonthAsWritten(old(currentMonth))
      ensures MonthNumber(old(currentMonth)) - 1 <= MonthNumber(currentMonth) <= MonthNumber(old(currentMonth))
    {
      AsWrittenNavigationBounds(currentMonth);
      currentMonth := SetMonth(currentMonth, currentMonth.month - 1 - 1);
    }

    method HandleNextMonth()
      requires Valid()
      modifies this`currentMonth
      ensures Valid() && currentMonth == NextMonthAsWritten(old(currentMonth))
      ensures MonthNumber(old(currentMonth)) + 1 <= MonthNumber(currentMonth) <= MonthNumber(old(currentMonth)) + 2
    {
      AsWrittenNavigationBounds(currentMonth);
      currentMonth := SetMonth(currentMonth, currentMonth.month - 1 + 1);
    }

    /** handleOpenModal: a truthy schedule opens it for editing, anything else
        opens a blank form in create mode. */
    method HandleOpenModal(schedule: Value, now: string)
      modifies this`formData, this`isEditMode, this`isModalOpen
      ensures isModalOpen
      ensures Truthy(schedule) ==> formData == EditForm(schedule) && isEditMode
      ensures !Truthy(schedule) ==> formData == DefaultForm(now) && !isEditMode
    {
      if Truthy(schedule) {
        formData := EditForm(schedule);
        isEditMode := true;
      } else {
        formData := DefaultForm(now);
        isEditMode := false;
      }
      isModalOpen := true;
    }

    method HandleCloseModal()
      modifies this`isModalOpen
      ensures !isModalOpen
    {
      isModalOpen := false;
    }

    /** handleInputChange and handleDateChange: a checkbox stores `checked`,
        any other input its value. */
    method HandleInputChange(name: string, isCheckbox: bool, checked: bool, value: Value)
      modifies this`formData
      ensures formData == Obj(Spread(old(formData))[name := if isCheckbox then Bool(checked) else value])
    {
      if isCheckbox {
        formData := Obj(Spread(formData)[name := Bool(checked)]);
      } else {
        formData := Obj(Spread(formData)[name := value]);
      }
    }

    /** handleSubmit: send the payload; unless the request throws, re-fetch and close. */
    method HandleSubmit(api: Session.Call -> Session.RequestResult)
      modifies this`calls, this`fetches, this`isModalOpen
      ensures calls == old(calls) + [SubmitCall(formData, isEditMode)]
      ensures !api(SubmitCall(formData, isEditMode)).Rejected? ==> fetches == old(fetches) + 1 && !isModalOpen
      ensures api(SubmitCall(formData, isEditMode)).Rejected? ==>
        fetches == old(fetches) && isModalOpen == old(isModalOpen)
    {
      var payload := Payload(formData);
      var call;
      if isEditMode {
        call := Session.Call("put", ScheduleEndpoint(Get(formData, "id")), payload);
      } else {
        call := Session.Call("post", "/maintenance-schedules/", payload);
      }
      calls := calls + [call];
      var response := api(call);
      if !response.Rejected? {
        fetches := fetches + 1;
        HandleCloseModal();
      }
    }

    /** handleDelete: nothing without a truthy form id; otherwise a DELETE, then
        re-fetch and close unless it throws. */
    method HandleDelete(api: Session.Call -> Session.RequestResult)
      modifies this`calls, this`fetches, this`isModalOpen
      ensures !Truthy(Get(formData, "id")) ==>
        calls == old(calls) && fetches == old(fetches) && isModalOpen == old(isModalOpen)
      ensures Truthy(Get(formData, "id")) ==>
        var call := Session.Call("delete", ScheduleEndpoint(Get(formData, "id")), Null);
        && calls == old(calls) + [call]
        && (!api(call).Rejected? ==> fetches == old(fetches) + 1 && !isModalOpen)
        && (api(call).Rejected? ==> fetches == old(fetches) && isModalOpen == old(isModalOpen))
    {
      if !Truthy(Get(formData, "id")) {
        return;
      }
      var call := Session.Call("delete", ScheduleEndpoint(Get(formData, "id")), Null);
      calls := calls + [call];
      var response := api(call);
      if !response.Rejected? {
        fetches := fetches + 1;
        HandleCloseModal();
      }
    }
  }

  /** In create mode the form has no id (so handleDelete does nothing), the
      defaults are interval 1, frequency 'once' and not for all equipment, and
      submitting posts a payload that keeps the (null) `equipment` key. */
  lemma CreateModeDefaults(now: string)
    ensures var form := DefaultForm(now);
      && !Truthy(Get(form, "id"))
      && Get(form, "frequency") == Str("once") && Get(form, "interval") == Num(1)
      && !Truthy(Get(form, "for_all_equipment"))
      && SubmitCall(form, false).verb == "post"
      && "equipment" in SubmitCall(form, false).data.fields
      && SubmitCall(form, false).data.fields["equipment"] == Null
  {
    var form := DefaultForm(now);
    assert "equipment" in Spread(form);
  }
}
