/** The display formatters of utils/api.js: snake_case type names to Title Case,
    device-type and department labels, the operational-status badge, and the
    dashboard chart rows built from summary data. */
module Formatters {
  import opened Js
  import Lists

  // ---------------------------------------------------------------------------
  // snake_case to Title Case

  function CapitalizeAll(words: seq<string>): (r: seq<string>)
    ensures |r| == |words|
    ensures forall i :: 0 <= i < |words| ==> r[i] == Capitalize(words[i])
  {
    seq(|words|, i requires 0 <= i < |words| => Capitalize(words[i]))
  }

  /** formatEquipmentTypeName: split on '_', upper-case each word's first
      character, join with spaces. */
  function FormatEquipmentTypeName(typeName: string): string {
    Join(CapitalizeAll(Split(typeName, "_")), " ")
  }

  /** The character-by-character reading of Title Case: each '_' becomes a space,
      and the first character and every character after a '_' is upper-cased. */
  function TitleCaseAt(s: string, i: nat): char
    requires i < |s|
  {
    if s[i] == '_' then ' '
    else if i == 0 || s[i - 1] == '_' then UpperChar(s[i])
    else s[i]
  }

  function TitleCaseReference(s: string): (r: string)
    ensures |r| == |s|
    ensures forall i :: 0 <= i < |s| ==> r[i] == TitleCaseAt(s, i)
  {
    seq(|s|, i requires 0 <= i < |s| => TitleCaseAt(s, i))
  }

  /** formatEquipmentTypeName agrees with the character-by-character reading,
      so it keeps the length and only changes separators and word starts. */
  lemma {:induction false} TypeNameIsTitleCase(s: string)
    ensures FormatEquipmentTypeName(s) == TitleCaseReference(s)
    decreases |s|
  {
    match IndexOf(s, "_")
    case None =>
      NoSeparatorBefore(s, |s|);
      assert Split(s, "_") == [s];
      assert CapitalizeAll([s]) == [Capitalize(s)];
      TitleCaseOfWord(s);
    case Some(k) =>
      var head, rest := s[..k], s[k + 1..];
      NoSeparatorBefore(s, k);
      TypeNameIsTitleCase(rest);
      FormatStep(s, k);
      TitleCaseStep(head, rest);
      assert s == head + "_" + rest;
  }

  /** Helper: before the first '_' there is none. */
  lemma NoSeparatorBefore(s: string, k: nat)
    requires k <= |s|
    requires forall j :: 0 <= j < k ==> !OccursAt(s, "_", j)
    ensures forall i :: 0 <= i < k ==> s[i] != '_'
  {
    forall i | 0 <= i < k
      ensures s[i] != '_'
    {
      assert !OccursAt(s, "_", i);
      assert s[i..i + 1] == [s[i]];
      assert "_" == ['_'];
    }
  }

  /** Helper: one word without '_' is just capitalised. */
  lemma TitleCaseOfWord(w: string)
    requires forall i :: 0 <= i < |w| ==> w[i] != '_'
    ensures TitleCaseReference(w) == Capitalize(w)
  {
  }

  /** Helper: the split at the first '_' peels off one capitalised word. */
  lemma FormatStep(s: string, k: nat)
    requires IndexOf(s, "_") == Some(k)
    ensures FormatEquipmentTypeName(s) == Capitalize(s[..k]) + " " + FormatEquipmentTypeName(s[k + 1..])
  {
    var parts := Split(s[k + 1..], "_");
    assert Split(s, "_") == [s[..k]] + parts;
    assert CapitalizeAll([s[..k]] + parts) == [Capitalize(s[..k])] + CapitalizeAll(parts);
  }

  /** Helper: the reading of `head_rest` is the capitalised head, a space, and the
      reading of the rest. */
  lemma TitleCaseStep(head: string, rest: string)
    requires forall i :: 0 <= i < |head| ==> head[i] != '_'
    ensures TitleCaseReference(head + "_" + rest) == Capitalize(head) + " " + TitleCaseReference(rest)
  {
    var s := head + "_" + rest;
    var k := |head|;
    var l := TitleCaseReference(s);
    var r := Capitalize(head) + " " + TitleCaseReference(rest);
    forall i | 0 <= i < |s|
      ensures l[i] == r[i]
    {
      if i > k + 1 {
        assert s[i - 1] == rest[i - k - 2];
      }
    }
  }

  /** formatDeviceType: the Title Case name followed by ' Device'. */
  function FormatDeviceType(deviceType: string): (r: string)
    ensures |r| == |deviceType| + 7
    ensures r[|deviceType|..] == " Device"
    ensures forall i :: 0 <= i < |deviceType| ==> r[i] == TitleCaseAt(deviceType, i)
  {
    TypeNameIsTitleCase(deviceType);
    FormatEquipmentTypeName(deviceType) + " Device"
  }

  /** formatDepartment of utils/api.js: the first character upper-cased. */
  function FormatDepartment(department: string): (r: string)
    ensures |r| == |department|
    ensures |department| > 0 ==> r[0] == UpperChar(department[0]) && r[1..] == department[1..]
  {
    Capitalize(department)
  }

  // ---------------------------------------------------------------------------
  // Operational status badge

  datatype Badge = Badge(text: string, className: string)

  const BadgeShape := " px-2 py-1 rounded-full text-xs"

  predicate KnownStatus(status: string) {
    status == "functional" || status == "non_functional"
    || status == "under_maintenance" || status == "decommissioned"
  }

  /** formatOperationalStatus (utils/api.js and its copy in Details.js). */
  function FormatOperationalStatus(status: string): (b: Badge)
    ensures status == "functional" ==> b.text == "Functional"
    ensures status == "non_functional" ==> b.text == "Non-Functional"
    ensures status == "under_maintenance" ==> b.text == "Under Maintenance"
    ensures status == "decommissioned" ==> b.text == "Decommissioned"
    ensures !KnownStatus(status) ==> b == Badge(status, "bg-blue-100 text-blue-800" + BadgeShape)
    ensures |b.className| >= |BadgeShape| && b.className[|b.className| - |BadgeShape|..] == BadgeShape
  {
    match status
    case "functional" => Badge("Functional", "bg-green-100 text-green-800" + BadgeShape)
    case "non_functional" => Badge("Non-Functional", "bg-red-100 text-red-800" + BadgeShape)
    case "under_maintenance" => Badge("Under Maintenance", "bg-amber-100 text-amber-800" + BadgeShape)
    case "decommissioned" => Badge("Decommissioned", "bg-gray-100 text-gray-800" + BadgeShape)
    case _ => Badge(status, "bg-blue-100 text-blue-800" + BadgeShape)
  }

  /** Every known status gets its own label, different from its code, and no two
      statuses share a badge colour class unless both are unknown. */
  lemma KnownStatusesAreRelabelled(s1: string, s2: string)
    requires KnownStatus(s1)
    ensures FormatOperationalStatus(s1).text != s1
    ensures s1 != s2 ==> FormatOperationalStatus(s1).className != FormatOperationalStatus(s2).className
  {
  }

  // ---------------------------------------------------------------------------
  // Dashboard chart rows

  const DefaultColor := "#6b7280"

  /** The colour table of formatEquipmentTypesForChart, with its grey default. */
  function TypeColor(key: string): string {
    match key
    case "diagnostic" => "#3b82f6"
    case "monitoring" => "#10b981"
    case "life_support" => "#f97316"
    case "therapeutic" => "#8b5cf6"
    case "lab" => "#ec4899"
    case "hospital_industrial" => "#6b7280"
    case "safety_equipment" => "#64748b"
    case "other" => "#1e293b"
    case _ => DefaultColor
  }

  predicate HasOwnColor(key: string) {
    key in ["diagnostic", "monitoring", "life_support", "therapeutic", "lab", "safety_equipment", "other"]
  }

  datatype TypeSlice = TypeSlice(typeName: string, count: Value, color: string)

  function TypeRow(entry: (string, Value)): TypeSlice {
    TypeSlice(FormatEquipmentTypeName(entry.0), entry.1, TypeColor(entry.0))
  }

  predicate NotTotal(entry: (string, Value)) {
    entry.0 != "total"
  }

  predicate IsTotal(entry: (string, Value)) {
    entry.0 == "total"
  }

  /** formatEquipmentTypesForChart over `Object.entries(typesData)`. */
  function FormatEquipmentTypesForChart(entries: seq<(string, Value)>): (r: seq<TypeSlice>)
    ensures |r| == |Lists.Filter(entries, NotTotal)|
    ensures forall i :: 0 <= i < |r| ==> r[i] == TypeRow(Lists.Filter(entries, NotTotal)[i])
  {
    var kept := Lists.Filter(entries, NotTotal);
    seq(|kept|, i requires 0 <= i < |kept| => TypeRow(kept[i]))
  }

  /** The 'total' entry never becomes a row, every other entry does (in order),
      and a type without a table colour is drawn grey. */
  lemma TypesChartRows(entries: seq<(string, Value)>)
    ensures |FormatEquipmentTypesForChart(entries)| == |entries| - Lists.Count(entries, IsTotal)
    ensures forall e :: e in entries && e.0 != "total" ==> TypeRow(e) in FormatEquipmentTypesForChart(entries)
    ensures forall k :: TypeColor(k) == DefaultColor || HasOwnColor(k)
  {
    CountComplement(entries, NotTotal, IsTotal);
    Lists.CountIsFilterLength(entries, NotTotal);
    var kept := Lists.Filter(entries, NotTotal);
    var r := FormatEquipmentTypesForChart(entries);
    forall e | e in entries && e.0 != "total"
      ensures TypeRow(e) in r
    {
      var i :| 0 <= i < |entries| && entries[i] == e;
      var j :| 0 <= j < |kept| && kept[j] == e;
      assert r[j] == TypeRow(e);
    }
  }

  /** Helper: the elements kept and the elements dropped add up to the list. */
  lemma {:induction false} CountComplement<T>(s: seq<T>, p: T -> bool, q: T -> bool)
    requires forall i :: 0 <= i < |s| ==> q(s[i]) == !p(s[i])
    ensures Lists.Count(s, p) + Lists.Count(s, q) == |s|
  {
    if s != [] {
      CountComplement(s[1..], p, q);
    }
  }

  datatype PieSlice = PieSlice(name: string, value: Value, color: string)

  /** formatEquipmentStatusForPieChart: three fixed slices reading the summary. */
  function FormatEquipmentStatusForPieChart(statusData: Value): (r: seq<PieSlice>)
    requires !statusData.Null? && !statusData.Undefined?
    ensures |r| == 3
    ensures r[0] == PieSlice("Functional", Get(statusData, "functional"), "#4ade80")
    ensures r[1] == PieSlice("Under Maintenance", Get(statusData, "under_maintenance"), "#f97316")
    ensures r[2] == PieSlice("Non-functional", Get(statusData, "non_functional"), "#ef4444")
  {
    [PieSlice("Functional", Get(statusData, "functional"), "#4ade80"),
     PieSlice("Under Maintenance", Get(statusData, "under_maintenance"), "#f97316"),
     PieSlice("Non-functional", Get(statusData, "non_functional"), "#ef4444")]
  }

  /** The activity label of an upcoming schedule. */
  function ActivityTypeLabel(activityType: Value): (text: string)
    ensures !Truthy(activityType) ==> text == "General Maintenance"
    ensures activityType.Str? && activityType.s != "" ==> text == Capitalize(activityType.s)
  {
    if activityType.Str? && activityType.s != "" then Capitalize(activityType.s)
    else "General Maintenance"
  }

  /** One upcoming schedule with its display date and its `activityType` added;
      `display` stands for formatDateForDisplay. */
  function WithLabels(schedule: Value, display: Value -> Value): Value {
    if schedule.Obj? then
      Obj(schedule.fields["formattedDate" := display(Get(schedule, "date"))]
                         ["activityType" := Str(ActivityTypeLabel(Get(schedule, "activity_type")))])
    else schedule
  }

  /** formatUpcomingMaintenanceSchedules: nothing for a missing or empty list,
      otherwise each schedule with its display date and activity label, in order. */
  function FormatUpcomingMaintenanceSchedules(schedules: Value, display: Value -> Value): (r: seq<Value>)
    ensures !schedules.Arr? ==> r == []
    ensures schedules.Arr? ==> |r| == |schedules.items|
    ensures schedules.Arr? ==> forall i :: 0 <= i < |r| && schedules.items[i].Obj? ==>
      r[i].Obj? && r[i].fields.Keys == schedules.items[i].fields.Keys + {"formattedDate", "activityType"}
      && Get(r[i], "activityType") == Str(ActivityTypeLabel(Get(schedules.items[i], "activity_type")))
      && Get(r[i], "formattedDate") == display(Get(schedules.items[i], "date"))
      && forall k :: k in schedules.items[i].fields && k != "formattedDate" && k != "activityType" ==>
           r[i].fields[k] == schedules.items[i].fields[k]
  {
    if !schedules.Arr? then []
    else seq(|schedules.items|, i requires 0 <= i < |schedules.items| => WithLabels(schedules.items[i], display))
  }
}
