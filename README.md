# MEMIS admin console — a Dafny model

MEMIS is a medical-equipment management system; this project models the
logic of its React admin console:

- **the session client** (`utils/api.js`): login, logout, access-token
  verification, refresh, the session check, and `authenticatedRequest` with
  its single refresh-and-retry on a 401, over a browser state made of the
  cookie jar, the current location and the log of requests sent;
- **the API wrappers and formatters** (`utils/api.js`): how a wrapper turns a
  request's outcome into `{ success, data | error, status }`, the request each
  wrapper sends, and the display formatters (type names in Title Case, device
  types, departments, status badges, chart rows, upcoming schedules);
- **the list screens** (Equipment, Details, Inventory, Users, Reports,
  Notifications, MaintenanceSchedules): their filters, de-duplicated pick
  lists, page slicing, page-button windows, previous/next targets, the
  monthly activity chart, the month calendar, the notification tabs and
  "mark all as read", and the state each handler leaves behind;
- **the form modals** (InventoryModal, SupplierModal, ReportModal): form
  prefill, validation, the payload sent, the mapping of a failed save back to
  field errors, and the supplier website scheme handling;
- **Settings**: reading the `memis-u` cookie row and the change-password
  request.

Each screen whose handlers update React state is a `class` whose fields are
that state; `setState` is modelled as an immediate assignment, except in two
places of ReportModal where the source's closures read a stale value, which
the model reproduces. The transport (axios), the cookie library, the clock
and the locale-dependent date formatting of the forms and lists are
parameters (the Details chart's month names assume an English locale): an HTTP exchange is a
function from (position in the request log, request) to a reply, so the
properties hold for every server behaviour. Generic JavaScript built-ins the
source relies on (`split`, `indexOf`, `trim`, decimal `parseInt`, `slice`,
`filter`, `find`, `new Set`, and ASCII case mapping) are modelled once in
the modules `Js` and `Lists`, with their own properties proved.

Modules: `Js`, `Lists`, `Paging` (shared helpers), `Session`, `Formatters`
(`utils/api.js`), `EquipmentView`, `DetailsView`, `InventoryView`,
`UsersView`, `NotificationsView`, `SchedulesView`, `ReportsView`,
`InventoryForm`, `SupplierForm`, `ReportForm`, `SettingsView`.

## Model

| member | source | states |
|---|---|---|
| Session.CookieValue | utils/api.js:48 | `Cookies.get` gives the stored text when the key is set and undefined otherwise |
| Session.DetailOr | utils/api.js:29 | the rejection's `response.data.detail` when truthy, else the fixed fallback message |
| Session.Authorization | utils/api.js:102-111 | the Bearer header carries the current access cookie, the text "undefined" when it is missing |
| Session.SessionClient.constructor | utils/api.js:1-6 | a client starts from the given cookies and location with an empty request log |
| Session.SessionClient.VerifyAccessToken | utils/api.js:34-44 | one POST to the verify endpoint; the outcome and the new browser state are those of the verification rule |
| Session.SessionClient.RefreshAccessToken | utils/api.js:46-69 | without a refresh cookie nothing is sent; otherwise one POST, and on success only the access cookie is rewritten |
| Session.SessionClient.CheckUserSession | utils/api.js:71-89 | verify the stored token, fall back to refresh-and-verify; the result and state are those of the session-check rule |
| Session.SessionClient.LoginUser | utils/api.js:8-32 | one POST of the credentials; cookies written only when rememberMe is set |
| Session.SessionClient.LogoutUser | utils/api.js:91-99 | the new browser state is the logout rule applied to the old one |
| Session.SessionClient.AuthenticatedRequest | utils/api.js:114-161 | the result and browser state are those of the request-with-retry rule |
| Session.RefreshCookies | utils/api.js:48-61 | a refresh sends at most one request, and only a successful one changes a cookie: exactly the access cookie |
| Session.NonAuthFailureIsRethrown | utils/api.js:152-160 | a first attempt failing without a 401 is rethrown unchanged after exactly one request |
| Session.AtMostTwoAttempts | utils/api.js:131-146 | one call sends at most two API requests and at most one refresh, the second attempt only after a 401 whose refresh succeeded |
| Session.RefreshFailureRedirects | utils/api.js:147-151 | a 401 whose refresh fails redirects to /login, rejects with 'Authentication failed' and leaves the cookies as they were |
| Session.RetryUsesRefreshedToken | utils/api.js:133-146 | the retry carries the refreshed token and its reply settles the call, even a second 401 |
| Session.UnknownVerbSendsNothing | utils/api.js:120-128 | a verb other than get/post/put/delete sends nothing and resolves to undefined |
| Session.CheckSessionSucceedsIff | utils/api.js:71-89 | the session check succeeds iff the stored token verifies or a refresh succeeds and its token verifies; it never navigates |
| Session.LoginCookieWrites | utils/api.js:15-22 | login writes the refresh, access and user cookies only with rememberMe and on success, and touches no other cookie |
| Session.LogoutRemovesExactlySessionCookies | utils/api.js:91-98 | logout removes exactly the three session cookies, goes to /login, and is idempotent |
| Session.ToMutation | utils/api.js:487-503 | a wrapper succeeds iff its request resolved; failures carry the response body or the fallback message and the status when there is one |
| Session.UpdateEquipmentTargetsSupplier | utils/api.js:582-584 | updateEquipment as written PUTs to the supplier endpoint updateSupplier uses, not the equipment one |
| Session.IntendedUpdateTargetsEquipment | utils/api.js:582-584 | the corrected request PUTs the body to the equipment resource deleteEquipment addresses |
| Formatters.CapitalizeAll | utils/api.js:321 | each word capitalised, in place |
| Formatters.TitleCaseReference | utils/api.js:317-323 | the character-wise Title Case reading keeps the length |
| Formatters.TypeNameIsTitleCase | utils/api.js:317-323 | formatEquipmentTypeName turns each '_' into a space and upper-cases the first letter of every word, nothing else |
| Formatters.FormatDeviceType | utils/api.js:472-478 | the Title Case type followed by " Device" |
| Formatters.FormatDepartment | utils/api.js:481-483 | the first character upper-cased, the rest unchanged |
| Formatters.FormatOperationalStatus | utils/api.js:456-469 | each known status gets its label; an unknown one is shown as is in blue; every badge ends in the common shape classes |
| Formatters.KnownStatusesAreRelabelled | utils/api.js:456-469 | known statuses get a label different from their code and a colour no other status shares |
| Formatters.FormatEquipmentTypesForChart | utils/api.js:294-314 | one chart row per entry other than 'total', in order |
| Formatters.TypesChartRows | utils/api.js:307-313 | the rows are exactly the non-total entries, and a type without its own colour is grey |
| Formatters.FormatEquipmentStatusForPieChart | utils/api.js:326-332 | three fixed slices reading functional, under_maintenance and non_functional |
| Formatters.ActivityTypeLabel | utils/api.js:342-344 | a missing activity type reads 'General Maintenance', a present one is capitalised |
| Formatters.FormatUpcomingMaintenanceSchedules | utils/api.js:335-346 | each schedule keeps its fields and gains its display date and activity label; no list gives nothing |
| Paging.TotalPages | components/Equipment.js:165 | `Math.ceil(len / n)`: enough pages for every item, no empty trailing page, zero only for an empty list |
| Paging.PageSliceContents | components/Equipment.js:162-164 | page p shows at most n items, those at indices (p-1)·n onwards |
| Paging.PageOfIndex | components/Equipment.js:162-171 | every item appears on page i / n + 1, a page within the page count |
| Paging.PagesInRangeAreNonEmpty | components/Equipment.js:162-165 | every page from 1 to the page count shows at least one item |
| Paging.PageZeroIsEmpty | components/Equipment.js:162-164 | page 0 shows nothing |
| Paging.PrevTarget | components/Equipment.js:178 | the previous page, never below 1 |
| Paging.NextTarget | components/Equipment.js:209 | the next page, never above the page count (as written, so 0 for an empty list) |
| Paging.NextFromEmptyListLeavesPageRange | components/Equipment.js:209-210 | on an empty list the next button moves to page 0, which shows nothing |
| Paging.ClampedNextTarget | components/Equipment.js:209 | the corrected next target is a real page and moves forward by one when a later page exists |
| Paging.TargetsStayInRange | components/Equipment.js:178-209 | from a page in range both targets stay in range and move by at most one |
| Paging.FiveWindow | components/Equipment.js:185-195 | min(5, total) buttons, each given by the window rule |
| Paging.FiveWindowShape | components/Equipment.js:185-195 | all pages when at most five, otherwise five consecutive pages starting at 1, total-4 or cur-2 |
| Paging.FiveWindowCoversCurrent | components/Equipment.js:185-201 | every button is a real page and the current page has one |
| Paging.ThreeWindowRange | components/Reports.js:645-653 | pages max(1, cur-1) to min(total, cur+1): at most three, including the current one |
| Paging.EdgeWindowProperties | components/Inventory.js:276-277 | the page list is ascending and holds exactly the pages that are first, last or next to the current one |
| Paging.EdgeButtons | components/Inventory.js:276-290 | one button per listed page, none with a separator drawn |
| Paging.ShowingBounds | components/Inventory.js:256 | the "Showing" bounds stay within the list, are 0 for an empty list and span exactly the shown items |
| Lists.Filter | components/Equipment.js:142 | `filter`: only satisfying elements kept, every satisfying element kept |
| Lists.FilterIsSubsequence | components/Reports.js:72-89 | a filter keeps the original order |
| Lists.FilterThen | components/Reports.js:72-89 | successive filters equal one filter by the conjunction |
| Lists.FilterAll | components/Reports.js:72-89 | a filter that keeps everything changes nothing |
| Lists.FilterExt | components/Reports.js:72-89 | filters agreeing on every element give the same list |
| Lists.FilterAppend | components/Reports.js:72-89 | filtering a list grown by one element grows the result by that element iff it passes |
| Lists.CountIsFilterLength | components/Reports.js:72-89 | the count of satisfying elements is the filtered length |
| Lists.FindIndex | components/Notifications.js:257-262 | the index of the first satisfying element, none when no element satisfies |
| Lists.Find | components/Details.js:192 | `find` returns a satisfying element iff one exists |
| Lists.DistinctByKeys | components/Reports.js:362-370 | de-duplication by key keeps exactly the keys of the list |
| Lists.DistinctByDistinct | components/Reports.js:362-370 | no two survivors share a key |
| Lists.DistinctBySubsequence | components/Reports.js:362-370 | survivors keep their original order |
| Lists.DistinctByFirst | components/Reports.js:362-370 | each survivor is the first element with its key |
| Lists.DistinctByProperties | components/Reports.js:361-372 | the four properties of de-duplication together |
| Lists.DistinctProperties | components/Equipment.js:137-139 | `[...new Set(s)]`: each value once, exactly the values of s, in first-occurrence order |
| Lists.SubsequenceElements | components/Reports.js:72-89 | the elements a filter keeps are elements of the list |
| Js.Get | components/Equipment.js:144 | a property read is the stored value, undefined when missing |
| Js.Or | utils/api.js:29 | `v \|\| d`: v when truthy, else d |
| Js.Lower | components/Equipment.js:144 | ASCII capitals lowered, every other character kept, length kept |
| Js.Capitalize | utils/api.js:482 | an ASCII lower-case first character upper-cased, the rest unchanged |
| Js.IndexOf | components/Notifications.js:153 | the first occurrence of the pattern, none when absent |
| Js.IncludesIff | components/Equipment.js:144 | `includes` holds iff the pattern occurs somewhere |
| Js.IncludesPiece | components/Equipment.js:144 | every contiguous piece of a text is included in it |
| Js.JoinSplit | utils/api.js:319-322 | joining the pieces of a split with the separator gives back the text |
| Js.SplitHead | components/Notifications.js:153-155 | the first piece is the text before the first separator, or all of it |
| Js.SplitPiecesAreSeparatorFree | components/Notifications.js:153-155 | no piece of a split contains the separator |
| Js.RemoveFirst | components/Notifications.js:138 | `replace` with a text pattern removes only its first occurrence |
| Js.TrimStart | components/modals/InventoryModal.js:58-61 | what is removed from the start is whitespace and what remains does not start with it |
| Js.TrimEnd | components/modals/InventoryModal.js:58-61 | what is removed from the end is whitespace and what remains does not end with it |
| Js.TrimEmptyIffBlank | components/modals/InventoryModal.js:58-61 | `trim()` is empty iff the text is whitespace only |
| Js.BlankWhenTrimmedAway | components/Users.js:50 | a text that trims to nothing was whitespace only |
| Js.NatToString | components/Reports.js:83 | decimal text: at least one character, all digits |
| Js.DigitPrefix | components/modals/InventoryModal.js:46 | the longest prefix made of digits |
| Js.ParseIntWithoutDigits | components/modals/InventoryModal.js:46 | a text without digits parses to NaN |
| Js.ParseIntOfDigits | components/Reports.js:83 | a run of digits parses to its value |
| Js.ParseIntOfNegatedDigits | components/Reports.js:88 | a minus sign before digits negates the value |
| Js.ParseIntOfIntToString | components/Reports.js:83 | `parseInt(String(n)) === n` for every integer |
| Js.ClampIndex | components/Equipment.js:164 | a slice index clamped into the list, negative ones counted from the end |
| Js.Slice | components/Equipment.js:164 | `slice` gives the elements between the two clamped indices |
| Js.OneTo | components/Inventory.js:276 | the pages 1 to n |
| DetailsView.TechnicianFilterSpec | components/Details.js:102-109 | 'all' shows every report; otherwise exactly the reports of that technician, in order; a non-array shows nothing |
| DetailsView.UniqueTechniciansSpec | components/Details.js:137-151 | the entries' ids are the distinct technician ids in first-appearance order; each is named `first last` from the first user with that id, or 'Unknown (ID: id)' when none has it |
| DetailsView.TechnicianName | components/Details.js:189-197 | a full name only when the first user with that id has both names, else unknown |
| DetailsView.NoMatchingUserIsUnknown | components/Details.js:189-197 | an id no user has is shown as unknown |
| DetailsView.DepartmentLabel | components/Details.js:173-186 | a known department gets its label, any other is shown as is |
| DetailsView.BumpTotal | components/Details.js:224-230 | counting one report adds at most one to its month's total |
| DetailsView.RecordSlot | components/Details.js:215-230 | recording a report touches only its own month's slot |
| DetailsView.PrepareChartData | components/Details.js:200-238 | the loop computes the chart of the current year's reports |
| DetailsView.TallySlot | components/Details.js:209-231 | a month has a bucket iff some report falls in it, holding that month's counts |
| DetailsView.ChartBuckets | components/Details.js:203-231 | a month's slot is filled iff one of the current year's reports falls in it, and then the chart holds that month's bucket with its counts |
| DetailsView.ChartHoldsOnlyFilledMonths | components/Details.js:203-231 | conversely, every chart entry is the counted bucket of a month that has a current-year report; nothing else appears |
| DetailsView.MonthPosition | components/Details.js:235-236 | `months.indexOf(name)` finds the month with that name |
| DetailsView.ChartSorted | components/Details.js:234-237 | at most one bucket per month, listed January to December |
| DetailsView.ChartTotalBound | components/Details.js:203-231 | the chart counts at most one activity per current-year report, in at most twelve buckets |
| DetailsView.DetailsScreen.constructor | components/Details.js:98-101 | technician 'all', page 1, five per page |
| DetailsView.DetailsScreen.SelectTechnician | components/Details.js:640-641 | the selection changes and paging restarts at page 1 |
| DetailsView.DetailsScreen.ChangeItemsPerPage | components/Details.js:709-710 | the page size changes and paging restarts at page 1 |
| DetailsView.DetailsScreen.Paginate | components/Details.js:154 | the page changes, nothing else |
| DetailsView.DetailsScreen.PreviousPage | components/Details.js:721 | moves to the previous page, never below 1 |
| DetailsView.DetailsScreen.NextPage | components/Details.js:753 | `min(totalPages, currentPage + 1)` as written, so page 0 when no report is shown |
| EquipmentView.FilteredEquipmentSpec | components/Equipment.js:142-153 | an item is shown iff the text matches its name, id or serial and each dropdown filter is empty or equal; order kept |
| EquipmentView.EmptyFilterMentionsAll | components/Equipment.js:144 | the empty search text matches every item |
| EquipmentView.NoFilterShowsAll | components/Equipment.js:142-153 | with no filter set every item is shown |
| EquipmentView.FilteredSuppliersSpec | components/Equipment.js:156-159 | a supplier is shown iff the filter occurs, case-insensitively, in its company name or e-mail; order kept |
| EquipmentView.UniqueValuesSpec | components/Equipment.js:137-139 | each dropdown offers every occurring value exactly once, in first-occurrence order |
| EquipmentView.EquipmentScreen.constructor | components/Equipment.js:37-56 | empty filters, page 1, closed menus and dialogs |
| EquipmentView.EquipmentScreen.ToggleStatusDropdown | components/Equipment.js:220-224 | flips the status menu and closes the other two, so at most one is open |
| EquipmentView.EquipmentScreen.ToggleTypeDropdown | components/Equipment.js:226-230 | flips the type menu and closes the other two, so at most one is open |
| EquipmentView.EquipmentScreen.ToggleDepartmentDropdown | components/Equipment.js:232-236 | flips the department menu and closes the other two, so at most one is open |
| EquipmentView.EquipmentScreen.ResetFilters | components/Equipment.js:130-134 | clears the three dropdown filters; the search text and page stay |
| EquipmentView.EquipmentScreen.ChooseStatus | components/Equipment.js:397-415 | sets the status filter and closes its menu, back to page 1; with at most one menu open before, at most one after |
| EquipmentView.EquipmentScreen.ChooseDeviceType | components/Equipment.js:444-460 | sets the type filter and closes its menu, back to page 1; with at most one menu open before, at most one after |
| EquipmentView.EquipmentScreen.ChooseDepartment | components/Equipment.js:490-506 | sets the department filter and closes its menu, back to page 1; with at most one menu open before, at most one after |
| EquipmentView.EquipmentScreen.PreviousEquipmentPage | components/Equipment.js:668 | moves to the previous page, never below 1 |
| EquipmentView.EquipmentScreen.NextEquipmentPage | components/Equipment.js:675 | `min(totalPages, currentPage + 1)` as written, so page 0 when nothing matches |
| EquipmentView.EquipmentScreen.ChangeItemsPerPage | components/Equipment.js:697 | sets the one page size both tables share; neither page is reset |
| EquipmentView.EquipmentScreen.OpenDeleteModal | components/Equipment.js:276-280 | remembers the target and its kind and opens the dialog |
| EquipmentView.EquipmentScreen.HandleDeleteItem | components/Equipment.js:240-273 | nothing without a target or with an unknown kind; otherwise one DELETE through the matching wrapper, success closing the dialog and re-fetching, failure keeping it |
| InventoryView.FilteredItemsSpec | components/Inventory.js:109-113 | an item is listed iff each set filter equals its field; order kept |
| InventoryView.CategoryOptions | components/Inventory.js:39-40 | each category once, in first-occurrence order, exactly those the items have |
| InventoryView.InventoryScreen.constructor | components/Inventory.js:9-23 | empty list, no filters, page 1, ten per page, delete dialog closed |
| InventoryView.InventoryScreen.ReceiveItems | components/Inventory.js:34-43 | a successful fetch stores the items, their count and the category options |
| InventoryView.InventoryScreen.ReceiveFailure | components/Inventory.js:44-46 | a failed fetch shows the wrapper's error or a fixed message |
| InventoryView.InventoryScreen.FetchThrew | components/Inventory.js:47-49 | a throwing fetch shows the fixed message and keeps the list |
| InventoryView.InventoryScreen.HandleDelete | components/Inventory.js:59-65 | asks for confirmation only when an item has that id, on the first such item (`find`) |
| InventoryView.InventoryScreen.HandleAddNew | components/Inventory.js:66-69 | opens the form with no item selected |
| InventoryView.InventoryScreen.HandleEdit | components/Inventory.js:71-74 | opens the form on the chosen item |
| InventoryView.InventoryScreen.ConfirmDelete | components/Inventory.js:75-91 | success re-fetches and closes the dialog; failure keeps it and shows the error |
| InventoryView.InventoryScreen.HandleCategoryFilter | components/Inventory.js:94-97 | sets the category filter and returns to page 1 |
| InventoryView.InventoryScreen.HandleStockStatusFilter | components/Inventory.js:99-102 | sets the stock filter and returns to page 1 |
| InventoryView.InventoryScreen.HandleItemsPerPageChange | components/Inventory.js:104-107 | sets the page size and returns to page 1 |
| InventoryView.InventoryScreen.NextPage | components/Inventory.js:122-126 | moves on only when a later page exists |
| InventoryView.InventoryScreen.PrevPage | components/Inventory.js:128-132 | moves back only when not on page 1 |
| InventoryView.InventoryScreen.GoToPage | components/Inventory.js:134-136 | moves to the chosen page |
| InventoryView.PageViewSpec | components/Inventory.js:115-120 | at most a page of items, an ascending page list without separators, "Showing" bounds within the filtered list |
| UsersView.SearchResultsSpec | components/Users.js:49-61 | a blank query shows everyone; otherwise exactly the users one of whose four fields contains the lower-cased query, in order |
| UsersView.EditForm | components/Users.js:93-103 | the form has the form's usual keys and holds the user's five copied fields |
| UsersView.FormBody | components/Users.js:119 | the request body is the form's fields |
| UsersView.SubmitCall | components/Users.js:117-123 | a selected user is updated by id, otherwise a new user is registered |
| UsersView.UsersScreen.constructor | components/Users.js:8-25 | no users, empty query, page 1, modals closed |
| UsersView.UsersScreen.SearchEffect | components/Users.js:49-63 | the shown users are the search result and paging restarts at 1 |
| UsersView.UsersScreen.ChangeQuery | components/Users.js:49-63 | a new query re-runs the search |
| UsersView.UsersScreen.ReceiveUsers | components/Users.js:28-42 | data replaces the users and the search re-runs; no data changes nothing |
| UsersView.UsersScreen.FetchFailed | components/Users.js:36-38 | a throwing fetch shows 'Failed to fetch users' and keeps the users |
| UsersView.UsersScreen.PreviousPage | components/Users.js:245 | moves to the previous page, never below 1 |
| UsersView.UsersScreen.NextPage | components/Users.js:258 | moves to the next page, never past the last |
| UsersView.UsersScreen.HandleInputChange | components/Users.js:71-77 | stores the input's value under its name, nothing else |
| UsersView.UsersScreen.HandleAddUser | components/Users.js:80-90 | an empty form with no user selected, modal open |
| UsersView.UsersScreen.HandleEditUser | components/Users.js:93-103 | the form of the chosen user, modal open |
| UsersView.UsersScreen.HandleDeleteClick | components/Users.js:106-109 | selects the user and opens the confirmation |
| UsersView.UsersScreen.HandleSubmit | components/Users.js:112-134 | update or register, then re-fetch and close; a thrown request sets the error and keeps the modal open |
| UsersView.UsersScreen.HandleDeleteConfirm | components/Users.js:137-151 | nothing without a selected user; otherwise a DELETE, then re-fetch and close |
| UsersView.UserPagingSpec | components/Users.js:66-68 | a page starts at (page-1)·10 and holds at most ten users; previous/next stay in range |
| NotificationsView.PartitionSpec | components/Notifications.js:238-244 | the unread and read tabs each keep the input order and hold exactly the notifications of their kind |
| NotificationsView.PartitionMultiset | components/Notifications.js:238-244 | together the tabs hold every notification as often as the input does |
| NotificationsView.MessagePartsSpec | components/Notifications.js:153-155 | the title is the text before the first ': ', the body the text up to the next one |
| NotificationsView.FrequencyUnit | components/Notifications.js:70-73 | daily, weekly and monthly get their unit, everything else years |
| NotificationsView.FrequencyLabelSpec | components/Notifications.js:70-73 | only 'once' is shown bare; every other frequency gets the interval and a unit |
| NotificationsView.FrequencyUnitSpec | components/Notifications.js:70-73 | the four units are distinct and only the three named frequencies escape the default |
| NotificationsView.SchedulePath | components/Notifications.js:138 | the link with its first '/api' removed |
| NotificationsView.NotificationItem.constructor | components/Notifications.js:99-104 | shows the notification's read flag, never opened, not loading |
| NotificationsView.NotificationItem.MarkAsRead | components/Notifications.js:114-127 | one PUT; on success the item shows read and the list refreshes |
| NotificationsView.NotificationItem.OpenStateChanged | components/Notifications.js:107-112 | closing an open unread notification marks it read; the open state is remembered |
| NotificationsView.NotificationItem.FetchScheduleDetails | components/Notifications.js:129-151 | ignored while loading; otherwise a GET whose data opens the dialog |
| NotificationsView.MarkCalls | components/Notifications.js:257-261 | one PUT per notification, in order |
| NotificationsView.MarkAllCount | components/Notifications.js:257-265 | PUTs are sent up to and including the first that throws |
| NotificationsView.NotificationsScreen.constructor | components/Notifications.js:227-233 | both tabs empty, nothing open |
| NotificationsView.NotificationsScreen.Categorize | components/Notifications.js:236-246 | a non-empty list is split into the tabs; an empty one keeps them |
| NotificationsView.NotificationsScreen.HandleToggleNotification | components/Notifications.js:248-250 | toggling the open one closes it; another opens only that one |
| NotificationsView.NotificationsScreen.MarkAllAsRead | components/Notifications.js:252-270 | one PUT per unread notification in order; the first throw ends it and skips the refresh |
| NotificationsView.SendMarks | components/Notifications.js:257-262 | the loop sends exactly the PUTs up to the first failure |
| NotificationsView.MarkAllCoversUnread | components/Notifications.js:257-264 | every PUT targets an unread notification, and a run without failures marks them all |
| SchedulesView.DaysInMonth | components/MaintenanceSchedules.js:166-168 | 28 to 31 days, with the leap-year rule |
| SchedulesView.SetMonth | components/MaintenanceSchedules.js:61-75 | `setMonth` keeps the day and rolls over into the following month when the target month is shorter |
| SchedulesView.MonthNavigationSkipsOrSticks | components/MaintenanceSchedules.js:61-75 | from 31 January next shows March; from 31 March previous stays on March |
| SchedulesView.ShiftMonth | components/MaintenanceSchedules.js:61-75 | the corrected navigation moves by one month, clamping the day to the month's length |
| SchedulesView.ShiftMonthCarriesYear | components/MaintenanceSchedules.js:61-75 | the shift moves by exactly one month, December to January of the next year and back |
| SchedulesView.AsWrittenNavigationBounds | components/MaintenanceSchedules.js:61-75 | as written, next moves one month (day kept) or two (day rolled to 1-3); previous moves one month back (day kept) or stays (day rolled to 1-3) |
| SchedulesView.AsWrittenAgreesUpToThe28th | components/MaintenanceSchedules.js:61-75 | on days 1 to 28 the source's navigation is the corrected one |
| SchedulesView.DaySchedulesSpec | components/MaintenanceSchedules.js:198-201 | a schedule is listed on a day iff its start date is that day |
| SchedulesView.DayCells | components/MaintenanceSchedules.js:187-203 | one cell per day of the month, in order, each with that day's schedules |
| SchedulesView.RenderCalendarDays | components/MaintenanceSchedules.js:165-240 | rows of seven holding the days in order, the last row padded with fillers |
| SchedulesView.GroupDays | components/MaintenanceSchedules.js:184-220 | the loop cuts the days into full rows plus the row being filled |
| SchedulesView.PadRow | components/MaintenanceSchedules.js:223-229 | fillers keyed by column until the row holds seven |
| SchedulesView.EditForm | components/MaintenanceSchedules.js:79-87 | a copy of the schedule with its three date fields always present |
| SchedulesView.Payload | components/MaintenanceSchedules.js:132-137 | the form, without `equipment` when the schedule is for all equipment |
| SchedulesView.SubmitCall | components/MaintenanceSchedules.js:139-143 | a PUT to the schedule in edit mode, else a POST |
| SchedulesView.SchedulesScreen.constructor | components/MaintenanceSchedules.js:7-27 | today's month, the create-mode form, modal closed |
| SchedulesView.SchedulesScreen.HandlePrevMonth | components/MaintenanceSchedules.js:61-67 | `setMonth(getMonth() - 1)` as written: one month back, or the same month after a roll-over |
| SchedulesView.SchedulesScreen.HandleNextMonth | components/MaintenanceSchedules.js:69-75 | `setMonth(getMonth() + 1)` as written: one month on, or two after a roll-over |
| SchedulesView.SchedulesScreen.HandleOpenModal | components/MaintenanceSchedules.js:78-106 | a schedule opens in edit mode with its form; otherwise a blank form in create mode |
| SchedulesView.SchedulesScreen.HandleCloseModal | components/MaintenanceSchedules.js:108-110 | closes the modal, nothing else |
| SchedulesView.SchedulesScreen.HandleInputChange | components/MaintenanceSchedules.js:113-125 | a checkbox stores its checked flag, any other input its value |
| SchedulesView.SchedulesScreen.HandleSubmit | components/MaintenanceSchedules.js:127-150 | sends the payload; unless it throws, re-fetch and close |
| SchedulesView.SchedulesScreen.HandleDelete | components/MaintenanceSchedules.js:152-162 | nothing without an id; otherwise a DELETE, then re-fetch and close unless it throws |
| SchedulesView.CreateModeDefaults | components/MaintenanceSchedules.js:90-103 | a blank form is a one-time schedule, and submitting it posts a payload keeping `equipment` |
| ReportsView.VisibleSpec | components/Reports.js:69-116 | order kept; a report is visible iff it matches the search, the parsed equipment and technician ids, and lies from the start date up to, not including, the local calendar day after the end date |
| ReportsView.NoFiltersShowAll | components/Reports.js:72-113 | with every filter empty all reports are visible |
| ReportsView.SearchNarrows | components/Reports.js:75-79 | adding a search term narrows the visible list to a subsequence |
| ReportsView.SearchStep | components/Reports.js:75-79 | the search stage keeps the reports passing it |
| ReportsView.EquipmentStep | components/Reports.js:82-84 | the equipment stage keeps the reports passing it |
| ReportsView.TechnicianStep | components/Reports.js:87-89 | the technician stage keeps the reports passing it |
| ReportsView.DateStep | components/Reports.js:90-113 | the date stage (either or both bounds, the end pushed by `setDate(getDate() + 1)`) leaves exactly the visible reports |
| ReportsView.FilterReports | components/Reports.js:69-116 | the effect's body, one filter after another, computes exactly the visible reports, end date pushed one local calendar day |
| ReportsView.TechniciansSpec | components/Reports.js:384 | the pick-list is exactly the users whose role is 'Technician', in order |
| ReportsView.TechnicianName | components/Reports.js:492-498 | the first technician with that id, else 'Unknown' |
| ReportsView.PostStatusBadge | components/Reports.js:600-602 | a falsy status shows a grey 'Not Set' |
| ReportsView.ActivityLabelIsCapitalized | components/Reports.js:609-611 | every activity type is shown with its first letter upper-cased |
| ReportsView.UniqueEquipment | components/Reports.js:362-370 | the loop keeps an item only when its id was not seen |
| ReportsView.UniqueEquipmentSpec | components/Reports.js:361-372 | one item per id, the first with that id, in order, every id represented |
| ReportsView.ReportsScreen.constructor | components/Reports.js:8-34 | no reports, no filters, page 1, ten per page |
| ReportsView.ReportsScreen.ApplyFilters | components/Reports.js:69-116 | nothing while there are no reports; otherwise the visible list for the current filters |
| ReportsView.ReportsScreen.ClearFilters | components/Reports.js:118-124 | clears every filter |
| ReportsView.ReportsScreen.Paginate | components/Reports.js:28 | the page changes, nothing else |
| ReportsView.ClearAndApply | components/Reports.js:118-124 | clearing the filters and running the effect shows every report |
| InventoryForm.Prefill | components/modals/InventoryModal.js:19-40 | each missing or falsy field of the item becomes '' (quantity 0); no item gives the defaults |
| InventoryForm.QuantityOf | components/modals/InventoryModal.js:46 | `parseInt(value) \|\| 0` |
| InventoryForm.Entered | components/modals/InventoryModal.js:44-47 | quantity is parsed, any other field stored as typed |
| InventoryForm.NonNumericQuantityIsZero | components/modals/InventoryModal.js:46 | a quantity without digits becomes 0 |
| InventoryForm.MissingIsTrimmedAway | components/modals/InventoryModal.js:58-61 | a checked field is missing iff it is whitespace only |
| InventoryForm.CheckField | components/modals/InventoryModal.js:58-61 | one check flags the field iff its trimmed text is empty; a non-string throws |
| InventoryForm.ValidateSpec | components/modals/InventoryModal.js:55-65 | the four text fields are flagged iff blank, with their own messages; quantity and description never are |
| InventoryForm.CategoryLabels | components/modals/InventoryModal.js:104 | each category option shows its value in Title Case |
| InventoryForm.SaveErrors | components/modals/InventoryModal.js:86-92 | an object error replaces the field errors, anything else becomes the general message |
| InventoryForm.SaveFor | components/modals/InventoryModal.js:77-81 | an item with an id is updated, otherwise created |
| InventoryForm.InventoryModal.constructor | components/modals/InventoryModal.js:7-17 | the empty form, no errors |
| InventoryForm.InventoryModal.Populate | components/modals/InventoryModal.js:19-40 | the form of the item, errors cleared |
| InventoryForm.InventoryModal.HandleChange | components/modals/InventoryModal.js:42-53 | stores the entered value; clears that field's error only when it is set |
| InventoryForm.InventoryModal.Send | components/modals/InventoryModal.js:72-99 | a valid form is saved; success closes, failure shows the errors |
| InventoryForm.InventoryModal.HandleSubmit | components/modals/InventoryModal.js:67-100 | an invalid form shows its errors and sends nothing |
| SupplierForm.StripScheme | components/modals/SupplierModal.js:22-27 | drops a leading 'https://', or else 'http://' |
| SupplierForm.AddScheme | components/modals/SupplierModal.js:66-68 | prepends 'https://' to a non-empty website not starting with 'http' |
| SupplierForm.SchemeRoundTrip | components/modals/SupplierModal.js:22-27 | prefilling a website with a scheme and submitting it unchanged sends it back with 'https://' |
| SupplierForm.AddSchemeIdempotent | components/modals/SupplierModal.js:66-68 | adding the scheme twice is adding it once |
| SupplierForm.Prefill | components/modals/SupplierModal.js:22-34 | the form filled from the supplier, missing fields '' |
| SupplierForm.WithScheme | components/modals/SupplierModal.js:65-68 | the website gets its scheme when it needs one |
| SupplierForm.WithoutScheme | components/modals/SupplierModal.js:82-87 | the original a field is compared with; the website without its scheme |
| SupplierForm.Formatted | components/modals/SupplierModal.js:65-68 | the form with the scheme put back on the website |
| SupplierForm.ChangedFields | components/modals/SupplierModal.js:77-97 | the loop collects exactly the fields that differ from the original |
| SupplierForm.SubmitCallSpec | components/modals/SupplierModal.js:72-111 | an update sends the changed fields, a new supplier is posted whole with the scheme |
| SupplierForm.PrepareSubmit | components/modals/SupplierModal.js:64-112 | computes the request the submit sends |
| SupplierForm.ChangedSpec | components/modals/SupplierModal.js:77-97 | a field is sent iff its value differs from the original |
| SupplierForm.UntouchedFieldsAreNotSent | components/modals/SupplierModal.js:77-97 | an unchanged prefilled form sends none of the other string fields |
| SupplierForm.UntouchedWebsiteIsSent | components/modals/SupplierModal.js:81-95 | an unchanged non-empty website is always sent, since the scheme sits on one side only |
| SupplierForm.SupplierModal.constructor | components/modals/SupplierModal.js:6-15 | the empty form, no errors, not editing |
| SupplierForm.SupplierModal.Populate | components/modals/SupplierModal.js:18-47 | editing iff a supplier is given; its form, or the empty one; errors cleared |
| SupplierForm.SupplierModal.HandleChange | components/modals/SupplierModal.js:49-56 | stores the value and clears that field's error if set |
| SupplierForm.SupplierModal.Settle | components/modals/SupplierModal.js:114-133 | success closes and refreshes; failure shows the response's errors |
| SupplierForm.SupplierModal.HandleSubmit | components/modals/SupplierModal.js:58-140 | sends the prepared request and settles on its answer |
| ReportForm.ErrorsAfterInput | components/modals/ReportModal.js:101-115 | typing clears the field's error, and for date or time the date_time error, both from the same earlier errors |
| ReportForm.InputNeverAddsErrors | components/modals/ReportModal.js:101-115 | every error left after typing was there before |
| ReportForm.IdOf | components/modals/ReportModal.js:138 | a selection is sent as its parsed number, '' when empty |
| ReportForm.Payload | components/modals/ReportModal.js:137-145 | the selections as numbers, an empty post status as null, the texts as typed |
| ReportForm.EmptySelectionsInPayload | components/modals/ReportModal.js:138-143 | an empty selection is sent as '', an empty post status as null |
| ReportForm.FirstMessage | components/modals/ReportModal.js:165-169 | an array error shows its first message, anything else as is |
| ReportForm.ApiFieldErrors | components/modals/ReportModal.js:162-170 | the response's fields replace the earlier errors key by key, the rest stay |
| ReportForm.MapApiErrors | components/modals/ReportModal.js:164-170 | the loop computes those field errors |
| ReportForm.ErrorsAfter | components/modals/ReportModal.js:149-175 | the errors after a submit: a rejection with a body maps its fields onto the errors seen when the submit began; a rejection without one clears the field errors and shows 'Failed to create maintenance report. Please try again.'; any other answer leaves the errors cleared |
| ReportForm.CreatedLeavesNoError | components/modals/ReportModal.js:149-153 | a 201 leaves no error; any other non-rejection neither closes nor shows an error |
| ReportForm.EarlierErrorReturns | components/modals/ReportModal.js:162 | an earlier field error the rejection does not name comes back |
| ReportForm.ReportModal.constructor | components/modals/ReportModal.js:7-33 | the empty form, no errors, empty lists |
| ReportForm.ReportModal.Show | components/modals/ReportModal.js:51-66 | showing the modal clears the errors |
| ReportForm.ReportModal.ReceiveEquipment | components/modals/ReportModal.js:68-78 | a truthy body replaces the equipment list |
| ReportForm.ReportModal.ReceiveTechnicians | components/modals/ReportModal.js:80-92 | the technicians among an array body, order kept; a body that cannot be filtered, or an array holding a null or undefined user, throws and shows 'Failed to load technician data' with the list kept |
| ReportForm.ReportModal.HandleInputChange | components/modals/ReportModal.js:94-116 | stores the value and applies the stale error update |
| ReportForm.ReportModal.Settle | components/modals/ReportModal.js:149-175 | the errors and closing after the POST's answer |
| ReportForm.ReportModal.Post | components/modals/ReportModal.js:147-175 | one POST of the payload, then the answer's effect |
| ReportForm.ReportModal.HandleSubmit | components/modals/ReportModal.js:118-179 | an unreadable date sends nothing; otherwise the POST and its effect |
| SettingsView.UserCookieRow | components/Settings.js:23-25 | the first cookie row starting with 'memis-u=' |
| SettingsView.UserCookieRowIsFirst | components/Settings.js:23-25 | no earlier row starts with the prefix |
| SettingsView.CookieSegment | components/Settings.js:28 | the text after the first '=', up to the next '=' |
| SettingsView.FirstSeparatorOfUserRow | components/Settings.js:28 | in the user row the first '=' is the prefix's own |
| SettingsView.UserCookieRoundTrip | components/Settings.js:23-28 | a cookie holding only the user row reads back the value written |
| SettingsView.NoSeparatorInUserRow | components/Settings.js:23-25 | a row found by the split holds no '; ' |
| SettingsView.PasswordPayload | components/Settings.js:64-67 | the body holds the old and the new password, nothing else |
| SettingsView.SettingsScreen.constructor | components/Settings.js:6-17 | empty form, passwords hidden, loading |
| SettingsView.SettingsScreen.GetUserData | components/Settings.js:21-39 | the user row, when present and readable, becomes the user data, otherwise it is kept; loading ends on every path |
| SettingsView.SettingsScreen.HandleInputChange | components/Settings.js:44-50 | stores the value under its name |
| SettingsView.SettingsScreen.HandleSubmit | components/Settings.js:52-82 | mismatching passwords send nothing; otherwise one PUT to password-change/, success clears the form, failure shows the message |
| SettingsView.SettingsScreen.TogglePasswordVisibility | components/Settings.js:83-95 | flips exactly the named visibility flag |

## Left out

- Rendering (JSX, CSS classes other than the badge colours, icons, modal markup): the model keeps the state and data each screen renders from, not the markup.
- Dashboard, EquipmentModal, ImageModal, the shared Modals, the page components, the login and reset-password screens: not part of this model.
- Real I/O: axios, js-cookie, `document.cookie` and `window.location` are modelled as a browser record plus a transport function from (request number, request) to reply; a wrapper's outcome is a parameter where a screen calls it.
- Concurrency: `Promise.all`, concurrent refreshes and interleaved effects are not modelled; each handler runs to completion before the next.
- Clocks and locale dates: dates are integers or (year, month, day) triples; `new Date()`, `toISOString`, `toLocaleDateString`, formatDateForDisplay and date-fns `format` are parameters, and so is the timestamp `setDate(getDate() + 1)` gives for the Reports end date (ReportsView.DateInput).
- `JSON.parse`, `JSON.stringify` and `decodeURIComponent` are parameters.
- React's asynchronous state: `setState` is an immediate assignment except for the two stale closures of ReportModal, which are modelled as written.
- The inventory wrappers (`getInventoryItems`, `createInventoryItem`, `updateInventoryItem`, `deleteInventoryItem`) are imported but not defined in utils/api.js; their outcomes are parameters.
- filterMaintenanceActivity, formatMaintenanceActivityForChart, formatDateForDisplay and the dashboard fetchers of utils/api.js serve the dashboard, which is not modelled; getEquipmentList and getSuppliersList are modelled only through their results.
- The report detail view, print templating and the report submission of the Reports screen: print formatting is HTML text, not logic.
- Formatters.FormatEquipmentStatusForPieChart: requires a summary that is neither null nor undefined, where the source throws a TypeError.
- Formatters.ActivityTypeLabel: a truthy activity type that is not a string throws in the source; the model labels it 'General Maintenance'.
- Formatters.FormatUpcomingMaintenanceSchedules: a non-array with a length (a string, say) is treated as no list, and an element that is not an object is passed through unchanged, where the source spreads it (`{...5}` is `{}`) or throws on `null.date`.
- SupplierForm.WithScheme: `startsWith` on a truthy non-string website throws in the source; the model keeps such a website unchanged.
- ReportForm.ApiFieldErrors: the index keys of an array or string failure body are not mapped to field errors.
- ReportForm.IdOf: a NaN selection is sent as null, as JSON serialisation writes it.
- SettingsView.SettingsScreen.HandleSubmit: the message axios gives a failed request is a parameter.
- Js.Lower, Js.Capitalize: ASCII letters only. `toLowerCase`/`toUpperCase` map every Unicode letter and can change the length ('İ', 'ß'), so a search for "émile" that matches "ÉMILE" in the source does not match in the model (UsersView.SearchResultsSpec, EquipmentView.FilteredEquipmentSpec, EquipmentView.FilteredSuppliersSpec, ReportsView.VisibleSpec), and "émile" is not capitalised.
- Js.ParseInt: decimal only; the '0x' prefix `parseInt` also accepts is not modelled (its callers parse number inputs and id selections).
- DetailsView.MonthName: an English locale is assumed for `toLocaleString('default', { month: 'short' })`; DetailsView.PrepareChartData and DetailsView.ChartSorted describe that locale only (under another locale `months.indexOf` is -1 for every bucket and the chart keeps insertion order).
- UsersView.SearchResultsSpec, ReportsView.VisibleSpec, EquipmentView.FilteredEquipmentSpec: the searched fields are assumed to be strings; a null field (a missing phone number, say) makes `toLowerCase` throw in the source and the screen fails.
- Strict equality on objects (`===`) is compared structurally; the source compares references.

## Findings

| source | as written | input that shows it | evidently intended | confidence | as-written member | corrected member |
|---|---|---|---|---|---|---|
| components/Equipment.js:209 | next sets `Math.min(totalPages, currentPage + 1)` | a filter matching nothing gives totalPages 0, so next moves to page 0, which stays empty after items match again | never go below page 1 | not executed | Paging.NextFromEmptyListLeavesPageRange | Paging.TargetsStayInRange |
| components/MaintenanceSchedules.js:61-75 | `setMonth(getMonth() ± 1)` on a date keeping its day | 31 January 2025, next shows March; 31 March, previous stays on March | move one calendar month | not executed | SchedulesView.MonthNavigationSkipsOrSticks | SchedulesView.ShiftMonthCarriesYear |
| utils/api.js:582-584 | updateEquipment PUTs to `/suppliers/{id}/` | id 5 sends PUT /suppliers/5/ | PUT /equipment/5/ | not executed | Session.UpdateEquipmentTargetsSupplier | Session.IntendedUpdateTargetsEquipment |
