/** The notification list (components/Notifications.js): the unread/read
    partition, the single open notification, the title/description split of a
    message, mark-as-read on close, "mark all as read", and the labels of the
    schedule dialog. */
module NotificationsView {
  import opened Js
  import Lists
  import Session

  datatype NotificationRow = NotificationRow(id: Value, message: string, isRead: Value, link: string)

  predicate Unread(n: NotificationRow) {
    !Truthy(n.isRead)
  }

  predicate Read(n: NotificationRow) {
    Truthy(n.isRead)
  }

  function UnreadOf(ns: seq<NotificationRow>): seq<NotificationRow> {
    Lists.Filter(ns, Unread)
  }

  function ReadOf(ns: seq<NotificationRow>): seq<NotificationRow> {
    Lists.Filter(ns, Read)
  }

  /** The two tabs split the list: each keeps the input order, and together they
      hold every notification exactly as often as the input does. */
  lemma PartitionSpec(ns: seq<NotificationRow>)
    ensures Lists.Subsequence(UnreadOf(ns), ns) && Lists.Subsequence(ReadOf(ns), ns)
    ensures multiset(UnreadOf(ns)) + multiset(ReadOf(ns)) == multiset(ns)
    ensures forall n :: n in UnreadOf(ns) ==> !Truthy(n.isRead)
    ensures forall n :: n in ReadOf(ns) ==> Truthy(n.isRead)
  {
    Lists.FilterIsSubsequence(ns, Unread);
    Lists.FilterIsSubsequence(ns, Read);
    PartitionMultiset(ns);
  }

  lemma {:induction false} PartitionMultiset(ns: seq<NotificationRow>)
    ensures multiset(UnreadOf(ns)) + multiset(ReadOf(ns)) == multiset(ns)
    decreases |ns|
  {
    if ns != [] {
      var x, tail := ns[0], ns[1..];
      PartitionMultiset(tail);
      assert ns == [x] + tail;
      if Unread(x) {
        assert UnreadOf(ns) == [x] + UnreadOf(tail);
        assert ReadOf(ns) == ReadOf(tail);
      } else {
        assert UnreadOf(ns) == UnreadOf(tail);
        assert ReadOf(ns) == [x] + ReadOf(tail);
      }
    }
  }

  // ---------------------------------------------------------------------------
  // The message

  const TitleSeparator := ": "

  /** `message.split(': ')[0]`. */
  function Title(message: string): string {
    Split(message, TitleSeparator)[0]
  }

  /** `parts.length > 1 ? parts[1] : ''`. */
  function Description(message: string): string {
    var parts := Split(message, TitleSeparator);
    if |parts| > 1 then parts[1] else ""
  }

  /** The title is the text before the first ': ' (all of it when there is none)
      and never contains ': '; the description is the text after it, up to the
      next ': ' if any. */
  lemma MessagePartsSpec(message: string)
    ensures IndexOf(message, TitleSeparator).None? ==> Title(message) == message && Description(message) == ""
    ensures IndexOf(message, TitleSeparator).Some? ==>
      var i := IndexOf(message, TitleSeparator).value;
      var rest := message[i + 2..];
      && Title(message) == message[..i]
      && (IndexOf(rest, TitleSeparator).None? ==> Description(message) == rest)
      && (IndexOf(rest, TitleSeparator).Some? ==>
            Description(message) == rest[..IndexOf(rest, TitleSeparator).value])
    ensures !Includes(Title(message), TitleSeparator)
  {
    SplitHead(message, TitleSeparator);
    SplitPiecesAreSeparatorFree(message, TitleSeparator);
    if IndexOf(message, TitleSeparator).Some? {
      var i := IndexOf(message, TitleSeparator).value;
      SplitHead(message[i + 2..], TitleSeparator);
    }
  }

  // ---------------------------------------------------------------------------
  // The schedule dialog

  /** The unit after the interval; every frequency other than daily, weekly and
      monthly (biweekly included) is shown in years. */
  function FrequencyUnit(frequency: string): (unit: string)
    ensures frequency == "biweekly" ==> unit == "year(s)"
  {
    if frequency == "daily" then "day(s)"
    else if frequency == "weekly" then "week(s)"
    else if frequency == "monthly" then "month(s)"
    else "year(s)"
  }

  /** The frequency line: the frequency, then " (every N unit)" unless it is 'once'. */
  function FrequencyLabel(frequency: string, interval: Value): string {
    frequency + (if frequency != "once"
                 then " (every " + ToText(interval) + " " + FrequencyUnit(frequency) + ")"
                 else "")
  }

  /** Only 'once' is shown bare; every other frequency gets the interval and a
      unit, which is years for anything but daily, weekly and monthly. */
  lemma FrequencyLabelSpec(frequency: string, interval: Value)
    ensures FrequencyLabel(frequency, interval) == frequency <==> frequency == "once"
    ensures frequency != "once" ==>
      var line := FrequencyLabel(frequency, interval);
      line[..|frequency|] == frequency && line[|line| - 1] == ')'
  {
    var line := FrequencyLabel(frequency, interval);
    if frequency != "once" {
      assert |line| > |frequency|;
    }
  }

  /** The four named units are distinct, and only the three named frequencies
      escape the default. */
  lemma FrequencyUnitSpec(frequency: string)
    ensures FrequencyUnit(frequency) == "year(s)" <==>
      frequency != "daily" && frequency != "weekly" && frequency != "monthly"
  {
  }

  /** The schedule request path: the link with its first '/api' removed. */
  function SchedulePath(link: string): (path: string)
    ensures IndexOf(link, "/api").None? ==> path == link
    ensures IndexOf(link, "/api").Some? ==>
      |path| == |link| - 4 && path == link[..IndexOf(link, "/api").value] + link[IndexOf(link, "/api").value + 4..]
  {
    RemoveFirst(link, "/api")
  }

  function MarkReadCall(id: Value): Session.Call {
    Session.Call("put", "/notifications/" + ToText(id) + "/", Obj(map["is_read" := Bool(true)]))
  }

  // ---------------------------------------------------------------------------
  // One notification

  class NotificationItem {
    const notification: NotificationRow
    var isRead: bool
    var loading: bool
    var wasOpen: bool
    var isModalOpen: bool
    var scheduleData: Value
    var fetchingSchedule: bool
    /** The requests sent, in order, and how many times the list was refreshed. */
    var calls: seq<Session.Call>
    var refreshes: nat

    constructor (n: NotificationRow)
      ensures notification == n && isRead == Truthy(n.isRead) && !wasOpen
      ensures calls == [] && refreshes == 0 && !loading && !fetchingSchedule
    {
      notification := n;
      isRead := Truthy(n.isRead);
      loading, wasOpen, isModalOpen := false, false, false;
      scheduleData := Null;
      fetchingSchedule := false;
      calls, refreshes := [], 0;
    }

    /** markAsRead: one PUT; on success the item shows read and the list refreshes. */
    method MarkAsRead(api: Session.Call -> Session.RequestResult)
      modifies this`calls, this`isRead, this`refreshes, this`loading
      ensures calls == old(calls) + [MarkReadCall(notification.id)]
      ensures !api(MarkReadCall(notification.id)).Rejected? ==> isRead && refreshes == old(refreshes) + 1
      ensures api(MarkReadCall(notification.id)).Rejected? ==> isRead == old(isRead) && refreshes == old(refreshes)
      ensures !loading
    {
      loading := true;
      var call := MarkReadCall(notification.id);
      calls := calls + [call];
      var response := api(call);
      if !response.Rejected? {
        isRead := true;
        refreshes := refreshes + 1;
      }
      loading := false;
    }

    /** The open/closed effect: an unread notification that was open and is now
        closed is marked read; the previous open state is then remembered. */
    method OpenStateChanged(isOpen: bool, api: Session.Call -> Session.RequestResult)
      modifies this`calls, this`isRead, this`refreshes, this`loading, this`wasOpen
      ensures wasOpen == isOpen
      ensures old(wasOpen) && !isOpen && !old(isRead) ==>
        calls == old(calls) + [MarkReadCall(notification.id)]
        && (!api(MarkReadCall(notification.id)).Rejected? ==> isRead)
      ensures !(old(wasOpen) && !isOpen && !old(isRead)) ==> calls == old(calls) && isRead == old(isRead)
    {
      if wasOpen && !isOpen && !isRead {
        MarkAsRead(api);
      }
      wasOpen := isOpen;
    }

    /** fetchScheduleDetails: ignored while a fetch is under way; otherwise a GET
        of the schedule path, whose data opens the dialog. */
    method FetchScheduleDetails(api: Session.Call -> Session.RequestResult)
      modifies this`calls, this`scheduleData, this`isModalOpen, this`fetchingSchedule
      ensures old(fetchingSchedule) ==> calls == old(calls) && isModalOpen == old(isModalOpen)
      ensures !old(fetchingSchedule) ==>
        var call := Session.Call("get", SchedulePath(notification.link), Null);
        && calls == old(calls) + [call]
        && !fetchingSchedule
        && (api(call).Resolved? ==> scheduleData == api(call).data && isModalOpen)
        && (api(call).Rejected? ==> scheduleData == old(scheduleData) && isModalOpen == old(isModalOpen))
    {
      if fetchingSchedule {
        return;
      }
      fetchingSchedule := true;
      var call := Session.Call("get", SchedulePath(notification.link), Null);
      calls := calls + [call];
      var response := api(call);
      if response.Resolved? {
        scheduleData := response.data;
        isModalOpen := true;
      } else if response.ResolvedUndefined? {
        // `response.data` of undefined throws; the catch only logs.
      }
      fetchingSchedule := false;
    }
  }

  // ---------------------------------------------------------------------------
  // The list

  /** Whether marking this notification read would throw. */
  function FailsToMark(api: Session.Call -> Session.RequestResult): NotificationRow -> bool {
    (n: NotificationRow) => api(MarkReadCall(n.id)).Rejected?
  }

  /** The PUTs of the first `k` notifications. */
  function MarkCalls(ns: seq<NotificationRow>, k: nat): (calls: seq<Session.Call>)
    requires k <= |ns|
    ensures |calls| == k
    ensures forall j :: 0 <= j < k ==> calls[j] == MarkReadCall(ns[j].id)
  {
    if k == 0 then [] else MarkCalls(ns, k - 1) + [MarkReadCall(ns[k - 1].id)]
  }

  /** How many PUTs "mark all as read" sends: up to and including the first that throws. */
  function MarkAllCount(ns: seq<NotificationRow>, api: Session.Call -> Session.RequestResult): (k: nat)
    ensures k <= |ns|
  {
    match Lists.FindIndex(ns, FailsToMark(api))
    case None => |ns|
    case Some(i) => i + 1
  }

  class NotificationsScreen {
    var unread: seq<NotificationRow>
    var read: seq<NotificationRow>
    var openNotificationId: Option<Value>
    var markingAllAsRead: bool
    var calls: seq<Session.Call>
    var refreshes: nat

    constructor ()
      ensures unread == [] && read == [] && openNotificationId == None
      ensures !markingAllAsRead && calls == [] && refreshes == 0
    {
      unread, read, openNotificationId := [], [], None;
      markingAllAsRead := false;
      calls, refreshes := [], 0;
    }

    /** The categorising effect: an absent or empty list keeps the tabs as they were. */
    method Categorize(notifications: Option<seq<NotificationRow>>)
      modifies this`unread, this`read
      ensures notifications.Some? && |notifications.value| > 0 ==>
        unread == UnreadOf(notifications.value) && read == ReadOf(notifications.value)
      ensures !(notifications.Some? && |notifications.value| > 0) ==>
        unread == old(unread) && read == old(read)
    {
      if notifications.Some? && |notifications.value| > 0 {
        unread := Lists.Filter(notifications.value, Unread);
        read := Lists.Filter(notifications.value, Read);
      }
    }

    /** Toggling the open notification closes it; toggling another opens only that one. */
    method HandleToggleNotification(id: Value)
      modifies this`openNotificationId
      ensures old(openNotificationId) == Some(id) ==> openNotificationId == None
      ensures old(openNotificationId) != Some(id) ==> openNotificationId == Some(id)
    {
      if openNotificationId == Some(id) {
        openNotificationId := None;
      } else {
        openNotificationId := Some(id);
      }
    }

    /** markAllAsRead: one PUT per unread notification, in order, each awaited;
        the first that throws ends the loop and the refresh is skipped. */
    method MarkAllAsRead(api: Session.Call -> Session.RequestResult)
      modifies this`calls, this`refreshes, this`markingAllAsRead
      ensures calls == old(calls) + MarkCalls(unread, MarkAllCount(unread, api))
      ensures Lists.FindIndex(unread, FailsToMark(api)).None? ==> refreshes == old(refreshes) + 1
      ensures Lists.FindIndex(unread, FailsToMark(api)).Some? ==> refreshes == old(refreshes)
      ensures !markingAllAsRead
    {
      markingAllAsRead := true;
      var sent, failed := SendMarks(unread, api);
      calls := calls + sent;
      if !failed {
        refreshes := refreshes + 1;
      }
      markingAllAsRead := false;
    }
  }

  /** The loop of markAllAsRead: each PUT awaited in turn until one throws. */
  method SendMarks(ns: seq<NotificationRow>, api: Session.Call -> Session.RequestResult)
    returns (sent: seq<Session.Call>, failed: bool)
    ensures sent == MarkCalls(ns, MarkAllCount(ns, api))
    ensures failed <==> Lists.FindIndex(ns, FailsToMark(api)).Some?
  {
    sent := [];
    var i := 0;
    while i < |ns|
      invariant 0 <= i <= |ns|
      invariant forall j :: 0 <= j < i ==> !Fails(api, ns[j])
      invariant sent == MarkCalls(ns, i)
    {
      var call := MarkReadCall(ns[i].id);
      sent := sent + [call];
      assert sent == MarkCalls(ns, i + 1);
      var response := api(call);
      if response.Rejected? {
        FailureAt(ns, api, i);
        return sent, true;
      }
      i := i + 1;
    }
    NoFailure(ns, api);
    failed := false;
  }

  predicate Fails(api: Session.Call -> Session.RequestResult, n: NotificationRow) {
    api(MarkReadCall(n.id)).Rejected?
  }

  /** Helper: the first PUT that throws is where the loop stops. */
  lemma FailureAt(ns: seq<NotificationRow>, api: Session.Call -> Session.RequestResult, i: nat)
    requires i < |ns| && Fails(api, ns[i])
    requires forall j :: 0 <= j < i ==> !Fails(api, ns[j])
    ensures Lists.FindIndex(ns, FailsToMark(api)) == Some(i)
    ensures MarkAllCount(ns, api) == i + 1
  {
    assert FailsToMark(api)(ns[i]);
  }

  /** Helper: when no PUT throws the loop runs to the end. */
  lemma NoFailure(ns: seq<NotificationRow>, api: Session.Call -> Session.RequestResult)
    requires forall j :: 0 <= j < |ns| ==> !Fails(api, ns[j])
    ensures Lists.FindIndex(ns, FailsToMark(api)).None?
    ensures MarkAllCount(ns, api) == |ns|
  {
    assert forall j :: 0 <= j < |ns| ==> !FailsToMark(api)(ns[j]);
  }

  /** Every PUT of "mark all as read" targets an unread notification, none twice
      when ids are distinct, and a run where nothing throws marks all of them. */
  lemma MarkAllCoversUnread(ns: seq<NotificationRow>, api: Session.Call -> Session.RequestResult)
    ensures Lists.FindIndex(ns, FailsToMark(api)).None? ==>
      (MarkCalls(ns, MarkAllCount(ns, api)) == seq(|ns|, j requires 0 <= j < |ns| => MarkReadCall(ns[j].id)))
    ensures forall c :: c in MarkCalls(ns, MarkAllCount(ns, api)) ==>
      exists j :: 0 <= j < |ns| && c == MarkReadCall(ns[j].id)
  {
  }
}
