/**
 * The two notification feeds of the mobile client: the recipient's inbox
 * (client/src/screens/NotificationsScreen.tsx) and the teacher's sent list
 * (client/src/screens/TeacherNotificationsScreen.tsx). Both keep the loaded
 * items and paging position as screen state, load 20 at a time, append on
 * "load more" and replace on refresh; the inbox also marks items read. The
 * server's answer to each request is a parameter.
 */
module Feed {
  import opened Wrappers
  import opened Text
  import opened Schema
  import opened ClientTypes
  import NotificationRoutes

  /** Which feed a screen shows: the caller's inbox or what the caller sent. */
  datatype Source = Inbox | SentBox

  /** The GET a load issues: which list, which page, how many per page. */
  datatype PageRequest = PageRequest(source: Source, page: int, limit: int)

  /** The body of a notifications page. */
  datatype FeedResponse = FeedResponse(notifications: seq<NotificationItem>, totalPages: int, currentPage: int, total: int)

  const PageSize: int := 20

  /** The path below `/notifications` each feed requests (client/src/services/api.ts). */
  function RequestPath(source: Source): seq<string> {
    match source
    case Inbox => []
    case SentBox => ["sent"]
  }

  /** The teacher's feed asks for a path the notifications router has no handler for,
      so every load of that screen fails, while the inbox reaches the list handler. */
  lemma SentFeedUnrouted()
    ensures NotificationRoutes.Dispatch(NotificationRoutes.NotificationRouter, NotificationRoutes.Get, RequestPath(SentBox)) == None
    ensures NotificationRoutes.Dispatch(NotificationRoutes.NotificationRouter, NotificationRoutes.Get, RequestPath(Inbox)) == Some(0)
  {
    NotificationRoutes.SentHasNoRoute();
    assert NotificationRoutes.RouteMatches(NotificationRoutes.NotificationRouter[0], NotificationRoutes.Get, []);
  }

  /** The alert a failed load falls back to. */
  function LoadFallback(source: Source): string {
    match source
    case Inbox => "Failed to load notifications"
    case SentBox => "Failed to load sent notifications"
  }

  /** The screen state of one feed. */
  class FeedScreen {
    const source: Source
    var notifications: seq<NotificationItem>
    var isLoading: bool
    var refreshing: bool
    var page: int
    var totalPages: int
    var loadingMore: bool

    /** A freshly mounted screen: nothing loaded, on page 1 of 1. */
    constructor(source: Source)
      ensures this.source == source
      ensures notifications == [] && page == 1 && totalPages == 1
      ensures !isLoading && !refreshing && !loadingMore
    {
      this.source := source;
      notifications := [];
      isLoading := false;
      refreshing := false;
      page := 1;
      totalPages := 1;
      loadingMore := false;
    }

    /** `loadNotifications(pageNum, append)` / `loadSentNotifications(pageNum, append)`: request
        page `pageNum` of 20; on success append the page to the list or replace the list with it
        and take over the page number and the page count; on failure keep everything and alert.
        Every flag is down afterwards. */
    method Load(pageNum: int, append: bool, outcome: Outcome<FeedResponse>)
      returns (request: PageRequest, alert: Option<string>)
      modifies this`notifications, this`isLoading, this`refreshing, this`page, this`totalPages, this`loadingMore
      ensures request == PageRequest(source, pageNum, PageSize)
      ensures !isLoading && !refreshing && !loadingMore
      ensures outcome.Success? ==>
        && notifications == (if append then old(notifications) + outcome.value.notifications else outcome.value.notifications)
        && page == pageNum && totalPages == outcome.value.totalPages && alert == None
      ensures outcome.Failure? ==>
        && notifications == old(notifications) && page == old(page) && totalPages == old(totalPages)
        && alert == Some(ErrorText(outcome.message, LoadFallback(source)))
    {
      if !append {
        isLoading := true;
      }
      request := PageRequest(source, pageNum, PageSize);
      alert := None;
      match outcome {
        case Success(response) =>
          if append {
            notifications := notifications + response.notifications;
          } else {
            notifications := response.notifications;
          }
          totalPages := response.totalPages;
          page := pageNum;
        case Failure(message) =>
          alert := Some(ErrorText(message, LoadFallback(source)));
      }
      isLoading := false;
      refreshing := false;
      loadingMore := false;
    }

    /** `onRefresh`: reload page 1, replacing the list. */
    method Refresh(outcome: Outcome<FeedResponse>) returns (request: PageRequest, alert: Option<string>)
      modifies this`notifications, this`isLoading, this`refreshing, this`page, this`totalPages, this`loadingMore
      ensures request == PageRequest(source, 1, PageSize)
      ensures !isLoading && !refreshing && !loadingMore
      ensures outcome.Success? ==> notifications == outcome.value.notifications && page == 1 && totalPages == outcome.value.totalPages
      ensures outcome.Failure? ==> notifications == old(notifications) && page == old(page) && totalPages == old(totalPages)
    {
      refreshing := true;
      request, alert := Load(1, false, outcome);
    }

    /** `loadMore`: nothing while a load-more is running or on the last page; otherwise the
        next page is requested in append mode. */
    method LoadMore(outcome: Outcome<FeedResponse>) returns (request: Option<PageRequest>, alert: Option<string>)
      modifies this`notifications, this`isLoading, this`refreshing, this`page, this`totalPages, this`loadingMore
      ensures old(loadingMore) || old(page) >= old(totalPages) ==>
        request == None && alert == None && unchanged(this)
      ensures !old(loadingMore) && old(page) < old(totalPages) ==>
        && request == Some(PageRequest(source, old(page) + 1, PageSize))
        && !loadingMore && !isLoading && !refreshing
        && (outcome.Success? ==>
              && notifications == old(notifications) + outcome.value.notifications
              && page == old(page) + 1 && totalPages == outcome.value.totalPages)
        && (outcome.Failure? ==> notifications == old(notifications) && page == old(page) && totalPages == old(totalPages))
    {
      if loadingMore || page >= totalPages {
        return None, None;
      }
      loadingMore := true;
      var r;
      r, alert := Load(page + 1, true, outcome);
      request := Some(r);
    }

    /** `markAsRead` (inbox only): an item already read sends nothing; otherwise its id is sent
        and, once the server accepts, every loaded item with that id shows as read. */
    method MarkAsRead(item: NotificationItem, outcome: Outcome<()>) returns (request: Option<string>, alert: Option<string>)
      requires source == Inbox
      modifies this`notifications
      ensures item.isRead ==> request == None && alert == None && notifications == old(notifications)
      ensures !item.isRead ==> request == Some(item.id)
      ensures !item.isRead && outcome.Success? ==> notifications == MarkedRead(old(notifications), item.id) && alert == None
      ensures !item.isRead && outcome.Failure? ==>
        notifications == old(notifications) && alert == Some(ErrorText(outcome.message, "Failed to mark as read"))
    {
      if item.isRead {
        return None, None;
      }
      request := Some(item.id);
      match outcome {
        case Success(_) =>
          notifications := MarkedRead(notifications, item.id);
          alert := None;
        case Failure(message) =>
          alert := Some(ErrorText(message, "Failed to mark as read"));
      }
    }
  }

  /** `prev.map(item => item._id === id ? { ...item, isRead: true } : item)`. */
  function MarkedRead(items: seq<NotificationItem>, id: string): (r: seq<NotificationItem>)
    ensures |r| == |items|
    ensures forall i :: 0 <= i < |r| ==> r[i] == if items[i].id == id then items[i].(isRead := true) else items[i]
  {
    seq(|items|, i requires 0 <= i < |items| => if items[i].id == id then items[i].(isRead := true) else items[i])
  }

  /** Marking leaves the target read and every other item exactly as it was. */
  lemma MarkedReadEffect(items: seq<NotificationItem>, id: string, i: nat)
    requires i < |items|
    ensures items[i].id == id ==> MarkedRead(items, id)[i].isRead
    ensures items[i].id != id ==> MarkedRead(items, id)[i] == items[i]
    ensures MarkedRead(items, id)[i].(isRead := items[i].isRead) == items[i]
  {
  }

  /** Marking the same id again changes nothing. */
  lemma {:induction false} MarkedReadIdempotent(items: seq<NotificationItem>, id: string)
    ensures MarkedRead(MarkedRead(items, id), id) == MarkedRead(items, id)
  {
    var once := MarkedRead(items, id);
    var twice := MarkedRead(once, id);
    forall i | 0 <= i < |once| ensures twice[i] == once[i] {
      if items[i].id == id {
        assert once[i] == items[i].(isRead := true);
      }
    }
  }

  /** The number of unread items. */
  function Unread(items: seq<NotificationItem>): nat {
    if items == [] then 0 else (if items[0].isRead then 0 else 1) + Unread(items[1..])
  }

  /** Marking never adds unread items, and marking an unread item that is loaded removes at least one. */
  lemma {:induction false} MarkedReadLowersUnread(items: seq<NotificationItem>, id: string)
    ensures Unread(MarkedRead(items, id)) <= Unread(items)
    ensures (exists i :: 0 <= i < |items| && items[i].id == id && !items[i].isRead) ==>
      Unread(MarkedRead(items, id)) < Unread(items)
  {
    if items != [] {
      var r := MarkedRead(items, id);
      assert r[1..] == MarkedRead(items[1..], id);
      MarkedReadLowersUnread(items[1..], id);
      if exists i :: 0 <= i < |items| && items[i].id == id && !items[i].isRead {
        var i :| 0 <= i < |items| && items[i].id == id && !items[i].isRead;
        if i > 0 {
          assert items[1..][i - 1].id == id && !items[1..][i - 1].isRead;
        }
      }
    }
  }

  // ---------------------------------------------------------------------
  // formatDate
  // ---------------------------------------------------------------------

  const MinuteMs: int := 60000
  const HourMs: int := 3600000
  const DayMs: int := 86400000

  /** How long ago a notification was created, in the unit the label uses. */
  datatype Age = MinutesAgo(minutes: int) | HoursAgo(hours: int) | DaysAgo(days: int) | LongAgo

  /** The buckets of `formatDate` for `diffMs` milliseconds: `Math.floor` by a positive divisor
      is Dafny's `/`, and the day count is taken from the floored hour count. */
  function AgeOf(diffMs: int): (r: Age)
    ensures r.MinutesAgo? <==> diffMs < HourMs
    ensures r.HoursAgo? <==> HourMs <= diffMs < DayMs
    ensures r.DaysAgo? <==> DayMs <= diffMs < 7 * DayMs
    ensures r.LongAgo? <==> 7 * DayMs <= diffMs
    ensures r.MinutesAgo? ==> r.minutes < 60 && r.minutes * MinuteMs <= diffMs < (r.minutes + 1) * MinuteMs
    ensures r.HoursAgo? ==> 1 <= r.hours < 24 && r.hours * HourMs <= diffMs < (r.hours + 1) * HourMs
    ensures r.DaysAgo? ==> 1 <= r.days < 7 && r.days * DayMs <= diffMs < (r.days + 1) * DayMs
    ensures r.MinutesAgo? ==> r.minutes == diffMs / MinuteMs
    ensures r.HoursAgo? ==> r.hours == diffMs / HourMs
    ensures r.DaysAgo? ==> r.days == diffMs / DayMs
  {
    var hours := diffMs / HourMs;
    var days := hours / 24;
    DaysFromHours(diffMs);
    if hours < 1 then MinutesAgo(diffMs / MinuteMs)
    else if hours < 24 then HoursAgo(hours)
    else if days < 7 then DaysAgo(days)
    else LongAgo
  }

  /** Flooring to hours and then to days is flooring to days. */
  lemma DaysFromHours(diffMs: int)
    ensures (diffMs / HourMs) / 24 == diffMs / DayMs
  {
    var h := diffMs / HourMs;
    var d := h / 24;
    assert diffMs == h * HourMs + diffMs % HourMs;
    assert h == d * 24 + h % 24;
    assert diffMs == d * DayMs + ((h % 24) * HourMs + diffMs % HourMs);
    assert 0 <= (h % 24) * HourMs + diffMs % HourMs < DayMs;
  }

  /** `formatDate`: `"Nm ago"`, `"Nh ago"` or `"Nd ago"` within a week, otherwise `calendar`,
      the locale's rendering of the date, which is not modelled. */
  function FormatDate(createdAt: int, now: int, calendar: string): (r: string)
    ensures now - createdAt >= 7 * DayMs ==> r == calendar
    ensures now - createdAt < 7 * DayMs ==> |r| > 5 && r[|r| - 4..] == " ago"
    ensures now - createdAt < HourMs ==> r == IntToDecimal((now - createdAt) / MinuteMs) + "m ago"
    ensures HourMs <= now - createdAt < DayMs ==> r == IntToDecimal((now - createdAt) / HourMs) + "h ago"
    ensures DayMs <= now - createdAt < 7 * DayMs ==> r == IntToDecimal((now - createdAt) / DayMs) + "d ago"
  {
    match AgeOf(now - createdAt)
    case MinutesAgo(m) => IntToDecimal(m) + "m ago"
    case HoursAgo(h) => IntToDecimal(h) + "h ago"
    case DaysAgo(d) => IntToDecimal(d) + "d ago"
    case LongAgo => calendar
  }

  /** Within the first hour the label reads back as the whole minutes elapsed. */
  lemma MinutesLabel(createdAt: int, now: int, calendar: string)
    requires 0 <= now - createdAt < HourMs
    ensures var m := (now - createdAt) / MinuteMs;
      && 0 <= m < 60
      && FormatDate(createdAt, now, calendar) == NatToDecimal(m) + "m ago"
      && ParseInt(NatToDecimal(m)) == Some(m)
  {
    ParseDecimalRoundTrip((now - createdAt) / MinuteMs);
  }

  // ---------------------------------------------------------------------
  // Icons, colours and labels
  // ---------------------------------------------------------------------

  /** `getNotificationIcon`. */
  function Icon(kind: string): (r: string)
    ensures r in {"school-outline", "calendar-outline", "information-circle-outline"}
  {
    if kind == "grade_update" then "school-outline"
    else if kind == "attendance" then "calendar-outline"
    else "information-circle-outline"
  }

  /** `getNotificationColor`: the theme's success, warning and primary colours. */
  function Colour(kind: string): (r: string)
    ensures r in {"#10b981", "#f59e0b", "#6366f1"}
  {
    if kind == "grade_update" then "#10b981"
    else if kind == "attendance" then "#f59e0b"
    else "#6366f1"
  }

  /** The three notification types get three different icons and colours, and every string
      that is not the name of a grade or attendance notification looks like a general one. */
  lemma IconsDistinguishTypes(a: NotificationType, b: NotificationType, kind: string)
    ensures Icon(NotificationTypeName(a)) == Icon(NotificationTypeName(b)) <==> a == b
    ensures Colour(NotificationTypeName(a)) == Colour(NotificationTypeName(b)) <==> a == b
    ensures ParseNotificationType(kind) !in {Some(GradeUpdate), Some(Attendance)} ==>
      Icon(kind) == Icon(NotificationTypeName(General)) && Colour(kind) == Colour(NotificationTypeName(General))
  {
  }

  /** The sent list's status text. */
  function StatusLabel(isRead: bool): (r: string)
    ensures r == "Read" || r == "Unread"
    ensures (r == "Read") == isRead
  {
    if isRead then "Read" else "Unread"
  }

  /** `word` followed by `suffix` unless exactly one thing is counted. */
  function Plural(count: int, word: string, suffix: string): (r: string)
    ensures |r| >= |word| && r[..|word|] == word
    ensures count == 1 ==> r == word
    ensures count != 1 ==> r[|word|..] == suffix
  {
    if count != 1 then word + suffix else word
  }

  /** The sent list's header: `"N notification(s) sent"`, shown only above a non-empty list. */
  function SentHeader(items: seq<NotificationItem>): (r: Option<string>)
    ensures r.None? <==> items == []
    ensures |items| == 1 ==> r == Some("1 notification sent")
    ensures |items| > 1 ==> r == Some(NatToDecimal(|items|) + " notifications sent")
  {
    if items == [] then None
    else
      var h := NatToDecimal(|items|) + " " + Plural(|items|, "notification", "s") + " sent";
      assert |items| == 1 ==> h == "1 notification sent";
      assert |items| > 1 ==> h == NatToDecimal(|items|) + " notifications sent";
      Some(h)
  }
}
