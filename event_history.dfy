/** The event history list: a newest-first copy of the group's events and
    the text shown for each one. Nothing here changes the events given. */
module EventHistory {
  import opened Js
  import opened Types

  /** Newest first: timestamps never increase along the list. */
  predicate NewestFirst(s: seq<LogEvent>) {
    forall i, j :: 0 <= i < j < |s| ==> s[i].timestamp >= s[j].timestamp
  }

  /** Places `x` in front of the first event no newer than it, so `x` stays
      ahead of the events that tie with it. */
  function Insert(x: LogEvent, s: seq<LogEvent>): (r: seq<LogEvent>)
    ensures |r| == |s| + 1
  {
    if s == [] || s[0].timestamp <= x.timestamp then [x] + s
    else [s[0]] + Insert(x, s[1..])
  }

  /** `[...events].sort((a, b) => b.timestamp - a.timestamp)`, as the
      stable sort ECMAScript requires of `Array.prototype.sort`. */
  function SortNewestFirst(events: seq<LogEvent>): (r: seq<LogEvent>)
    ensures |r| == |events|
  {
    if events == [] then [] else Insert(events[0], SortNewestFirst(events[1..]))
  }

  /** The events of `s` with timestamp `t`, in their order in `s`. */
  function WithTimestamp(s: seq<LogEvent>, t: int): seq<LogEvent> {
    if s == [] then []
    else (if s[0].timestamp == t then [s[0]] else []) + WithTimestamp(s[1..], t)
  }

  lemma {:induction false} InsertPermutes(x: LogEvent, s: seq<LogEvent>)
    ensures multiset(Insert(x, s)) == multiset(s) + multiset{x}
  {
    if s != [] && s[0].timestamp > x.timestamp {
      InsertPermutes(x, s[1..]);
      assert s == [s[0]] + s[1..];
    }
  }

  lemma {:induction false} InsertKeepsOrder(x: LogEvent, s: seq<LogEvent>)
    requires NewestFirst(s)
    ensures NewestFirst(Insert(x, s))
  {
    if s != [] && s[0].timestamp > x.timestamp {
      var tail := s[1..];
      InsertKeepsOrder(x, tail);
      InsertPermutes(x, tail);
      var r := Insert(x, s);
      forall j | 1 <= j < |r|
        ensures s[0].timestamp >= r[j].timestamp
      {
        assert r[j] in multiset(Insert(x, tail));
        assert r[j] == x || r[j] in multiset(tail);
      }
    }
  }

  /** The sorted list holds the same events as the input, as many times each. */
  lemma {:induction false} SortPermutes(events: seq<LogEvent>)
    ensures multiset(SortNewestFirst(events)) == multiset(events)
  {
    if events != [] {
      SortPermutes(events[1..]);
      InsertPermutes(events[0], SortNewestFirst(events[1..]));
      assert events == [events[0]] + events[1..];
    }
  }

  /** The sorted list is newest first. */
  lemma {:induction false} SortOrders(events: seq<LogEvent>)
    ensures NewestFirst(SortNewestFirst(events))
  {
    if events != [] {
      SortOrders(events[1..]);
      InsertKeepsOrder(events[0], SortNewestFirst(events[1..]));
    }
  }

  lemma {:induction false} InsertStable(x: LogEvent, s: seq<LogEvent>, t: int)
    requires NewestFirst(s)
    ensures WithTimestamp(Insert(x, s), t) ==
      if x.timestamp == t then [x] + WithTimestamp(s, t) else WithTimestamp(s, t)
  {
    if s != [] && s[0].timestamp > x.timestamp {
      InsertStable(x, s[1..], t);
      assert Insert(x, s)[1..] == Insert(x, s[1..]);
      if x.timestamp == t {
        assert s[0].timestamp != t;
      }
    } else {
      assert Insert(x, s)[1..] == s;
    }
  }

  /** Events that tie on timestamp keep their relative order. */
  lemma {:induction false} SortStable(events: seq<LogEvent>, t: int)
    ensures WithTimestamp(SortNewestFirst(events), t) == WithTimestamp(events, t)
  {
    if events != [] {
      SortStable(events[1..], t);
      SortOrders(events[1..]);
      InsertStable(events[0], SortNewestFirst(events[1..]), t);
    }
  }

  /** The label `renderEventDetails` shows for each type. */
  function Label(t: EventType): (text: string)
    ensures t == FoodIntake ==> text == "Ate Food"
    ensures t == FridgeStorage ==> text == "Stored in Fridge"
    ensures t == NotificationSent ==> text == "Reminder Sent"
  {
    match t
    case FoodIntake => "Ate Food"
    case FridgeStorage => "Stored in Fridge"
    case NotificationSent => "Reminder Sent"
  }

  /** Different event types never share a label. */
  lemma LabelInjective(t1: EventType, t2: EventType)
    requires Label(t1) == Label(t2)
    ensures t1 == t2
  {
  }

  /** The channel name stored with a notification. */
  function ChannelName(n: NotificationType): string {
    match n
    case Fcm => "FCM"
    case WhatsApp => "WhatsApp"
  }

  /** The text fragments of one row: the label, then "(by name)" when the
      event has a user name, then for a sent reminder with a target name
      "to name (channel)". */
  function Details(e: LogEvent): (parts: seq<string>)
    ensures |parts| >= 1 && parts[0] == Label(e.eventType)
    ensures |parts| == 1 + (if Truthy(e.userName) then 1 else 0)
                          + (if e.eventType == NotificationSent && Truthy(e.targetUserName) then 1 else 0)
    ensures Truthy(e.userName) ==> parts[1] == "(by " + e.userName.value + ")"
    ensures e.eventType == NotificationSent && Truthy(e.targetUserName) ==>
      parts[|parts| - 1] == "to " + e.targetUserName.value + " ("
        + (if e.notificationType.Some? then ChannelName(e.notificationType.value) else "Notification") + ")"
  {
    var byPart := if Truthy(e.userName) then ["(by " + e.userName.value + ")"] else [];
    var targetPart :=
      if e.eventType == NotificationSent && Truthy(e.targetUserName) then
        ["to " + e.targetUserName.value + " ("
         + (if e.notificationType.Some? then ChannelName(e.notificationType.value) else "Notification") + ")"]
      else [];
    [Label(e.eventType)] + byPart + targetPart
  }

  /** One list row: the event's key, its details and its time. */
  datatype Row = Row(key: string, details: seq<string>, timestamp: int)

  /** What the card shows. */
  datatype View = NoEvents | Rows(rows: seq<Row>)

  const NoEventsText := "No events logged yet."

  function RowsOf(sorted: seq<LogEvent>): (rows: seq<Row>)
    ensures |rows| == |sorted|
    ensures forall i :: 0 <= i < |sorted| ==>
      rows[i] == Row(sorted[i].id, Details(sorted[i]), sorted[i].timestamp)
  {
    if sorted == [] then [] else [Row(sorted[0].id, Details(sorted[0]), sorted[0].timestamp)] + RowsOf(sorted[1..])
  }

  /** The component: the empty-state text for no events, else one row per
      event, newest first. */
  function Render(events: seq<LogEvent>): (v: View)
    ensures v == NoEvents <==> events == []
    ensures v.Rows? ==> |v.rows| == |events|
  {
    var sortedEvents := SortNewestFirst(events);
    if |sortedEvents| == 0 then NoEvents else Rows(RowsOf(sortedEvents))
  }

  /** Every event is shown exactly as often as it occurs, and rows run from
      newest to oldest. */
  lemma RenderShowsEveryEventNewestFirst(events: seq<LogEvent>)
    requires events != []
    ensures forall i, j :: 0 <= i < j < |Render(events).rows| ==>
      Render(events).rows[i].timestamp >= Render(events).rows[j].timestamp
    ensures forall e :: multiset(events)[e] == multiset(SortNewestFirst(events))[e]
    ensures forall i :: 0 <= i < |Render(events).rows| ==>
      Render(events).rows[i].details == Details(SortNewestFirst(events)[i])
  {
    SortOrders(events);
    SortPermutes(events);
  }
}
