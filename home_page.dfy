/** The journal's home page: the live view of the group's event timeline
    (snapshot documents validated and mapped to events) and the record a
    member writes when logging an event. */
module HomePage {
  import opened Js
  import opened Types
  import opened Auth

  /** An event document as the snapshot delivers it. Fields that may be
      absent or empty in a stored document are nullable here. */
  datatype EventDoc = EventDoc(
    id: string,
    eventType: Option<EventType>,
    timestamp: Option<int>,
    userId: Option<string>,
    userName: Option<string>,
    groupId: Option<string>,
    targetUserId: Option<string>,
    targetUserName: Option<string>,
    notificationType: Option<NotificationType>)

  /** The "basic validation" of a snapshot document: type, timestamp,
      userId and groupId all present (and the strings non-empty). */
  predicate IsValidEventDoc(d: EventDoc) {
    d.eventType.Some? && d.timestamp.Some? && Truthy(d.userId) && Truthy(d.groupId)
  }

  const UnknownUser := "Unknown User"

  /** The event the listener pushes for a valid document, as the code is
      written: only six fields are copied, and the notification fields of
      the stored document are dropped. */
  function ToLogEventAsWritten(d: EventDoc): (e: LogEvent)
    requires IsValidEventDoc(d)
    ensures e.id == d.id && e.eventType == d.eventType.value && e.timestamp == d.timestamp.value
    ensures Some(e.userId) == d.userId && Some(e.groupId) == d.groupId
    ensures Truthy(d.userName) ==> e.userName == d.userName
    ensures !Truthy(d.userName) ==> e.userName == Some(UnknownUser)
    ensures e.targetUserId.None? && e.targetUserName.None? && e.notificationType.None?
  {
    LogEvent(d.id, d.eventType.value, d.timestamp.value, d.userId.value,
             Some(Or(d.userName, UnknownUser)), d.groupId.value, None, None, None)
  }

  /** The event a valid document evidently maps to: the six fields above,
      plus the notification fields that `LogEvent` declares, the reminder
      action writes and the history list shows. The rest of the model uses
      this mapping. */
  function ToLogEvent(d: EventDoc): (e: LogEvent)
    requires IsValidEventDoc(d)
    ensures e.id == d.id && e.eventType == d.eventType.value && e.timestamp == d.timestamp.value
    ensures Some(e.userId) == d.userId && Some(e.groupId) == d.groupId
    ensures Truthy(d.userName) ==> e.userName == d.userName
    ensures !Truthy(d.userName) ==> e.userName == Some(UnknownUser)
    ensures e.targetUserId == d.targetUserId && e.targetUserName == d.targetUserName
    ensures e.notificationType == d.notificationType
  {
    LogEvent(d.id, d.eventType.value, d.timestamp.value, d.userId.value,
             Some(Or(d.userName, UnknownUser)), d.groupId.value,
             d.targetUserId, d.targetUserName, d.notificationType)
  }

  /** The two mappings differ in the notification fields only. */
  lemma MappingsDifferInNotificationFields(d: EventDoc)
    requires IsValidEventDoc(d)
    ensures ToLogEventAsWritten(d) == ToLogEvent(d).(targetUserId := None, targetUserName := None, notificationType := None)
  {
  }

  /** What one snapshot yields: the valid documents, mapped, in snapshot order. */
  function ValidEvents(docs: seq<EventDoc>): (r: seq<LogEvent>)
    ensures |r| <= |docs|
  {
    if docs == [] then []
    else
      var last := docs[|docs| - 1];
      ValidEvents(docs[..|docs| - 1]) + (if IsValidEventDoc(last) then [ToLogEvent(last)] else [])
  }

  /** The snapshot positions of the documents that pass validation, ascending. */
  function KeptIndices(docs: seq<EventDoc>): (r: seq<nat>)
    ensures forall k :: 0 <= k < |r| ==> r[k] < |docs|
  {
    if docs == [] then []
    else
      KeptIndices(docs[..|docs| - 1]) + (if IsValidEventDoc(docs[|docs| - 1]) then [|docs| - 1] else [])
  }

  /** The kept positions ascend, and a position is kept exactly when its
      document is valid. */
  lemma {:induction false} KeptIndicesExact(docs: seq<EventDoc>)
    ensures forall k, l :: 0 <= k < l < |KeptIndices(docs)| ==> KeptIndices(docs)[k] < KeptIndices(docs)[l]
    ensures forall j :: 0 <= j < |docs| ==> (j in KeptIndices(docs) <==> IsValidEventDoc(docs[j]))
  {
    if docs != [] {
      var n := |docs| - 1;
      var init := docs[..n];
      KeptIndicesExact(init);
      var ks := KeptIndices(init);
      assert KeptIndices(docs) == ks + (if IsValidEventDoc(docs[n]) then [n] else []);
      assert forall j :: 0 <= j < n ==> init[j] == docs[j];
    }
  }

  /** Kept documents appear in the result in the order of the snapshot:
      the k-th event is the mapping of the k-th kept document. */
  lemma {:induction false} ValidEventsOrder(docs: seq<EventDoc>)
    ensures |ValidEvents(docs)| == |KeptIndices(docs)|
    ensures forall k :: 0 <= k < |KeptIndices(docs)| ==>
      IsValidEventDoc(docs[KeptIndices(docs)[k]]) && ValidEvents(docs)[k] == ToLogEvent(docs[KeptIndices(docs)[k]])
  {
    if docs != [] {
      var n := |docs| - 1;
      var init := docs[..n];
      ValidEventsOrder(init);
      var ks := KeptIndices(init);
      assert KeptIndices(docs) == ks + (if IsValidEventDoc(docs[n]) then [n] else []);
      assert ValidEvents(docs) == ValidEvents(init) + (if IsValidEventDoc(docs[n]) then [ToLogEvent(docs[n])] else []);
      assert forall k :: 0 <= k < |ks| ==> init[ks[k]] == docs[ks[k]];
    }
  }

  /** Every event of the view names a user, a group and a user name. */
  lemma {:induction false} ValidEventsWellFormed(docs: seq<EventDoc>)
    ensures forall e :: e in ValidEvents(docs) ==> e.userId != "" && e.groupId != "" && Truthy(e.userName)
  {
    if docs != [] {
      ValidEventsWellFormed(docs[..|docs| - 1]);
    }
  }

  /** A snapshot of valid documents loses none of them. */
  lemma {:induction false} AllValidKeepsAll(docs: seq<EventDoc>)
    requires forall j :: 0 <= j < |docs| ==> IsValidEventDoc(docs[j])
    ensures |ValidEvents(docs)| == |docs|
  {
    if docs != [] {
      AllValidKeepsAll(docs[..|docs| - 1]);
    }
  }

  /** The snapshot callback's `forEach` with its `push` into `fetchedEvents`. */
  method MapSnapshot(docs: seq<EventDoc>) returns (fetchedEvents: seq<LogEvent>)
    ensures fetchedEvents == ValidEvents(docs)
  {
    fetchedEvents := [];
    var i := 0;
    while i < |docs|
      invariant i <= |docs|
      invariant fetchedEvents == ValidEvents(docs[..i])
    {
      var d := docs[i];
      assert docs[..i + 1][..i] == docs[..i];
      if IsValidEventDoc(d) {
        fetchedEvents := fetchedEvents + [ToLogEvent(d)];
      }
      i := i + 1;
    }
    assert docs[..|docs|] == docs;
  }

  /** The record `handleLogEvent` writes, or None when the guard refuses:
      no user, no profile, or a profile without a group. */
  function EventRecord(user: Option<AuthUser>, userProfile: Option<UserProfile>, eventType: EventType, timestamp: int)
    : (r: Option<NewLogEvent>)
    ensures r.None? <==> user.None? || userProfile.None? || !Truthy(userProfile.value.groupId)
    ensures r.Some? ==>
      && r.value.eventType == eventType && r.value.timestamp == timestamp
      && r.value.userId == user.value.uid
      && Some(r.value.groupId) == userProfile.value.groupId
      && r.value.targetUserId.None? && r.value.targetUserName.None? && r.value.notificationType.None?
    ensures r.Some? && userProfile.value.displayName != "" ==> r.value.userName == Some(userProfile.value.displayName)
    ensures r.Some? && userProfile.value.displayName == "" && Truthy(user.value.email) ==> r.value.userName == user.value.email
    ensures r.Some? && userProfile.value.displayName == "" && !Truthy(user.value.email) ==> r.value.userName == Some(UnknownUser)
  {
    if user.None? || !(userProfile.Some? && Truthy(userProfile.value.groupId)) || userProfile.None? then None
    else
      var p := userProfile.value;
      Some(NewLogEvent(eventType, timestamp, user.value.uid,
                       Some(Or(Some(p.displayName), Or(user.value.email, UnknownUser))),
                       p.groupId.value, None, None, None))
  }

  /** The document `addDoc` stores for a record, as a later snapshot reads it. */
  function StoredDoc(id: string, e: NewLogEvent): EventDoc {
    EventDoc(id, Some(e.eventType), Some(e.timestamp), Some(e.userId), e.userName, Some(e.groupId),
             e.targetUserId, e.targetUserName, e.notificationType)
  }

  /** A logged event survives the snapshot's validation and comes back with
      the type, time, author, author name and group it was written with. */
  lemma LoggedEventRoundTrip(user: Option<AuthUser>, userProfile: Option<UserProfile>, eventType: EventType,
                             timestamp: int, id: string)
    requires EventRecord(user, userProfile, eventType, timestamp).Some?
    requires user.value.uid != ""
    ensures IsValidEventDoc(StoredDoc(id, EventRecord(user, userProfile, eventType, timestamp).value))
    ensures
      var r := EventRecord(user, userProfile, eventType, timestamp).value;
      var e := ToLogEvent(StoredDoc(id, r));
      e.id == id && e.eventType == eventType && e.timestamp == timestamp && e.userId == user.value.uid
      && Some(e.groupId) == userProfile.value.groupId && e.userName == r.userName
  {
    var r := EventRecord(user, userProfile, eventType, timestamp).value;
    assert Truthy(r.userName);
  }

  /** What the effect on [user, groupId, loading] did. */
  datatype EffectAction = Redirect | Subscribe(groupId: string) | SetupFailed | Cleared | NoChange

  /** The home page's event state and its listener. */
  class HomePageView {
    var events: seq<LogEvent>
    var isLoadingEvents: bool
    /** The group whose events the live listener follows, if one is attached. */
    var listening: Option<string>

    constructor ()
      ensures events == [] && isLoadingEvents && listening == None
    {
      events := [];
      isLoadingEvents := true;
      listening := None;
    }

    /** One run of the effect, after the previous run's cleanup has detached
        its listener. `listenerOk` is whether setting up the listener
        succeeded. */
    method RunEffect(ctx: AuthContext, listenerOk: bool) returns (action: EffectAction)
      modifies this
      ensures action == Redirect <==> !ctx.loading && ctx.user.None?
      ensures action.Subscribe? <==>
        ctx.user.Some? && ctx.userProfile.Some? && Truthy(ctx.userProfile.value.groupId) && listenerOk
      ensures action.Subscribe? ==> Some(action.groupId) == ctx.userProfile.value.groupId
      ensures action == Cleared <==> !ctx.loading && ctx.user.Some? && !(ctx.userProfile.Some? && Truthy(ctx.userProfile.value.groupId))
      ensures listening == (if action.Subscribe? then Some(action.groupId) else None)
      ensures action == Cleared ==> events == [] && !isLoadingEvents
      ensures action == SetupFailed <==>
        ctx.user.Some? && ctx.userProfile.Some? && Truthy(ctx.userProfile.value.groupId) && !listenerOk
      ensures action.Subscribe? ==> events == old(events) && isLoadingEvents
      ensures action == SetupFailed ==> events == old(events) && !isLoadingEvents
      ensures action == Redirect || action == NoChange ==>
        events == old(events) && isLoadingEvents == old(isLoadingEvents)
    {
      listening := None;
      if !ctx.loading && ctx.user.None? {
        return Redirect;
      }
      action := NoChange;
      if ctx.user.Some? && ctx.userProfile.Some? && Truthy(ctx.userProfile.value.groupId) {
        isLoadingEvents := true;
        if listenerOk {
          listening := ctx.userProfile.value.groupId;
          action := Subscribe(ctx.userProfile.value.groupId.value);
        } else {
          isLoadingEvents := false;
          action := SetupFailed;
        }
      } else if !ctx.loading && ctx.user.Some? {
        isLoadingEvents := false;
        events := [];
        action := Cleared;
      }
    }

    /** The listener's snapshot callback. */
    method OnSnapshot(docs: seq<EventDoc>)
      modifies this`events, this`isLoadingEvents
      ensures events == ValidEvents(docs)
      ensures !isLoadingEvents
    {
      var fetchedEvents := MapSnapshot(docs);
      events := fetchedEvents;
      isLoadingEvents := false;
    }

    /** The listener's error callback: loading stops, the view keeps its events. */
    method OnSnapshotError()
      modifies this`isLoadingEvents
      ensures !isLoadingEvents
    {
      isLoadingEvents := false;
    }
  }
}
