/** How events travel through the application: written by the home page or
    by the reminder action, read back by the home page's listener, and shown
    by the history list. */
module Timeline {
  import opened Js
  import opened Types
  import opened Auth
  import opened HomePage
  import opened EventHistory
  import opened Actions

  /** An event a member logs is shown with its label and "(by name)". */
  lemma LoggedEventShown(user: Option<AuthUser>, userProfile: Option<UserProfile>, eventType: EventType,
                         timestamp: int, id: string)
    requires EventRecord(user, userProfile, eventType, timestamp).Some?
    requires user.value.uid != ""
    ensures
      var r := EventRecord(user, userProfile, eventType, timestamp).value;
      IsValidEventDoc(StoredDoc(id, r))
      && Details(ToLogEvent(StoredDoc(id, r)))[..2] == [Label(eventType), "(by " + r.userName.value + ")"]
  {
    LoggedEventRoundTrip(user, userProfile, eventType, timestamp, id);
    var r := EventRecord(user, userProfile, eventType, timestamp).value;
    assert Truthy(r.userName);
  }

  /** A reminder recorded by the action, read back by the listener as the
      code is written, shows "Reminder Sent" by its sender but no "to ..."
      part: the listener copies only id, type, timestamp, userId, userName
      and groupId, so the target's name never reaches the history list. */
  lemma ReminderShownWithoutTarget(targetUserId: string, targetUserName: Option<string>, actorUserId: string,
                                   actorUserName: Option<string>, groupId: string, now: int, id: string)
    requires actorUserId != "" && groupId != ""
    ensures
      var doc := StoredDoc(id, ReminderEvent(targetUserId, targetUserName, actorUserId, actorUserName, groupId, now));
      IsValidEventDoc(doc)
      && Details(ToLogEventAsWritten(doc)) == ["Reminder Sent", "(by " + Or(actorUserName, "System") + ")"]
  {
    var e := ReminderEvent(targetUserId, targetUserName, actorUserId, actorUserName, groupId, now);
    var doc := StoredDoc(id, e);
    assert Truthy(doc.userName);
  }

  /** With the mapping that keeps the notification fields, the same
      reminder is shown with its target and its channel. */
  lemma ReminderShownWithTarget(targetUserId: string, targetUserName: Option<string>, actorUserId: string,
                                actorUserName: Option<string>, groupId: string, now: int, id: string)
    requires actorUserId != "" && groupId != ""
    ensures
      var doc := StoredDoc(id, ReminderEvent(targetUserId, targetUserName, actorUserId, actorUserName, groupId, now));
      IsValidEventDoc(doc)
      && Details(ToLogEvent(doc)) == ["Reminder Sent", "(by " + Or(actorUserName, "System") + ")",
                                      "to " + Or(targetUserName, "Unknown User") + " (FCM)"]
  {
    var e := ReminderEvent(targetUserId, targetUserName, actorUserId, actorUserName, groupId, now);
    var doc := StoredDoc(id, e);
    var shown := ToLogEvent(doc);
    assert Truthy(shown.userName) && Truthy(shown.targetUserName) && shown.notificationType == Some(Fcm);
    var name := Or(targetUserName, "Unknown User");
    assert shown.targetUserName.value == name;
    assert "to " + name + " (" + ChannelName(Fcm) + ")" == "to " + name + " (FCM)";
  }
}
