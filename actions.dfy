/** The server action that sends a fridge reminder to a group member over
    FCM and records the reminder in the group's timeline. */
module Actions {
  import opened Js
  import opened Types
  import opened Fcm

  datatype ActionResult = ActionResult(success: bool, message: string)

  /** Everything one run of the action did: the push it attempted, the
      event it wrote (with the group whose timeline it went to) and the
      result it returned. */
  datatype ActionRun = ActionRun(push: Option<Message>, logged: Option<(string, NewLogEvent)>, result: ActionResult)

  const ReminderTitle := "Food Journal Reminder"

  const NoTokenMessage := "Target user does not have an FCM token. Cannot send notification."
  const NoGroupMessage := "Group ID not provided."
  const NoActorMessage := "Actor User ID not provided."
  const SentAndLoggedMessage := "FCM reminder sent and logged successfully!"
  const SentNotLoggedMessage := "FCM reminder sent, but failed to log the event."
  const SendFailedMessage := "Failed to send FCM reminder (service error)."
  const UnexpectedErrorMessage := "An error occurred while attempting to send the reminder."

  /** The notification body, greeting the target by name or as "there". */
  function ReminderBody(targetUserName: Option<string>): (body: string)
    ensures Truthy(targetUserName) ==>
      body == "Hi " + targetUserName.value + ", remember to put the food in the fridge!"
    ensures !Truthy(targetUserName) ==> body == "Hi " + "there" + ", remember to put the food in the fridge!"
  {
    "Hi " + Or(targetUserName, "there") + ", remember to put the food in the fridge!"
  }

  /** The NOTIFICATION_SENT event recorded after a successful push. */
  function ReminderEvent(targetUserId: string, targetUserName: Option<string>, actorUserId: string,
                         actorUserName: Option<string>, groupId: string, now: int): (e: NewLogEvent)
    ensures e.eventType == NotificationSent && e.timestamp == now && e.groupId == groupId
    ensures e.userId == actorUserId && e.targetUserId == Some(targetUserId)
    ensures e.userName == Some(if Truthy(actorUserName) then actorUserName.value else "System")
    ensures e.targetUserName == Some(if Truthy(targetUserName) then targetUserName.value else "Unknown User")
    ensures e.notificationType == Some(Fcm)
  {
    NewLogEvent(NotificationSent, now, actorUserId, Some(Or(actorUserName, "System")), groupId,
                Some(targetUserId), Some(Or(targetUserName, "Unknown User")), Some(Fcm))
  }

  /** `sendReminderAction(...)`. The collaborators' behaviour is input:
      `sendCompletes` is whether the messaging service accepted the push,
      `unexpectedError` whether something else in the send path threw, and
      `logOk` whether writing the event succeeded; `now` is the clock. */
  function SendReminderAction(targetUserId: string, targetUserName: Option<string>, targetFcmToken: Option<string>,
                              actorUserId: string, actorUserName: Option<string>, groupId: string,
                              sendCompletes: bool, unexpectedError: bool, logOk: bool, now: int): (run: ActionRun)
    // The guards, in their order; none of them sends or writes anything.
    ensures !Truthy(targetFcmToken) ==> run == ActionRun(None, None, ActionResult(false, NoTokenMessage))
    ensures Truthy(targetFcmToken) && groupId == "" ==> run == ActionRun(None, None, ActionResult(false, NoGroupMessage))
    ensures Truthy(targetFcmToken) && groupId != "" && actorUserId == "" ==>
      run == ActionRun(None, None, ActionResult(false, NoActorMessage))
    // Past the guards, the push goes to the target's token with the fixed title.
    ensures Truthy(targetFcmToken) && groupId != "" && actorUserId != "" && !unexpectedError ==>
      run.push == Some(Message(Notification(ReminderTitle, ReminderBody(targetUserName)), targetFcmToken.value))
    // An event is written only after a successful push, to the acting group.
    ensures run.logged.Some? ==> run.push.Some? && sendCompletes && !unexpectedError && logOk
    ensures run.logged.Some? ==>
      run.logged.value == (groupId, ReminderEvent(targetUserId, targetUserName, actorUserId, actorUserName, groupId, now))
    // Success means the push went out, whether or not the event was recorded.
    ensures run.result.success <==>
      Truthy(targetFcmToken) && groupId != "" && actorUserId != "" && sendCompletes && !unexpectedError
    ensures run.result.success ==> run.result.message == (if logOk then SentAndLoggedMessage else SentNotLoggedMessage)
    ensures Truthy(targetFcmToken) && groupId != "" && actorUserId != "" && !unexpectedError && !sendCompletes ==>
      run.result == ActionResult(false, SendFailedMessage) && run.logged.None?
    ensures Truthy(targetFcmToken) && groupId != "" && actorUserId != "" && unexpectedError ==>
      run.result == ActionResult(false, UnexpectedErrorMessage) && run.logged.None?
  {
    if !Truthy(targetFcmToken) then ActionRun(None, None, ActionResult(false, NoTokenMessage))
    else if groupId == "" then ActionRun(None, None, ActionResult(false, NoGroupMessage))
    else if actorUserId == "" then ActionRun(None, None, ActionResult(false, NoActorMessage))
    else if unexpectedError then ActionRun(None, None, ActionResult(false, UnexpectedErrorMessage))
    else
      var title := ReminderTitle;
      var message := ReminderBody(targetUserName);
      var fcm := SendFcmNotification(targetFcmToken.value, title, message, sendCompletes);
      if fcm.success then
        var eventLog := ReminderEvent(targetUserId, targetUserName, actorUserId, actorUserName, groupId, now);
        if logOk then ActionRun(fcm.sent, Some((groupId, eventLog)), ActionResult(true, SentAndLoggedMessage))
        else ActionRun(fcm.sent, None, ActionResult(true, SentNotLoggedMessage))
      else ActionRun(fcm.sent, None, ActionResult(false, SendFailedMessage))
  }

  /** A reported success always matches a push to the target's own token,
      and a reported failure never comes with a recorded event. */
  lemma SuccessMeansPushed(targetUserId: string, targetUserName: Option<string>, targetFcmToken: Option<string>,
                           actorUserId: string, actorUserName: Option<string>, groupId: string,
                           sendCompletes: bool, unexpectedError: bool, logOk: bool, now: int)
    ensures
      var run := SendReminderAction(targetUserId, targetUserName, targetFcmToken, actorUserId, actorUserName,
                                    groupId, sendCompletes, unexpectedError, logOk, now);
      && (run.result.success ==> run.push.Some? && Some(run.push.value.token) == targetFcmToken)
      && (!run.result.success ==> run.logged.None?)
  {
  }
}
