/** The records shared by every part of the application: log events,
    user profiles and groups. Timestamps are modelled as integers
    (milliseconds); the clock itself is an input wherever one is read. */
module Types {
  import opened Js

  /** The three kinds of event a group's timeline holds. */
  datatype EventType = FoodIntake | FridgeStorage | NotificationSent

  /** The channel a reminder went out on. */
  datatype NotificationType = Fcm | WhatsApp

  /** A stored event. The notification fields are only set on
      NotificationSent events. */
  datatype LogEvent = LogEvent(
    id: string,
    eventType: EventType,
    timestamp: int,
    userId: string,
    userName: Option<string>,
    groupId: string,
    targetUserId: Option<string>,
    targetUserName: Option<string>,
    notificationType: Option<NotificationType>)

  /** An event as written by `addDoc`, before the store gives it an id. */
  datatype NewLogEvent = NewLogEvent(
    eventType: EventType,
    timestamp: int,
    userId: string,
    userName: Option<string>,
    groupId: string,
    targetUserId: Option<string>,
    targetUserName: Option<string>,
    notificationType: Option<NotificationType>)

  /** A role only has meaning inside the profile's own group. */
  datatype UserRole = Admin | Member

  /** One profile per authenticated identity; `groupId == None` means the
      user belongs to no group. */
  datatype UserProfile = UserProfile(
    uid: string,
    email: Option<string>,
    displayName: string,
    phoneNumber: string,
    fcmToken: Option<string>,
    groupId: Option<string>,
    role: UserRole,
    createdAt: int)

  /** A group. Both id lists are ordered arrays of uids; nothing at the type
      level rules out duplicates, the membership protocol keeps them out. */
  datatype Group = Group(
    id: string,
    name: string,
    adminIds: seq<string>,
    memberIds: seq<string>,
    createdAt: int)

  /** The identity the authentication provider reports. */
  datatype AuthUser = AuthUser(uid: string, email: Option<string>)

  /** A profile belongs to a group when its groupId is truthy: the source
      tests `if (profile.groupId)`, so "" counts as no group. */
  predicate InGroup(p: UserProfile) {
    Truthy(p.groupId)
  }
}
