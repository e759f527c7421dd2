# Food Journal — a verified model of the group-membership core

Food Journal is a small Next.js application backed by Firebase. Members of a
household group log when someone ate and when the food went into the
fridge. An admin manages the group, and a reminder can be pushed to a member
over Firebase Cloud Messaging (FCM). This project models the application's
sequential logic in Dafny and proves properties of it:

- **The membership protocol** of the admin panel (`membership.dfy`,
  `member_queries.dfy`, `admin_page.dfy`).
  - The document store is two maps, `users: uid -> UserProfile` and
    `groups: id -> Group`.
  - Each `writeBatch(...).commit()` is one step that applies every write
    or none.
  - Create-group, add-member and remove-member are tied to pure step
    functions. Those functions are proved to preserve the store's
    cross-document invariants:
    - every admin is a member, with no duplicate ids;
    - a profile points at a group exactly when that group lists it;
    - within its group, a profile's role is admin exactly when the group
      lists it as an admin.
  - The read side is also modelled: the member fetch in chunks of 30, the
    users-without-a-group query, and the repair of a stale group reference.
- **The session gate** (`auth.dfy`): the auth-state callback and the
  `isAdmin` flag.
- **The home page** (`home_page.dfy`):
  - validation and mapping of snapshot documents;
  - the effect that subscribes to the group's events or clears them;
  - the record written when an event is logged.
- **The history list** (`event_history.dfy`):
  - a stable newest-first sort, proved to be a permutation, to be ordered
    and to keep ties in order;
  - the text of each row.
- **The reminder button** (`reminder_button.dfy`):
  - the phone-number pattern, as an automaton proved equal to the
    pattern's language;
  - the enable rule and the button's state.
- **The reminder server action** (`actions.dfy`) and the **FCM service**
  (`fcm.dfy`), as functions of how their collaborators answer.
- **Signup** (`signup.dfy`): the checks, the initial profile and the error
  messages.
- **Shared pieces**:
  - JavaScript conventions (`js.dfy`): nullable values, string
    truthiness, `||` fallbacks and `String.prototype.trim`;
  - the records (`types.dfy`);
  - how an event travels from writer to screen (`timeline.dfy`).

Every call into Firestore, Firebase Auth or FCM becomes an input. Each
input is either a map the step reads or an outcome flag (`commitOk`,
`repairOk`, `sendCompletes`, `logOk`, ...), so each handler is a
deterministic step. Timestamps are integers, and the clock is an input
(`now`).

The store behaviour the code relies on without showing it is written down
as the model's assumptions, in `membership.dfy`:

- `arrayUnion(x)` appends `x` only when it is absent (`ArrayUnion`).
- `arrayRemove(x)` removes every occurrence of `x` (`ArrayRemove`).
- A batch is all-or-nothing, and an `update` of a missing document fails
  the whole batch (`Apply`, `ApplyAll`, `Commit`).
- `set` creates or overwrites its document.

The cross-document invariants are conjoined in `Membership.Consistent`. It
also requires that every profile is stored under its own uid
(`ProfilesKeyedByUid`): the member query filters on the `uid` field, and the
model looks profiles up by document key, so the two agree exactly when this
holds (`MemberQueries.QueryUidInIsFieldFilter`). Signup and every batch keep
it.

`Consistent` allows a groupId that names no stored group, because the
stale-group repair (src/app/admin/page.tsx:115-131) exists for that case.
The stronger property that every groupId names a stored group is kept
separately (`NoDanglingGroupIds`). Every create, add and remove step keeps
it. Under it, a profile's groupId is null exactly when no group lists the
profile (`UngroupedIsUnlisted` and `GroupedIsListed`).

Two defects of the code are recorded under "## Findings". In each case the
code as written is modelled and the defect exhibited, and the corrected
behaviour is what the rest of the model uses:

- `createGroup` refuses only when the admin's context profile names a group
  (src/app/admin/page.tsx:195-197). The context profile is read once at
  sign-in and is not refreshed after a create. So after a create, a remount
  of the admin page in the same session offers the form again, and a second
  create leaves the first group listing an admin whose profile points
  elsewhere. The corrected step reads the stored profile. It keeps the store
  consistent with only a fresh group id required, and it agrees with the
  code whenever the context profile is current.
- The home page's listener copies only six fields of each event document
  (src/app/page.tsx:61-70). As a result, the "to {target} ({channel})" part
  of a reminder row (src/components/food-journal/EventHistory.tsx:63) is
  never shown for events read through that listener. The corrected mapping
  also copies the target and channel fields.

The stale-group repair of `fetchGroupData` still relies on the context
profile (`ContextCurrentFor`). It only runs when the group document is
missing. The application never deletes a group, so only a change made
outside the application can make that profile disagree with the store.

## Model

| member | source | states |
|---|---|---|
| Js.Or | src/app/page.tsx:66 | `s \|\| fallback` yields `s` when it is a non-empty string, the fallback otherwise |
| Js.Trim | src/app/admin/page.tsx:174 | the trimmed string is no longer than the input and neither starts nor ends with whitespace |
| Js.TrimIsCore | src/app/admin/page.tsx:184 | the trimmed string is a contiguous slice of the input with only whitespace cut from either end |
| Js.TrimEmptyIffBlank | src/app/signup/page.tsx:36 | a string trims to "" exactly when every character is whitespace, so `!s.trim()` rejects exactly the blank inputs |
| Membership.ArrayUnion | src/app/admin/page.tsx:246 | `arrayUnion`: the result holds the old ids plus `x`, keeps the old ids as a prefix, is unchanged when `x` is present, and never introduces a duplicate |
| Membership.ArrayRemove | src/app/admin/page.tsx:299-300 | `arrayRemove`: the result holds exactly the old ids other than `x`, never contains `x`, is unchanged when `x` is absent, keeps no duplicate, and is one shorter when the ids were distinct and held `x` |
| Membership.Apply | src/app/admin/page.tsx:245-246 | one batch write fails exactly when it updates a profile or group document that does not exist |
| Membership.ApplyTwo | src/app/admin/page.tsx:191-202 | a two-write batch yields nothing when the first write fails, else the second write applied to the first one's result |
| Membership.ApplyOne | src/app/admin/page.tsx:125 | a one-write batch is that write |
| Membership.NewGroup | src/app/admin/page.tsx:182-189 | the new group has the generated id, the trimmed name, the clock time, and the creator as its only admin and only member |
| Membership.CreateGroupBatchEffect | src/app/admin/page.tsx:199-202 | the create batch fails only when the creator has no profile; otherwise it stores the group and points the creator's profile at it with role admin |
| Membership.AddMemberBatchEffect | src/app/admin/page.tsx:245-248 | the add batch fails exactly when the target profile or the group is missing; otherwise the target gets the group id and role member, and memberIds gains the target via arrayUnion |
| Membership.RemoveMemberBatchEffect | src/app/admin/page.tsx:297-303 | the remove batch fails exactly when the target profile or the group is missing; otherwise the target's groupId becomes null, its role member, and it leaves both id lists |
| Membership.StaleRepairBatchEffect | src/app/admin/page.tsx:122-126 | the stale-group repair fails exactly when the admin's profile is missing; otherwise only that profile's groupId changes, to null |
| Membership.UngroupedIsUnlisted | src/lib/types.ts:29 | in a consistent store a profile whose groupId is null is listed in no group |
| Membership.GroupedIsListed | src/lib/types.ts:29 | the converse: in a consistent store where every groupId names a stored group, a profile holding a groupId is listed by that group, so groupId is null exactly when no group lists the profile |
| Membership.CreateGroupPreserves | src/app/admin/page.tsx:182-202 | creating a group for a creator in no group, under a fresh id, keeps the store consistent |
| Membership.AddMemberPreserves | src/app/admin/page.tsx:238-248 | adding a user in no group to an existing group keeps the store consistent and appends the user to memberIds (no duplicate) |
| Membership.RemoveMemberPreserves | src/app/admin/page.tsx:285-303 | removing a listed member who is not the sole admin keeps the store consistent and leaves the group at least one admin |
| Membership.StaleRepairPreserves | src/app/admin/page.tsx:115-131 | clearing the groupId of a profile whose group document is missing keeps the store consistent |
| Membership.AddMemberTwiceRefused | src/app/admin/page.tsx:241-243 | after a committed add the target's profile has a groupId, so adding the same user again is refused |
| Membership.CreateGroupStep | src/app/admin/page.tsx:193-202 | create as written: it refuses exactly when the context profile names a group (naming it); it succeeds exactly when the commit is accepted and the creator's profile exists; any other outcome writes nothing |
| Membership.CreateGroupStepCommits | src/app/admin/page.tsx:199-202 | past the refusal, create succeeds exactly when the create batch commits, and the new store is the committed one |
| Membership.AddMemberStep | src/app/admin/page.tsx:236-248 | add reports UserNotFound exactly for a missing profile and AlreadyInGroup (naming the group) exactly for a profile with a groupId; it succeeds exactly when neither applies, the group exists and the commit is accepted; any other outcome writes nothing |
| Membership.AddMemberStepCommits | src/app/admin/page.tsx:245-248 | past the refusals, add succeeds exactly when the add batch commits, and the new store is the committed one |
| Membership.RemoveMemberStep | src/app/admin/page.tsx:283-303 | remove reports GroupNotFound, NotAMember and LastAdminCannotBeRemoved exactly in their cases, in that order; it succeeds exactly when none applies and the commit is accepted; any other outcome writes nothing |
| Membership.RemoveMemberStepCommits | src/app/admin/page.tsx:297-303 | past the refusals, remove succeeds exactly when the remove batch commits, and the new store is the committed one |
| Membership.CreateGroupStepPreserves | src/app/admin/page.tsx:193-202 | create as written keeps a consistent store consistent when the id is fresh and the context profile matches the stored one |
| Membership.StaleContextSecondGroup | src/app/admin/page.tsx:195-197 | with the context profile still naming no group, a second create for the same admin succeeds; the first group then lists an admin whose profile points elsewhere, and the store is no longer consistent |
| Membership.CreateGroupCheckedStep | src/app/admin/page.tsx:193-202 | corrected create: it refuses exactly when the stored profile has a groupId (naming it); it succeeds exactly when the creator exists, has no group and the commit is accepted; any other outcome writes nothing |
| Membership.CreateGroupCheckedStepCommits | src/app/admin/page.tsx:199-202 | past the refusal, corrected create succeeds exactly when the create batch commits, and the new store is the committed one |
| Membership.CreateGroupCheckedStepPreserves | src/app/admin/page.tsx:193-202 | every outcome of corrected create keeps a consistent store consistent when the id is fresh, whatever the context profile says |
| Membership.CheckedStepAgreesWhenCurrent | src/app/admin/page.tsx:195-197 | when the context profile's groupId is the stored one, corrected create and create as written give the same outcome and store |
| Membership.CheckedStepRefusesSecondGroup | src/app/admin/page.tsx:195-197 | after a committed corrected create, a second create for the same admin is refused, naming the first group |
| Membership.AddMemberStepPreserves | src/app/admin/page.tsx:236-248 | every outcome of add keeps a consistent store consistent |
| Membership.RemoveMemberStepPreserves | src/app/admin/page.tsx:283-303 | every outcome of remove keeps a consistent store consistent |
| Membership.CreateGroupCheckedStepResolves | src/app/admin/page.tsx:193-202 | every outcome of corrected create keeps every groupId naming a stored group |
| Membership.AddMemberStepResolves | src/app/admin/page.tsx:236-248 | every outcome of add keeps every groupId naming a stored group |
| Membership.RemoveMemberStepResolves | src/app/admin/page.tsx:283-303 | every outcome of remove keeps every groupId naming a stored group |
| Membership.StaleRepairResolves | src/app/admin/page.tsx:115-131 | when the admin's is the only groupId naming a missing group, the repair leaves every groupId naming a stored group |
| MemberQueries.QueryUidIn | src/app/admin/page.tsx:104-106 | one `in` query returns at most one profile per id, each the stored profile of an id of the chunk |
| MemberQueries.QueryUidInIsFieldFilter | src/app/admin/page.tsx:104 | when every profile is stored under its own uid, the query by document key returns exactly the stored profiles whose `uid` field is in the chunk |
| MemberQueries.ChunksFromFlatten | src/app/admin/page.tsx:101-102 | the slices from position `start` concatenate to the ids from `start` on |
| MemberQueries.ChunksFromSizes | src/app/admin/page.tsx:101-102 | every slice holds between 1 and 30 ids, and every slice but the last exactly 30 |
| MemberQueries.ChunksFromCount | src/app/admin/page.tsx:101 | the number of slices is the ceiling of the remaining length over 30 |
| MemberQueries.ChunksShape | src/app/admin/page.tsx:96-103 | the member ids split into consecutive non-empty slices of at most 30 whose concatenation is the ids; no ids means no slices |
| MemberQueries.QueryUidInAppend | src/app/admin/page.tsx:107 | querying two id lists and concatenating equals querying their concatenation |
| MemberQueries.QueryChunksFlatten | src/app/admin/page.tsx:101-108 | querying slice by slice and concatenating in slice order equals one query over all ids |
| MemberQueries.QueryChunksAppend | src/app/admin/page.tsx:107 | chunk results concatenate across a split of the chunk list |
| MemberQueries.FetchMemberProfiles | src/app/admin/page.tsx:96-110 | the loop returns the chunk results concatenated in chunk order, which equals one query over all member ids, and issues one query per slice (none for an empty list) |
| MemberQueries.MembersAllFound | src/app/admin/page.tsx:104-107 | when every member has a profile, the fetch returns exactly one profile per member, in memberIds order |
| MemberQueries.GroupMembersAreItsProfiles | src/app/admin/page.tsx:101-108 | in a consistent store, the member query of a group returns exactly the stored profiles whose groupId is that group |
| MemberQueries.FortyFiveMembers | src/app/admin/page.tsx:99-108 | a consistent 45-member group is fetched with two queries and yields 45 profiles |
| MemberQueries.UsersWithoutGroup | src/app/admin/page.tsx:153-155 | the picker holds exactly the stored profiles whose groupId is null |
| MemberQueries.UsersWithoutGroupUnlisted | src/app/admin/page.tsx:153-155 | in a consistent store nobody offered for adding is listed in a group |
| MemberQueries.PickerFollowsMembership | src/app/admin/page.tsx:253-254 | after a committed add the target leaves the picker; after a committed removal it is offered again |
| Auth.ResolvedProfile | src/context/AuthContext.tsx:31-58 | the callback keeps a profile exactly when the user is signed in, the profile exists and has a uid and an email; otherwise it is null |
| Auth.State | src/context/AuthContext.tsx:25-27 | the session is unknown exactly while loading, and authenticated exactly when loaded with a user and a profile |
| Auth.AdminOnlyFromValidAdminProfile | src/context/AuthContext.tsx:68 | after an auth event, isAdmin holds exactly when a signed-in user's fetched profile is valid and has role admin |
| Auth.SignOutClearsProfile | src/context/AuthContext.tsx:56-58 | a sign-out event leaves no profile and no admin flag |
| Auth.AuthProvider.constructor | src/context/AuthContext.tsx:25-27 | the provider starts with no user, no profile and loading |
| Auth.AuthProvider.OnAuthStateChanged | src/context/AuthContext.tsx:30-61 | the callback records the user, resolves the profile whatever the read returned, and always ends with loading false |
| AdminPanel.DocumentStore.CommitBatch | src/app/admin/page.tsx:202 | a commit either installs the whole batch's result or leaves the store as it was |
| AdminPanel.DocumentStore.CreateGroupTx | src/app/admin/page.tsx:193-202 | the store ends as the corrected create step says, and stays consistent under a fresh id |
| AdminPanel.DocumentStore.AddMemberTx | src/app/admin/page.tsx:236-248 | the store ends as the add step says and stays consistent |
| AdminPanel.DocumentStore.RemoveMemberTx | src/app/admin/page.tsx:283-303 | the store ends as the remove step says and stays consistent |
| AdminPanel.FlagCleared | src/app/admin/page.tsx:229 | raising then lowering a uid's busy flag equals lowering it |
| AdminPanel.AdminPage.constructor | src/app/admin/page.tsx:40-48 | the page starts with no group, no members, no users, empty inputs, loading data and no busy flags |
| AdminPanel.AdminPage.FetchAllUsersWithoutGroup | src/app/admin/page.tsx:147-170 | skipped unless admin and idle; otherwise the list becomes the users without a group and the fetching flag is lowered again |
| AdminPanel.AdminPage.FetchGroupData | src/app/admin/page.tsx:83-145 | an existing group is shown with its chunk-fetched members and the store untouched; a missing group clears group and members and sets the admin's groupId to null when that update succeeds; loading ends false; consistency is kept |
| AdminPanel.AdminPage.LoadAdminData | src/app/admin/page.tsx:67-80 | nothing happens unless a signed-in admin; for an admin loading ends false and the users without a group are refreshed unless a fetch is running; no group leaves the store and the shown group untouched; a stored group is shown with its members and the store untouched; a missing group clears group and members; a consistent store stays consistent when the context profile is current |
| AdminPanel.AdminPage.ShowCreatedGroup | src/app/admin/page.tsx:208-212 | after a committed create the page shows the new group with the creator, now admin, as its only member, clears the name input, and refreshes the picker for an idle admin (otherwise leaves it), the fetching flag ending as it began |
| AdminPanel.AdminPage.CreateGroupFor | src/app/admin/page.tsx:175-223 | the corrected create step's outcome and store; on failure group, members, name input and picker unchanged; on success the new group shown and the picker refreshed for an idle admin; the busy flag lowered and the fetching flag unchanged on every path; consistency kept under a fresh id |
| AdminPanel.AdminPage.HandleCreateGroup | src/app/admin/page.tsx:172-224 | a blank name, no user or no profile does nothing; otherwise the corrected create step's outcome and store; on failure the page unchanged but for the lowered busy flag; on success the new group shown and the picker refreshed for an idle admin; the fetching flag unchanged; consistency kept under a fresh id |
| AdminPanel.AdminPage.RefreshGroup | src/app/admin/page.tsx:253-254 | after a committed change the page shows the stored group and its members, loading ends false, the picker is refreshed for an idle admin and otherwise left, and the fetching flag ends as it began |
| AdminPanel.AdminPage.AddMemberTo | src/app/admin/page.tsx:238-265 | the add step's outcome and store; on failure group, members, selection, picker and loading unchanged; on success the group refreshed, the selection cleared, loading false and the picker refreshed for an idle admin; the target's busy flag lowered; consistency kept |
| AdminPanel.AdminPage.HandleAddMember | src/app/admin/page.tsx:227-266 | no selection, no group or a busy target does nothing; otherwise the add step's outcome and store; on failure the page unchanged but for the lowered busy flag; on success the group refreshed, the selection cleared, loading false and the picker refreshed for an idle admin; the fetching flag unchanged; consistency kept |
| AdminPanel.AdminPage.HandleRemoveMember | src/app/admin/page.tsx:268-321 | self-removal is refused with no write; no group or a busy target does nothing; otherwise the remove step's outcome and store; on failure the page unchanged but for the lowered busy flag; on success the group refreshed, loading false and the picker refreshed for an idle admin; the fetching flag unchanged; consistency kept |
| HomePage.ToLogEvent | src/app/page.tsx:61-70 | corrected mapping: a valid document maps to an event with its id, type, time, user and group, the user name or 'Unknown User', and its target id, target name and channel |
| HomePage.ToLogEventAsWritten | src/app/page.tsx:61-70 | the mapping as written copies id, type, time, user, group and name, and leaves the target id, target name and channel empty |
| HomePage.MappingsDifferInNotificationFields | src/app/page.tsx:61-70 | the mapping as written is the corrected one with the three notification fields dropped |
| HomePage.ValidEvents | src/app/page.tsx:50-72 | a snapshot yields at most one event per document (corrected mapping) |
| HomePage.KeptIndices | src/app/page.tsx:54-57 | every kept position is a position of the snapshot |
| HomePage.KeptIndicesExact | src/app/page.tsx:54-57 | a document is kept exactly when it has type, timestamp, userId and groupId, and kept positions ascend |
| HomePage.ValidEventsOrder | src/app/page.tsx:50-72 | the k-th event is the mapping of the k-th kept document, so kept events keep the snapshot's relative order |
| HomePage.ValidEventsWellFormed | src/app/page.tsx:54-66 | every event shown has a non-empty user id, group id and user name |
| HomePage.AllValidKeepsAll | src/app/page.tsx:54-57 | a snapshot of valid documents loses none of them |
| HomePage.MapSnapshot | src/app/page.tsx:50-71 | the forEach/push loop yields exactly the valid documents, mapped, in snapshot order (corrected mapping) |
| HomePage.EventRecord | src/app/page.tsx:106-125 | logging is refused exactly with no user, no profile or no groupId; the record carries the user's uid and the profile's group, and the name is the display name, else the email, else 'Unknown User' |
| HomePage.LoggedEventRoundTrip | src/app/page.tsx:119-125 | a logged event passes the listener's validation and is read back with the type, time, author, name and group it was written with |
| HomePage.HomePageView.RunEffect | src/app/page.tsx:33-103 | not loading with no user redirects; a user with a grouped profile subscribes to that group (or stops loading when setup fails); a loaded user without a group gets an empty list and loading false |
| HomePage.HomePageView.OnSnapshot | src/app/page.tsx:49-73 | the events become the snapshot's valid events and loading stops (corrected mapping) |
| HomePage.HomePageView.OnSnapshotError | src/app/page.tsx:74-78 | a listener error stops loading |
| EventHistory.Insert | src/components/food-journal/EventHistory.tsx:33-37 | inserting adds exactly one element |
| EventHistory.SortNewestFirst | src/components/food-journal/EventHistory.tsx:33 | the sorted copy has as many events as the input |
| EventHistory.InsertPermutes | src/components/food-journal/EventHistory.tsx:33-37 | insertion adds the one event to the multiset |
| EventHistory.InsertKeepsOrder | src/components/food-journal/EventHistory.tsx:33-37 | inserting into a newest-first list keeps it newest first |
| EventHistory.SortPermutes | src/components/food-journal/EventHistory.tsx:33 | the sorted list is a permutation of the input events |
| EventHistory.SortOrders | src/components/food-journal/EventHistory.tsx:33-37 | the sorted list is in non-increasing timestamp order |
| EventHistory.InsertStable | src/components/food-journal/EventHistory.tsx:33-37 | insertion puts an event ahead of the events it ties with |
| EventHistory.SortStable | src/components/food-journal/EventHistory.tsx:33-37 | events with equal timestamps keep their input order |
| EventHistory.Label | src/components/food-journal/EventHistory.tsx:40-63 | FOOD_INTAKE shows "Ate Food", FRIDGE_STORAGE "Stored in Fridge", NOTIFICATION_SENT "Reminder Sent" |
| EventHistory.LabelInjective | src/components/food-journal/EventHistory.tsx:40-63 | different event types never share a label |
| EventHistory.Details | src/components/food-journal/EventHistory.tsx:39-65 | a row shows the label, then "(by name)" for a non-empty user name, then for a reminder with a target name "to name (channel or 'Notification')" |
| EventHistory.RowsOf | src/components/food-journal/EventHistory.tsx:84-100 | one row per event, in list order, keyed by the event id |
| EventHistory.Render | src/components/food-journal/EventHistory.tsx:80-81 | the "No events logged yet." branch is taken exactly for an empty list; otherwise one row per event |
| EventHistory.RenderShowsEveryEventNewestFirst | src/components/food-journal/EventHistory.tsx:33-100 | rows run newest to oldest and show every event as often as it occurs |
| ReminderButton.RunInRun | src/components/food-journal/ReminderButton.tsx:70 | inside the character run, the automaton accepts exactly when all remaining characters are in `[0-9\s-()]` |
| ReminderButton.RunFailed | src/components/food-journal/ReminderButton.tsx:70 | a failed match stays failed |
| ReminderButton.PhonePatternCorrect | src/components/food-journal/ReminderButton.tsx:70 | the automaton accepts a string exactly when it is an optional '+' followed by one or more digits, whitespace, '-', '(' or ')' |
| ReminderButton.CheckSend | src/components/food-journal/ReminderButton.tsx:59-78 | a null or empty number aborts first, a number failing the pattern aborts next, and only a number in the pattern's language reaches the action |
| ReminderButton.EnabledButtonPassesNullCheck | src/components/food-journal/ReminderButton.tsx:102 | an enabled button (not loading, non-empty number) never hits the missing-number check |
| ReminderButton.ReminderButtonState.FetchPhoneNumber | src/components/food-journal/ReminderButton.tsx:23-56 | the number is the profile's when the last intake event names a user whose profile was found, null otherwise; loading ends false once a fetch was made and is untouched when there is no one to fetch |
| ReminderButton.ReminderButtonState.BeginSend | src/components/food-journal/ReminderButton.tsx:58-82 | the checks run in order, and loading is raised only when the action is about to run |
| ReminderButton.ReminderButtonState.FinishSend | src/components/food-journal/ReminderButton.tsx:83-97 | loading is false once the action has returned, and the toast reports the result |
| Fcm.SendFcmNotification | src/services/fcm.ts:15-61 | an empty token returns false without sending; otherwise the message carries exactly the title, body and token, and the result is true exactly when the send completes |
| Fcm.FailedTokensExact | src/services/fcm.ts:94-101 | the failed tokens are exactly the tokens at failed positions, one per failure |
| Fcm.SendMulticastFcmNotification | src/services/fcm.ts:71-109 | a missing or empty token list returns null without sending; a throwing send returns null; otherwise the response is returned and the failed tokens collected in index order |
| Actions.ReminderBody | src/app/actions.ts:36 | the text greets the target by name, or as "there" |
| Actions.ReminderEvent | src/app/actions.ts:44-53 | the event is NOTIFICATION_SENT by the actor (name or 'System') to the target (name or 'Unknown User') over FCM, in the acting group |
| Actions.SendReminderAction | src/app/actions.ts:16-76 | missing token, group and actor are refused in that order without sending; the push uses the fixed title and text; an event is written only after a successful push; success holds exactly when the push went out, whether or not logging succeeded; exceptions yield failure |
| Actions.SuccessMeansPushed | src/app/actions.ts:40-75 | a reported success always comes with a push to the target's own token, and a failure never with a recorded event |
| Signup.FriendlyError | src/app/signup/page.tsx:93-103 | the four known auth codes get their own messages and any other code the generic one |
| Signup.FriendlyErrorDistinguishes | src/app/signup/page.tsx:93-103 | no known code is reported with the generic message, and each message identifies its known code |
| Signup.InitialProfile | src/app/signup/page.tsx:74-83 | the new profile has the auth uid and email, the trimmed name, an empty phone number, no token, no group and role member |
| Signup.NewProfileKeepsConsistent | src/app/signup/page.tsx:84 | writing a new account's profile keeps the store consistent and makes the user available for adding |
| Signup.SignupResult | src/app/signup/page.tsx:31-115 | a blank name is rejected first, then a password under 6 characters; an account exists only when both pass and all steps succeed; a refused creation shows the code's message |
| Signup.ChecksComeFirst | src/app/signup/page.tsx:36-61 | an invalid form ends in one of the two form errors: never an account, never a message from the authentication service |
| Signup.SignupPage.HandleSignup | src/app/signup/page.tsx:31-115 | the handler ends with the outcome's error line and with loading false on every exit |
| Timeline.LoggedEventShown | src/app/page.tsx:119-125 | a member's logged event is shown with its label and "(by name)" |
| Timeline.ReminderShownWithoutTarget | src/app/page.tsx:61-70 | with the mapping as written, a reminder read back by the home page shows "Reminder Sent" and its sender but no target |
| Timeline.ReminderShownWithTarget | src/components/food-journal/EventHistory.tsx:58-64 | with the corrected mapping, a reminder read back shows "Reminder Sent", its sender (or 'System') and "to {target} (FCM)" |

## Left out

- Firestore, Firebase Auth and FCM calls are inputs: maps read by a step, or outcome flags. Reads (`getDoc`, `getDocs`) never fail in the admin panel model. Only commits and the stale-group update have an outcome.
- Races between sessions and the interleaving of the awaits inside one handler are out of scope. Each handler is one sequential step.
- The order of the `in` query's results is taken to be the order of the ids in the chunk. Firestore does not promise this.
- `allUsers` is a map by uid. The order of the query result is not modelled.
- A stored event's `type` is one of the three known values. Unknown type strings are not represented.
- A stored event's `timestamp` is present or absent. A Firestore Timestamp object is always truthy, so a present timestamp always passes validation.
- Timestamp conversion (`getDateFromTimestamp`) and date formatting depend on the clock and on libraries. Timestamps are integers, and the clock is an input.
- The `adminMessaging` guards in src/services/fcm.ts:20-23 and 76-79 test a function reference, which is always truthy. A messaging service that failed to initialise shows up as a send that throws.
- `Actions.SendReminderAction`: an unexpected exception in the send path is modelled as occurring before the push. An exception raised after the push is not represented.
- ReminderButton calls `sendReminderAction(phoneNumber)` with one argument where the action takes six. The button is not mounted by any page. The model covers its checks and state, not that call.
- The WhatsApp service is a stub that logs and returns true. It is not part of this model.
- LogButtons.tsx holds only button-loading UI state, and the login page is not part of this model.
- Configuration and bootstrapping are environment setup and are not part of this model: src/lib/firebase.ts, src/lib/firebase-admin.ts, the messaging service worker, src/app/layout.tsx and next.config.ts.
- Toasts, redirects, console logging, JSX rendering and skeletons are left out. Only the text of the history rows is modelled.
- `Signup.SignupSteps`: the updateProfile and setDoc steps are modelled by their error code only. The account created in the authentication service before a later step fails is not represented.
- String lengths are counted in characters. JavaScript counts UTF-16 code units, so the 6-character password rule differs for characters outside the Basic Multilingual Plane.
- Group rename and deletion do not exist in the application.

## Findings

| source | as written | input that shows it | evidently intended | confidence | as-written member | corrected member |
|---|---|---|---|---|---|---|
| src/app/admin/page.tsx:195-197 | create refuses only when the context profile, read at sign-in, names a group | an admin with no group creates "g1", the page is remounted in the same session (context profile still without a group), and creates "g2": g1 lists the admin while the admin's profile points at g2 | refuse when the stored profile already names a group | not executed | Membership.StaleContextSecondGroup | Membership.CreateGroupCheckedStepPreserves |
| src/app/page.tsx:61-70 | the listener copies six fields of each event document and drops targetUserId, targetUserName and notificationType | a NOTIFICATION_SENT document written by the reminder action with a target name: its history row lacks "to {target} (FCM)" | copy the notification fields so EventHistory.tsx:58-64 can show the target | not executed | Timeline.ReminderShownWithoutTarget | Timeline.ReminderShownWithTarget |
