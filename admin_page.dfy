/** The admin panel: its component state and its handlers, each modelled
    as one sequential step against the document store. The outcome of every
    store commit is an input (`commitOk`); reads see the store as it is. */
module AdminPanel {
  import opened Js
  import opened Types
  import opened Membership
  import opened MemberQueries
  import opened Auth

  /** The two collections of the document store, updated in place by commits. */
  class DocumentStore {
    var users: map<string, UserProfile>
    var groups: map<string, Group>

    constructor (db: Db)
      ensures users == db.users && groups == db.groups
    {
      users := db.users;
      groups := db.groups;
    }

    function Contents(): (db: Db)
      reads this
      ensures db.users == users && db.groups == groups
    {
      Db(users, groups)
    }

    /** `batch.commit()`: applies every write of the batch or none. */
    method CommitBatch(batch: seq<Write>, ok: bool) returns (committed: bool)
      modifies this
      ensures committed <==> Commit(old(Contents()), batch, ok).Some?
      ensures committed ==> Contents() == Commit(old(Contents()), batch, ok).value
      ensures !committed ==> Contents() == old(Contents())
    {
      var r := Commit(Contents(), batch, ok);
      committed := r.Some?;
      if committed {
        users := r.value.users;
        groups := r.value.groups;
      }
    }

    /** The try-block of `handleCreateGroup` against the store, with the
        refusal reading the creator's stored profile (CreateGroupCheckedStep):
        refuse when it names a group, else commit the batch creating the
        group `NewGroup(id, name, creator, now)`. Under a fresh id a
        consistent store stays consistent. */
    method CreateGroupTx(id: string, name: string, creator: string, now: int, ok: bool)
      returns (outcome: Outcome)
      modifies this
      ensures outcome == CreateGroupCheckedStep(old(Contents()), NewGroup(id, name, creator, now), creator, ok).outcome
      ensures Contents() == CreateGroupCheckedStep(old(Contents()), NewGroup(id, name, creator, now), creator, ok).db
      ensures Consistent(old(Contents())) && FreshGroupId(old(Contents()), id) ==> Consistent(Contents())
    {
      ghost var before := Contents();
      if Consistent(before) && FreshGroupId(before, id) {
        CreateGroupCheckedStepPreserves(before, id, name, creator, now, ok);
      }
      if creator in users && Truthy(users[creator].groupId) {
        return AlreadyInGroup(users[creator].groupId.value);
      }
      var g := NewGroup(id, name, creator, now);
      CreateGroupCheckedStepCommits(Contents(), g, creator, ok);
      var committed := CommitBatch(CreateGroupBatch(g, creator), ok);
      outcome := if committed then Done else CommitFailed;
    }

    /** The try-block of `handleAddMember` against the store: read the
        target's profile, refuse a missing or grouped one, else commit. */
    method AddMemberTx(gid: string, target: string, ok: bool) returns (outcome: Outcome)
      modifies this
      ensures outcome == AddMemberStep(old(Contents()), gid, target, ok).outcome
      ensures Contents() == AddMemberStep(old(Contents()), gid, target, ok).db
      ensures Consistent(old(Contents())) ==> Consistent(Contents())
    {
      ghost var before := Contents();
      if Consistent(before) {
        AddMemberStepPreserves(before, gid, target, ok);
      }
      if target !in users {
        return UserNotFound;
      }
      var userToAddData := users[target];
      if Truthy(userToAddData.groupId) {
        return AlreadyInGroup(userToAddData.groupId.value);
      }
      AddMemberStepCommits(Contents(), gid, target, ok);
      var committed := CommitBatch(AddMemberBatch(gid, target), ok);
      outcome := if committed then Done else CommitFailed;
    }

    /** The try-block of `handleRemoveMember` against the store: re-read the
        group, refuse a missing group, a non-member and the only admin, else
        commit. */
    method RemoveMemberTx(gid: string, target: string, ok: bool) returns (outcome: Outcome)
      modifies this
      ensures outcome == RemoveMemberStep(old(Contents()), gid, target, ok).outcome
      ensures Contents() == RemoveMemberStep(old(Contents()), gid, target, ok).db
      ensures Consistent(old(Contents())) ==> Consistent(Contents())
    {
      ghost var before := Contents();
      if Consistent(before) {
        RemoveMemberStepPreserves(before, gid, target, ok);
      }
      if gid !in groups {
        return GroupNotFound;
      }
      var currentGroupData := groups[gid];
      if target !in currentGroupData.memberIds {
        return NotAMember;
      }
      if target in currentGroupData.adminIds && |currentGroupData.adminIds| == 1 {
        return LastAdminCannotBeRemoved;
      }
      RemoveMemberStepCommits(Contents(), gid, target, ok);
      var committed := CommitBatch(RemoveMemberBatch(gid, target), ok);
      outcome := if committed then Done else CommitFailed;
    }
  }

  /** The signed-in admin's context profile agrees with the store about the
      admin's group. Within one session the admin's stored groupId changes
      in two ways the context does not follow: group creation, while the
      context says "no group", and the stale-group repair in FetchGroupData,
      which clears the stored id while the context still names the missing
      group. Another session can also move the admin. */
  ghost predicate ContextCurrent(ctx: AuthContext, db: Db) {
    ctx.user.Some? && ctx.userProfile.Some? ==>
      ctx.user.value.uid in db.users && db.users[ctx.user.value.uid].groupId == ctx.userProfile.value.groupId
  }

  /** Raising a flag and lowering it again leaves it lowered and every
      other flag as it was. */
  lemma FlagCleared(flags: map<string, bool>, uid: string)
    ensures flags[uid := true][uid := false] == flags[uid := false]
  {
    var a, b := flags[uid := true][uid := false], flags[uid := false];
    assert a.Keys == b.Keys;
    assert forall k :: k in a ==> a[k] == b[k];
  }

  class AdminPage {
    const store: DocumentStore
    var group: Option<Group>
    var members: seq<UserProfile>
    /** The users without a group, by uid (the order of the query result is
        not modelled). */
    var allUsers: map<string, UserProfile>
    var selectedUserToAdd: string
    var newGroupName: string
    var isLoadingData: bool
    var isCreatingGroup: bool
    /** The per-uid "update in flight" flags; a missing key reads as false. */
    var isUpdating: map<string, bool>
    var isFetchingUsers: bool

    constructor (store: DocumentStore)
      ensures this.store == store
      ensures group == None && members == [] && allUsers == map[]
      ensures selectedUserToAdd == "" && newGroupName == ""
      ensures isLoadingData && !isCreatingGroup && isUpdating == map[] && !isFetchingUsers
    {
      this.store := store;
      group := None;
      members := [];
      allUsers := map[];
      selectedUserToAdd := "";
      newGroupName := "";
      isLoadingData := true;
      isCreatingGroup := false;
      isUpdating := map[];
      isFetchingUsers := false;
    }

    predicate Updating(uid: string)
      reads this
    {
      uid in isUpdating && isUpdating[uid]
    }

    /** `fetchAllUsersWithoutGroup`: skipped unless admin and idle; otherwise
        the list becomes the users whose groupId is null. */
    method FetchAllUsersWithoutGroup(isAdmin: bool)
      modifies this`allUsers, this`isFetchingUsers
      ensures !isAdmin || old(isFetchingUsers) ==> allUsers == old(allUsers) && isFetchingUsers == old(isFetchingUsers)
      ensures isAdmin && !old(isFetchingUsers) ==> allUsers == UsersWithoutGroup(store.users) && !isFetchingUsers
      ensures isFetchingUsers == old(isFetchingUsers)
    {
      if !isAdmin || isFetchingUsers {
        return;
      }
      isFetchingUsers := true;
      allUsers := UsersWithoutGroup(store.users);
      isFetchingUsers := false;
    }

    /** `fetchGroupData`: load the group document and its members (in
        chunks of 30); when the document is missing, clear the page and
        clear the signed-in admin's stale groupId (`repairOk` is the
        outcome of that update). */
    method FetchGroupData(groupId: string, user: Option<AuthUser>, repairOk: bool)
      modifies this`group, this`members, this`isLoadingData, store
      ensures !isLoadingData
      ensures groupId in old(store.groups) ==>
        && store.Contents() == old(store.Contents())
        && group == Some(store.groups[groupId])
        && members == QueryUidIn(store.users, store.groups[groupId].memberIds)
      ensures groupId !in old(store.groups) ==>
        && group == None && members == []
        && store.groups == old(store.groups)
        && store.users == if user.Some? && repairOk && user.value.uid in old(store.users)
                          then old(store.users)[user.value.uid := old(store.users)[user.value.uid].(groupId := None)]
                          else old(store.users)
      ensures Consistent(old(store.Contents())) && ContextCurrentFor(user, groupId, old(store.Contents())) ==>
        Consistent(store.Contents())
    {
      isLoadingData := true;
      if groupId in store.groups {
        var groupData := store.groups[groupId];
        group := Some(groupData);
        if |groupData.memberIds| > 0 {
          var memberProfiles, queries := FetchMemberProfiles(store.users, groupData.memberIds);
          members := memberProfiles;
        } else {
          members := [];
        }
      } else {
        group := None;
        members := [];
        if user.Some? {
          ghost var before := store.Contents();
          StaleRepairBatchEffect(before, user.value.uid);
          var committed := store.CommitBatch(StaleRepairBatch(user.value.uid), repairOk);
          if committed && Consistent(before) && ContextCurrentFor(user, groupId, before) {
            StaleRepairPreserves(before, user.value.uid);
          }
        }
      }
      isLoadingData := false;
    }

    /** The admin whose stale group is repaired has no other group in the
        store: their stored groupId is still the one that was fetched. */
    ghost predicate ContextCurrentFor(user: Option<AuthUser>, groupId: string, db: Db) {
      user.Some? && user.value.uid in db.users ==> db.users[user.value.uid].groupId == Some(groupId)
    }

    /** The admin-data effect: for a signed-in admin, load the group when
        the profile names one, and the users without a group. */
    method LoadAdminData(ctx: AuthContext, repairOk: bool)
      modifies this`group, this`members, this`isLoadingData, this`allUsers, this`isFetchingUsers, store
      ensures isFetchingUsers == old(isFetchingUsers)
      ensures !(IsAdmin(ctx.userProfile) && ctx.user.Some?) ==>
        store.Contents() == old(store.Contents()) && group == old(group) && members == old(members)
        && allUsers == old(allUsers) && isLoadingData == old(isLoadingData)
      ensures IsAdmin(ctx.userProfile) && ctx.user.Some? ==> !isLoadingData
      ensures IsAdmin(ctx.userProfile) && ctx.user.Some? && !old(isFetchingUsers) ==>
        allUsers == UsersWithoutGroup(store.users)
      ensures IsAdmin(ctx.userProfile) && ctx.user.Some? && old(isFetchingUsers) ==> allUsers == old(allUsers)
      ensures IsAdmin(ctx.userProfile) && ctx.user.Some? && !Truthy(ctx.userProfile.value.groupId) ==>
        store.Contents() == old(store.Contents()) && group == old(group) && members == old(members)
      ensures IsAdmin(ctx.userProfile) && ctx.user.Some? && Truthy(ctx.userProfile.value.groupId)
              && ctx.userProfile.value.groupId.value in old(store.groups) ==>
        && store.Contents() == old(store.Contents())
        && group == Some(store.groups[ctx.userProfile.value.groupId.value])
        && members == QueryUidIn(store.users, store.groups[ctx.userProfile.value.groupId.value].memberIds)
      ensures IsAdmin(ctx.userProfile) && ctx.user.Some? && Truthy(ctx.userProfile.value.groupId)
              && ctx.userProfile.value.groupId.value !in old(store.groups) ==>
        group == None && members == [] && store.groups == old(store.groups)
      ensures Consistent(old(store.Contents())) && ContextCurrent(ctx, old(store.Contents())) ==>
        Consistent(store.Contents())
    {
      if IsAdmin(ctx.userProfile) && ctx.user.Some? {
        var profile := ctx.userProfile.value;
        if Truthy(profile.groupId) {
          FetchGroupData(profile.groupId.value, ctx.user, repairOk);
          FetchAllUsersWithoutGroup(true);
        } else {
          FetchAllUsersWithoutGroup(true);
          isLoadingData := false;
        }
      }
    }

    /** After a committed create: the page shows the new group with the
        creator as its only member, now an admin, clears the name input and
        refreshes the users without a group. */
    method ShowCreatedGroup(newGroupData: Group, creatorProfile: UserProfile, isAdmin: bool)
      modifies this`group, this`members, this`newGroupName, this`allUsers, this`isFetchingUsers
      ensures group == Some(newGroupData)
      ensures members == [creatorProfile.(groupId := Some(newGroupData.id), role := Admin)]
      ensures newGroupName == ""
      ensures isAdmin && !old(isFetchingUsers) ==> allUsers == UsersWithoutGroup(store.users)
      ensures !(isAdmin && !old(isFetchingUsers)) ==> allUsers == old(allUsers)
      ensures isFetchingUsers == old(isFetchingUsers)
    {
      group := Some(newGroupData);
      members := [creatorProfile.(groupId := Some(newGroupData.id), role := Admin)];
      newGroupName := "";
      FetchAllUsersWithoutGroup(isAdmin);
    }

    /** The body of `handleCreateGroup` past its guard, for the signed-in
        admin `uid` with context profile `profile`: raise the busy flag, run
        the store step, on success show the new group with the admin as its
        only member, and lower the flag. */
    method CreateGroupFor(uid: string, profile: UserProfile, isAdmin: bool, newGroupId: string, now: int, commitOk: bool)
      returns (outcome: Outcome)
      modifies this`group, this`members, this`newGroupName, this`isCreatingGroup, this`allUsers, this`isFetchingUsers, store
      ensures outcome != Skipped && !isCreatingGroup && isFetchingUsers == old(isFetchingUsers)
      ensures outcome == CreateGroupCheckedStep(old(store.Contents()), NewGroup(newGroupId, old(newGroupName), uid, now),
                                                uid, commitOk).outcome
      ensures store.Contents() == CreateGroupCheckedStep(old(store.Contents()), NewGroup(newGroupId, old(newGroupName), uid, now),
                                                         uid, commitOk).db
      ensures outcome != Done ==>
        group == old(group) && members == old(members) && newGroupName == old(newGroupName) && allUsers == old(allUsers)
      ensures outcome == Done ==>
        && group == Some(NewGroup(newGroupId, old(newGroupName), uid, now))
        && members == [profile.(groupId := Some(newGroupId), role := Admin)]
        && newGroupName == ""
      ensures outcome == Done && isAdmin && !old(isFetchingUsers) ==> allUsers == UsersWithoutGroup(store.users)
      ensures outcome == Done && !(isAdmin && !old(isFetchingUsers)) ==> allUsers == old(allUsers)
      ensures Consistent(old(store.Contents())) && FreshGroupId(old(store.Contents()), newGroupId) ==>
        Consistent(store.Contents())
    {
      isCreatingGroup := true;
      var newGroupData := NewGroup(newGroupId, newGroupName, uid, now);
      outcome := store.CreateGroupTx(newGroupId, newGroupName, uid, now, commitOk);
      ghost var after := store.Contents();
      if outcome == Done {
        ShowCreatedGroup(newGroupData, profile, isAdmin);
      }
      isCreatingGroup := false;
      assert store.Contents() == after;
    }

    /** `handleCreateGroup`: the signed-in admin creates a group named by
        the trimmed input under the generated id `newGroupId`, as its sole
        admin and sole member, unless the stored profile already names a
        group. */
    method HandleCreateGroup(ctx: AuthContext, newGroupId: string, now: int, commitOk: bool)
      returns (outcome: Outcome)
      modifies this`group, this`members, this`newGroupName, this`isCreatingGroup, this`allUsers, this`isFetchingUsers, store
      ensures outcome == Skipped <==> Trim(old(newGroupName)) == "" || ctx.user.None? || ctx.userProfile.None?
      ensures outcome == Skipped ==> isCreatingGroup == old(isCreatingGroup) && store.Contents() == old(store.Contents())
      ensures outcome != Skipped ==> !isCreatingGroup
      ensures isFetchingUsers == old(isFetchingUsers)
      ensures outcome != Skipped ==>
        outcome == CreateGroupCheckedStep(old(store.Contents()), NewGroup(newGroupId, old(newGroupName), ctx.user.value.uid, now),
                                          ctx.user.value.uid, commitOk).outcome
      ensures outcome != Skipped ==>
        store.Contents() == CreateGroupCheckedStep(old(store.Contents()),
                                                   NewGroup(newGroupId, old(newGroupName), ctx.user.value.uid, now),
                                                   ctx.user.value.uid, commitOk).db
      ensures outcome != Done ==>
        group == old(group) && members == old(members) && newGroupName == old(newGroupName) && allUsers == old(allUsers)
      ensures outcome == Done ==>
        && group == Some(NewGroup(newGroupId, old(newGroupName), ctx.user.value.uid, now))
        && members == [ctx.userProfile.value.(groupId := Some(newGroupId), role := Admin)]
        && newGroupName == ""
      ensures outcome == Done && IsAdmin(ctx.userProfile) && !old(isFetchingUsers) ==>
        allUsers == UsersWithoutGroup(store.users)
      ensures outcome == Done && !(IsAdmin(ctx.userProfile) && !old(isFetchingUsers)) ==> allUsers == old(allUsers)
      ensures Consistent(old(store.Contents())) && FreshGroupId(old(store.Contents()), newGroupId) ==>
        Consistent(store.Contents())
    {
      if Trim(newGroupName) == "" || ctx.user.None? || ctx.userProfile.None? {
        return Skipped;
      }
      outcome := CreateGroupFor(ctx.user.value.uid, ctx.userProfile.value, IsAdmin(ctx.userProfile), newGroupId, now, commitOk);
    }

    /** The refresh after a committed member change: reload the group and
        its members, then the users without a group. The group document
        exists, so the store is only read. */
    method RefreshGroup(gid: string, user: Option<AuthUser>, isAdmin: bool)
      modifies this`group, this`members, this`isLoadingData, this`allUsers, this`isFetchingUsers, store
      ensures gid in old(store.groups) ==>
        && store.Contents() == old(store.Contents())
        && group == Some(store.groups[gid])
        && members == QueryUidIn(store.users, store.groups[gid].memberIds)
      ensures gid in old(store.groups) && isAdmin && !old(isFetchingUsers) ==>
        allUsers == UsersWithoutGroup(store.users)
      ensures !(isAdmin && !old(isFetchingUsers)) ==> allUsers == old(allUsers)
      ensures !isLoadingData && isFetchingUsers == old(isFetchingUsers)
    {
      FetchGroupData(gid, user, true);
      FetchAllUsersWithoutGroup(isAdmin);
    }

    /** The body of `handleAddMember` past its guard: raise the target's
        busy flag, run the store step, on success refresh the group and
        clear the selection, and lower the flag. */
    method AddMemberTo(gid: string, target: string, user: Option<AuthUser>, isAdmin: bool, commitOk: bool)
      returns (outcome: Outcome)
      modifies this`group, this`members, this`isLoadingData, this`allUsers, this`isFetchingUsers,
               this`selectedUserToAdd, this`isUpdating, store
      ensures outcome == AddMemberStep(old(store.Contents()), gid, target, commitOk).outcome
      ensures store.Contents() == AddMemberStep(old(store.Contents()), gid, target, commitOk).db
      ensures isUpdating == old(isUpdating)[target := false]
      ensures isFetchingUsers == old(isFetchingUsers)
      ensures outcome != Done ==>
        && group == old(group) && members == old(members) && selectedUserToAdd == old(selectedUserToAdd)
        && allUsers == old(allUsers) && isLoadingData == old(isLoadingData)
      ensures outcome == Done ==>
        && group == Some(store.groups[gid])
        && members == QueryUidIn(store.users, store.groups[gid].memberIds)
        && selectedUserToAdd == "" && !isLoadingData
      ensures outcome == Done && isAdmin && !old(isFetchingUsers) ==> allUsers == UsersWithoutGroup(store.users)
      ensures outcome == Done && !(isAdmin && !old(isFetchingUsers)) ==> allUsers == old(allUsers)
      ensures Consistent(old(store.Contents())) ==> Consistent(store.Contents())
    {
      isUpdating := isUpdating[target := true];
      outcome := store.AddMemberTx(gid, target, commitOk);
      ghost var afterTx := store.Contents();
      if outcome == Done {
        assert gid in store.groups;
        RefreshGroup(gid, user, isAdmin);
        selectedUserToAdd := "";
      }
      assert store.Contents() == afterTx;
      isUpdating := isUpdating[target := false];
      FlagCleared(old(isUpdating), target);
    }

    /** `handleAddMember`: add the selected user to the page's group. */
    method HandleAddMember(ctx: AuthContext, commitOk: bool) returns (outcome: Outcome)
      modifies this`group, this`members, this`isLoadingData, this`allUsers, this`isFetchingUsers,
               this`selectedUserToAdd, this`isUpdating, store
      ensures outcome == Skipped <==> old(selectedUserToAdd) == "" || old(group).None? || old(Updating(selectedUserToAdd))
      ensures outcome == Skipped ==> isUpdating == old(isUpdating) && store.Contents() == old(store.Contents())
      ensures outcome != Skipped ==>
        var step := AddMemberStep(old(store.Contents()), old(group).value.id, old(selectedUserToAdd), commitOk);
        && outcome == step.outcome
        && store.Contents() == step.db
        && isUpdating == old(isUpdating)[old(selectedUserToAdd) := false]
      ensures isFetchingUsers == old(isFetchingUsers)
      ensures outcome != Done ==>
        && group == old(group) && members == old(members) && selectedUserToAdd == old(selectedUserToAdd)
        && allUsers == old(allUsers) && isLoadingData == old(isLoadingData)
      ensures outcome == Done ==>
        && group == Some(store.groups[old(group).value.id])
        && members == QueryUidIn(store.users, store.groups[old(group).value.id].memberIds)
        && selectedUserToAdd == "" && !isLoadingData
      ensures outcome == Done && IsAdmin(ctx.userProfile) && !old(isFetchingUsers) ==>
        allUsers == UsersWithoutGroup(store.users)
      ensures outcome == Done && !(IsAdmin(ctx.userProfile) && !old(isFetchingUsers)) ==> allUsers == old(allUsers)
      ensures Consistent(old(store.Contents())) ==> Consistent(store.Contents())
    {
      var target := selectedUserToAdd;
      if target == "" || group.None? || Updating(target) {
        return Skipped;
      }
      outcome := AddMemberTo(group.value.id, target, ctx.user, IsAdmin(ctx.userProfile), commitOk);
    }

    /** `handleRemoveMember`: remove `memberUid` from the page's group;
        an admin can never remove themself. */
    method HandleRemoveMember(memberUid: string, ctx: AuthContext, commitOk: bool) returns (outcome: Outcome)
      modifies this`group, this`members, this`isLoadingData, this`allUsers, this`isFetchingUsers,
               this`isUpdating, store
      ensures outcome == CannotRemoveSelf <==> ctx.user.Some? && memberUid == ctx.user.value.uid
      ensures outcome == Skipped <==>
        !(ctx.user.Some? && memberUid == ctx.user.value.uid) && (old(group).None? || old(Updating(memberUid)))
      ensures outcome in {Skipped, CannotRemoveSelf} ==>
        isUpdating == old(isUpdating) && store.Contents() == old(store.Contents())
      ensures outcome !in {Skipped, CannotRemoveSelf} ==>
        var step := RemoveMemberStep(old(store.Contents()), old(group).value.id, memberUid, commitOk);
        && outcome == step.outcome
        && store.Contents() == step.db
        && isUpdating == old(isUpdating)[memberUid := false]
      ensures isFetchingUsers == old(isFetchingUsers)
      ensures outcome != Done ==>
        group == old(group) && members == old(members) && allUsers == old(allUsers) && isLoadingData == old(isLoadingData)
      ensures outcome == Done ==>
        && group == Some(store.groups[old(group).value.id])
        && members == QueryUidIn(store.users, store.groups[old(group).value.id].memberIds)
        && !isLoadingData
      ensures outcome == Done && IsAdmin(ctx.userProfile) && !old(isFetchingUsers) ==>
        allUsers == UsersWithoutGroup(store.users)
      ensures outcome == Done && !(IsAdmin(ctx.userProfile) && !old(isFetchingUsers)) ==> allUsers == old(allUsers)
      ensures Consistent(old(store.Contents())) ==> Consistent(store.Contents())
    {
      if group.None? || (ctx.user.Some? && memberUid == ctx.user.value.uid) || Updating(memberUid) {
        if ctx.user.Some? && memberUid == ctx.user.value.uid {
          return CannotRemoveSelf;
        }
        return Skipped;
      }
      var gid := group.value.id;
      isUpdating := isUpdating[memberUid := true];
      outcome := store.RemoveMemberTx(gid, memberUid, commitOk);
      if outcome == Done {
        RefreshGroup(gid, ctx.user, IsAdmin(ctx.userProfile));
      }
      isUpdating := isUpdating[memberUid := false];
      FlagCleared(old(isUpdating), memberUid);
    }
  }
}
